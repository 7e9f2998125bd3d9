/** Text helpers shared by the tunnel broker model: an Option type for the
    JavaScript values that may be undefined, first-occurrence search (what
    `String.prototype.split(sep)[0]` looks at), decimal rendering of natural
    numbers as a template literal prints them, its inverse, and `join`. */
module Strings {

  datatype Option<+T> = None | Some(value: T)

  /** Index of the first `c` in `s`, or `|s|` when `s` holds no `c`. */
  function FirstIndex(s: string, c: char): (i: nat)
    ensures i <= |s|
    ensures c !in s[..i]
    ensures i < |s| ==> s[i] == c
  {
    if s == [] then 0
    else if s[0] == c then 0
    else
      var j := FirstIndex(s[1..], c);
      assert s[..1 + j] == [s[0]] + s[1..][..j];
      1 + j
  }

  /** In `a + [c] + b` with no `c` in `a`, the first `c` is the separator. */
  lemma FirstIndexAfterPrefix(a: string, c: char, b: string)
    requires c !in a
    ensures FirstIndex(a + [c] + b, c) == |a|
  {
    var s := a + [c] + b;
    var i := FirstIndex(s, c);
    assert s[|a|] == c;
  }

  /** The text before the first `c`, the whole of `s` when there is none:
      JavaScript's `s.split(c)[0]`. */
  function Before(s: string, c: char): (r: string)
    ensures r <= s
    ensures c !in r
    ensures r == s || s[|r|] == c
  {
    s[..FirstIndex(s, c)]
  }

  predicate IsDigit(ch: char) { '0' <= ch <= '9' }

  predicate IsDigits(s: string) { forall i :: 0 <= i < |s| ==> IsDigit(s[i]) }

  function DigitChar(d: nat): (ch: char)
    requires d < 10
    ensures IsDigit(ch)
  {
    ('0' as int + d) as char
  }

  /** Decimal rendering of `n` without leading zeros, as `${n}` prints an integer. */
  function NatToString(n: nat): (s: string)
    ensures |s| >= 1 && IsDigits(s)
    ensures |s| > 1 ==> s[0] != '0'
    decreases n
  {
    if n < 10 then [DigitChar(n)] else NatToString(n / 10) + [DigitChar(n % 10)]
  }

  /** The value of a string of decimal digits. */
  function DigitsValue(s: string): nat
    requires IsDigits(s)
    decreases |s|
  {
    if s == [] then 0 else DigitsValue(s[..|s| - 1]) * 10 + (s[|s| - 1] as int - '0' as int)
  }

  /** Canonical decimal text: non-empty digits with no leading zero (except "0"). */
  predicate IsCanonicalDecimal(s: string)
  {
    |s| >= 1 && IsDigits(s) && (|s| > 1 ==> s[0] != '0')
  }

  /** Reads back what NatToString writes, and nothing else. */
  function ParseNat(s: string): Option<nat>
  {
    if IsCanonicalDecimal(s) then Some(DigitsValue(s)) else None
  }

  lemma {:induction false} DigitsValueOfNatToString(n: nat)
    ensures DigitsValue(NatToString(n)) == n
    decreases n
  {
    if n >= 10 {
      var p := NatToString(n / 10);
      DigitsValueOfNatToString(n / 10);
      assert (p + [DigitChar(n % 10)])[..|p|] == p;
    }
  }

  /** Round trip one way: parsing a rendered number gives it back. */
  lemma ParseNatToString(n: nat)
    ensures ParseNat(NatToString(n)) == Some(n)
  {
    DigitsValueOfNatToString(n);
  }

  lemma {:induction false} LeadingNonZeroValue(s: string)
    requires IsDigits(s) && |s| >= 1 && s[0] != '0'
    ensures DigitsValue(s) >= 1
    decreases |s|
  {
    if |s| > 1 {
      LeadingNonZeroValue(s[..|s| - 1]);
    }
  }

  /** Round trip the other way: a string ParseNat accepts is exactly the
      rendering of the number it yields. */
  lemma {:induction false} NatToStringOfParse(s: string)
    requires ParseNat(s).Some?
    ensures NatToString(ParseNat(s).value) == s
    decreases |s|
  {
    var n := DigitsValue(s);
    var d := s[|s| - 1] as int - '0' as int;
    if |s| > 1 {
      var p := s[..|s| - 1];
      assert p[0] == s[0];
      LeadingNonZeroValue(p);
      assert n / 10 == DigitsValue(p) && n % 10 == d;
      NatToStringOfParse(p);
      assert s == p + [s[|s| - 1]];
    } else {
      assert s[..|s| - 1] == [] && DigitsValue([]) == 0;
      assert n == DigitsValue(s[..|s| - 1]) * 10 + d;
      assert DigitChar(d) == s[0];
      assert s == [s[0]];
    }
  }

  /** Concatenation regroups freely. */
  lemma AppendAssoc<T>(a: seq<T>, b: seq<T>, c: seq<T>)
    ensures (a + b) + c == a + (b + c)
  {
  }

  /** No element occurs twice. */
  predicate Distinct<T(==)>(s: seq<T>)
  {
    forall i, j :: 0 <= i < j < |s| ==> s[i] != s[j]
  }

  /** Position of the first occurrence of `x` in `s`: `s.indexOf(x)` with -1 as None. */
  function IndexOf<T(==)>(s: seq<T>, x: T): (r: Option<nat>)
    ensures r.Some? ==> r.value < |s| && s[r.value] == x
    ensures r.None? ==> x !in s
  {
    if s == [] then None
    else if s[0] == x then Some(0)
    else match IndexOf(s[1..], x)
      case None => None
      case Some(k) => Some(k + 1)
  }

  /** In a sequence without repetitions, the position of an element is its index. */
  lemma {:induction false} IndexOfDistinct<T>(s: seq<T>, i: nat)
    requires Distinct(s) && i < |s|
    ensures IndexOf(s, s[i]) == Some(i)
  {
    if i > 0 {
      IndexOfDistinct(s[1..], i - 1);
    }
  }

  /** `parts.join(sep)`. */
  function Join(parts: seq<string>, sep: string): string
  {
    if |parts| == 0 then ""
    else if |parts| == 1 then parts[0]
    else parts[0] + sep + Join(parts[1..], sep)
  }
}
