/** The hostname allocator of the tunnel server (`generateRandomHostname`):
    an adjective, an animal and a number below 1000, joined by hyphens. The
    three `Math.random()` draws are parameters, each a real in [0, 1). */
module Hostnames {
  import opened Strings

  const Adjectives: seq<string> := ["quick", "lazy", "happy", "clever", "bright", "swift", "calm", "bold"]
  const Animals: seq<string> := ["fox", "cat", "dog", "bear", "wolf", "lion", "tiger", "eagle"]
  const NumberRange: nat := 1000

  /** The three values `Math.random()` returned, in the order they are drawn. */
  datatype Draw = Draw(adjective: real, animal: real, number: real)

  predicate IsRandomValue(r: real) { 0.0 <= r < 1.0 }

  predicate ValidDraw(d: Draw)
  {
    IsRandomValue(d.adjective) && IsRandomValue(d.animal) && IsRandomValue(d.number)
  }

  /** `Math.floor(r * n)` for a random value `r`: always a valid index below `n`. */
  function RandomIndex(r: real, n: nat): (i: nat)
    requires IsRandomValue(r) && n > 0
    ensures i < n
  {
    assert r * (n as real) < n as real;
    (r * (n as real)).Floor
  }

  /** Every index below `n` is the outcome of some random value. */
  lemma RandomIndexReaches(i: nat, n: nat)
    requires i < n
    ensures IsRandomValue((i as real) / (n as real))
    ensures RandomIndex((i as real) / (n as real), n) == i
  {
    var r := (i as real) / (n as real);
    assert r * (n as real) == i as real;
  }

  /** The word positions and number that a hostname is made of. */
  datatype Choice = Choice(adjective: nat, animal: nat, number: nat)

  predicate ValidChoice(c: Choice)
  {
    c.adjective < |Adjectives| && c.animal < |Animals| && c.number < NumberRange
  }

  function Choose(d: Draw): (c: Choice)
    requires ValidDraw(d)
    ensures ValidChoice(c)
  {
    Choice(RandomIndex(d.adjective, |Adjectives|),
           RandomIndex(d.animal, |Animals|),
           RandomIndex(d.number, NumberRange))
  }

  /** The template literal `${adj}-${animal}-${number}`. */
  function Format(c: Choice): string
    requires ValidChoice(c)
  {
    Adjectives[c.adjective] + "-" + Animals[c.animal] + "-" + NatToString(c.number)
  }

  /** The text before and after the first hyphen, None when there is no hyphen. */
  function SplitAtHyphen(s: string): (r: Option<(string, string)>)
    ensures r.None? <==> '-' !in s
    ensures r.Some? ==> '-' !in r.value.0 && s == r.value.0 + "-" + r.value.1
  {
    var i := FirstIndex(s, '-');
    if i == |s| then None
    else
      assert s == s[..i] + "-" + s[i + 1..];
      Some((s[..i], s[i + 1..]))
  }

  lemma SplitAtHyphenOf(a: string, b: string)
    requires '-' !in a
    ensures SplitAtHyphen(a + "-" + b) == Some((a, b))
  {
    var s := a + "-" + b;
    FirstIndexAfterPrefix(a, '-', b);
    assert s[..|a|] == a && s[|a| + 1..] == b;
  }

  /** Splits a hostname back into its parts; None for text the allocator cannot produce. */
  function ParseHostname(s: string): Option<Choice>
  {
    match SplitAtHyphen(s)
    case None => None
    case Some((adj, rest)) =>
      match SplitAtHyphen(rest)
      case None => None
      case Some((animal, digits)) =>
        var a, b, n := IndexOf(Adjectives, adj), IndexOf(Animals, animal), ParseNat(digits);
        if a.Some? && b.Some? && n.Some? && n.value < NumberRange
        then Some(Choice(a.value, b.value, n.value))
        else None
  }

  /** `generateRandomHostname()`, given the random values it draws. */
  function GenerateRandomHostname(d: Draw): (s: string)
    requires ValidDraw(d)
    ensures ParseHostname(s) == Some(Choose(d))
    ensures IsDnsLabel(s)
    ensures '.' !in s
  {
    var c := Choose(d);
    ParseFormat(c);
    FormatIsDnsLabel(c);
    Format(c)
  }

  predicate IsLabelChar(ch: char) { 'a' <= ch <= 'z' || IsDigit(ch) || ch == '-' }

  /** A DNS label as RFC 1035 section 2.3.1 describes one (lower case here):
      letters, digits and hyphens, at most 63 characters, starting with a
      letter and not ending with a hyphen. */
  predicate IsDnsLabel(s: string)
  {
    && 1 <= |s| <= 63
    && (forall i :: 0 <= i < |s| ==> IsLabelChar(s[i]))
    && 'a' <= s[0] <= 'z'
    && s[|s| - 1] != '-'
  }

  predicate IsWord(w: string)
  {
    1 <= |w| <= 6 && forall i :: 0 <= i < |w| ==> 'a' <= w[i] <= 'z'
  }

  lemma WordLists()
    ensures Distinct(Adjectives) && Distinct(Animals)
    ensures forall i :: 0 <= i < |Adjectives| ==> IsWord(Adjectives[i])
    ensures forall i :: 0 <= i < |Animals| ==> IsWord(Animals[i])
  {
  }

  /** Parsing a formatted hostname gives back the choice it was made from. */
  lemma ParseFormat(c: Choice)
    requires ValidChoice(c)
    ensures ParseHostname(Format(c)) == Some(c)
  {
    WordLists();
    var adj, animal, num := Adjectives[c.adjective], Animals[c.animal], NatToString(c.number);
    var s := Format(c);
    assert '-' !in adj && '-' !in animal;
    assert s == adj + ['-'] + (animal + "-" + num);
    SplitAtHyphenOf(adj, animal + "-" + num);
    SplitAtHyphenOf(animal, num);
    IndexOfDistinct(Adjectives, c.adjective);
    IndexOfDistinct(Animals, c.animal);
    ParseNatToString(c.number);
  }

  /** Whatever ParseHostname accepts is the formatting of the choice it returns:
      hostnames and choices correspond one to one. */
  lemma FormatParse(s: string)
    requires ParseHostname(s).Some?
    ensures ValidChoice(ParseHostname(s).value)
    ensures Format(ParseHostname(s).value) == s
  {
    var adj, rest := SplitAtHyphen(s).value.0, SplitAtHyphen(s).value.1;
    var animal, digits := SplitAtHyphen(rest).value.0, SplitAtHyphen(rest).value.1;
    var a, b, n := IndexOf(Adjectives, adj), IndexOf(Animals, animal), ParseNat(digits);
    assert ParseHostname(s) == Some(Choice(a.value, b.value, n.value));
    NatToStringOfParse(digits);
    HyphenJoin(s, adj, rest, animal, digits);
  }

  /** Two splits at hyphens put back together. */
  lemma HyphenJoin(s: string, adj: string, rest: string, animal: string, digits: string)
    requires s == adj + "-" + rest && rest == animal + "-" + digits
    ensures s == adj + "-" + animal + "-" + digits
  {
    var head := adj + "-";
    assert head + ((animal + "-") + digits) == (head + (animal + "-")) + digits;
    assert head + (animal + "-") == head + animal + "-";
  }

  lemma FormatIsDnsLabel(c: Choice)
    requires ValidChoice(c)
    ensures IsDnsLabel(Format(c))
    ensures '.' !in Format(c)
  {
    WordLists();
    var adj, animal, num := Adjectives[c.adjective], Animals[c.animal], NatToString(c.number);
    var s := Format(c);
    assert |num| <= 3 by {
      if c.number >= 100 {
        assert |NatToString(c.number / 10 / 10)| == 1;
        assert |NatToString(c.number / 10)| == 2;
      } else if c.number >= 10 {
        assert |NatToString(c.number / 10)| == 1;
      }
    }
    forall i | 0 <= i < |s| ensures IsLabelChar(s[i]) {
      if i < |adj| {
        assert s[i] == adj[i];
      } else if i == |adj| {
      } else if i < |adj| + 1 + |animal| {
        assert s[i] == animal[i - |adj| - 1];
      } else if i == |adj| + 1 + |animal| {
      } else {
        assert s[i] == num[i - |adj| - |animal| - 2];
      }
    }
    assert s[0] == adj[0];
    assert s[|s| - 1] == num[|num| - 1];
  }

  /** Every hostname the allocator can produce is produced by some draw. */
  lemma EveryChoiceDrawable(c: Choice)
    requires ValidChoice(c)
    ensures exists d :: ValidDraw(d) && Choose(d) == c
  {
    RandomIndexReaches(c.adjective, |Adjectives|);
    RandomIndexReaches(c.animal, |Animals|);
    RandomIndexReaches(c.number, NumberRange);
    var d := Draw((c.adjective as real) / (|Adjectives| as real),
                  (c.animal as real) / (|Animals| as real),
                  (c.number as real) / (NumberRange as real));
    assert ValidDraw(d) && Choose(d) == c;
  }
}
