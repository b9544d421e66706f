/** The anchored regular expressions the receipt pipeline tests date strings
    against, built from digit groups, literal characters and runs of white
    space. */
module Patterns {
  import opened Js

  /** One element of an anchored pattern. */
  datatype Tok =
    | Digits(lo: nat, hi: nat)   // a capture group (\d{lo,hi})
    | Lit(c: char)               // a literal character
    | Spaces                     // \s+

  /** The length of the run of white space at the start of `s`. */
  function SpacePrefix(s: string): (r: nat)
    ensures r <= |s|
    ensures forall i :: 0 <= i < r ==> IsSpace(s[i])
    ensures r == |s| || !IsSpace(s[r])
  {
    if s != [] && IsSpace(s[0]) then 1 + SpacePrefix(s[1..]) else 0
  }

  function Min(a: nat, b: nat): nat { if a <= b then a else b }

  /** The bounds of the capture groups of `toks`, in order. */
  function Groups(toks: seq<Tok>): seq<(nat, nat)> {
    if toks == [] then []
    else if toks[0].Digits? then [(toks[0].lo, toks[0].hi)] + Groups(toks[1..])
    else Groups(toks[1..])
  }

  /** Whether all of `s` matches `toks`, with the captured digit strings.
      Every variable-length element of the patterns used here is followed by a
      character it cannot match, or by the end, so taking each element as far
      as it goes, without backtracking, gives what the regular expression
      gives. */
  function Match(s: string, toks: seq<Tok>): Option<seq<string>>
    decreases |toks|
  {
    if toks == [] then (if s == [] then Some([]) else None)
    else match toks[0]
      case Digits(lo, hi) =>
        var k := Min(hi, |DigitPrefix(s)|);
        if k < lo then None
        else
          (match Match(s[k..], toks[1..])
           case None => None
           case Some(g) => Some([s[..k]] + g))
      case Lit(c) =>
        if s != [] && s[0] == c then Match(s[1..], toks[1..]) else None
      case Spaces =>
        var k := SpacePrefix(s);
        if k == 0 then None else Match(s[k..], toks[1..])
  }

  lemma GroupsCons(t: Tok, rest: seq<Tok>)
    ensures Groups([t] + rest) == (if t.Digits? then [(t.lo, t.hi)] else []) + Groups(rest)
  {
    assert ([t] + rest)[1..] == rest;
  }

  /** Each capture is a run of digits within its group's bounds. */
  lemma {:induction false} MatchCaptures(s: string, toks: seq<Tok>)
    requires Match(s, toks).Some?
    ensures |Match(s, toks).value| == |Groups(toks)|
    ensures forall i :: 0 <= i < |Groups(toks)| ==>
      AllDigits(Match(s, toks).value[i]) &&
      Groups(toks)[i].0 <= |Match(s, toks).value[i]| <= Groups(toks)[i].1
    decreases |toks|
  {
    if toks != [] {
      assert toks == [toks[0]] + toks[1..];
      GroupsCons(toks[0], toks[1..]);
      match toks[0]
      case Digits(lo, hi) =>
        var k := Min(hi, |DigitPrefix(s)|);
        MatchCaptures(s[k..], toks[1..]);
        assert s[..k] == DigitPrefix(s)[..k];
      case Lit(c) =>
        MatchCaptures(s[1..], toks[1..]);
      case Spaces =>
        MatchCaptures(s[SpacePrefix(s)..], toks[1..]);
    }
  }

  lemma {:induction false} DigitPrefixLong(a: string, rest: string)
    requires AllDigits(a)
    ensures |DigitPrefix(a + rest)| >= |a|
  {
    if a != [] {
      assert (a + rest)[1..] == a[1..] + rest;
      DigitPrefixLong(a[1..], rest);
    }
  }

  /** A digit group takes exactly the digits written for it. */
  lemma MatchDigits(a: string, rest: string, lo: nat, hi: nat, toks: seq<Tok>)
    requires AllDigits(a) && lo <= |a| <= hi
    requires |a| == hi || rest == [] || !IsDigit(rest[0])
    ensures Match(a + rest, [Digits(lo, hi)] + toks) ==
      (match Match(rest, toks) case None => None case Some(g) => Some([a] + g))
  {
    var s := a + rest;
    DigitPrefixLong(a, rest);
    if |a| < hi {
      DigitPrefixOf(a, rest);
    }
    assert Min(hi, |DigitPrefix(s)|) == |a|;
    assert s[..|a|] == a && s[|a|..] == rest;
    assert ([Digits(lo, hi)] + toks)[1..] == toks;
  }

  lemma MatchLit(c: char, rest: string, toks: seq<Tok>)
    ensures Match([c] + rest, [Lit(c)] + toks) == Match(rest, toks)
  {
    assert ([c] + rest)[1..] == rest;
    assert ([Lit(c)] + toks)[1..] == toks;
  }

  lemma MatchSpace(rest: string, toks: seq<Tok>)
    requires rest == [] || !IsSpace(rest[0])
    ensures Match([' '] + rest, [Spaces] + toks) == Match(rest, toks)
  {
    var s := [' '] + rest;
    assert s[1..] == rest;
    assert SpacePrefix(s) == 1;
    assert ([Spaces] + toks)[1..] == toks;
  }

  /** A pattern that starts with more digits than `s` has fails. */
  lemma MatchTooFewDigits(s: string, lo: nat, hi: nat, toks: seq<Tok>)
    requires |DigitPrefix(s)| < lo
    ensures Match(s, [Digits(lo, hi)] + toks).None?
  {
  }

  /** A pattern whose literal is not the next character fails. */
  lemma MatchWrongLit(a: string, rest: string, lo: nat, hi: nat, c: char, toks: seq<Tok>)
    requires AllDigits(a) && lo <= |a| == hi && rest != [] && rest[0] != c
    ensures Match(a + rest, [Digits(lo, hi), Lit(c)] + toks).None?
  {
    var s := a + rest;
    DigitPrefixLong(a, rest);
    assert Min(hi, |DigitPrefix(s)|) == |a|;
    assert s[|a|..] == rest;
    assert ([Digits(lo, hi), Lit(c)] + toks)[1..] == [Lit(c)] + toks;
    assert ([Lit(c)] + toks)[0] == Lit(c);
  }
}
