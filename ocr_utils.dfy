/** Helpers of the OCR service (src/services/ocr/utils.ts): the date-time
    normaliser applied to every extracted start and end time, the retry loop
    around the vision call, and the upload check. */
module OcrUtils {
  import opened Js
  import opened Patterns
  import DateTime

  /** `yyyy-m-d h:m`, `dd/mm/yyyy h:m`, `dd-mm-yyyy h:m`: three groups around a
      separator, white space, and the time. */
  function Separated(sep: char, b0: (nat, nat), b1: (nat, nat), b2: (nat, nat)): seq<Tok> {
    [Digits(b0.0, b0.1), Lit(sep), Digits(b1.0, b1.1), Lit(sep), Digits(b2.0, b2.1),
     Spaces, Digits(1, 2), Lit(':'), Digits(1, 2)]
  }

  /** `/^(\d{4})-(\d{1,2})-(\d{1,2})\s+(\d{1,2}):(\d{1,2})$/` */
  const YEAR_FIRST: seq<Tok> := Separated('-', (4, 4), (1, 2), (1, 2))
  /** `/^(\d{2})\/(\d{2})\/(\d{4})\s+(\d{1,2}):(\d{1,2})$/` */
  const DAY_FIRST_SLASH: seq<Tok> := Separated('/', (2, 2), (2, 2), (4, 4))
  /** `/^(\d{2})-(\d{2})-(\d{4})\s+(\d{1,2}):(\d{1,2})$/` */
  const DAY_FIRST_DASH: seq<Tok> := Separated('-', (2, 2), (2, 2), (4, 4))
  /** `/^(\d{4})(\d{2})(\d{2})\s+(\d{2})(\d{2})$/` */
  const COMPACT: seq<Tok> := [Digits(4, 4), Digits(2, 2), Digits(2, 2), Spaces, Digits(2, 2), Digits(2, 2)]

  /** How many formats `normalizeDateTime` tries. */
  const FORMAT_COUNT: nat := 4

  /** The formats in the order they are tried. */
  function FormatAt(i: nat): seq<Tok>
    requires i < FORMAT_COUNT
  {
    if i == 0 then YEAR_FIRST
    else if i == 1 then DAY_FIRST_SLASH
    else if i == 2 then DAY_FIRST_DASH
    else COMPACT
  }

  lemma SeparatedGroups(sep: char, b0: (nat, nat), b1: (nat, nat), b2: (nat, nat))
    ensures Groups(Separated(sep, b0, b1, b2)) == [b0, b1, b2, (1, 2), (1, 2)]
  {
    var t8 := [Digits(1, 2)];
    var t7 := [Lit(':')] + t8;
    var t6 := [Digits(1, 2)] + t7;
    var t5 := [Spaces] + t6;
    var t4 := [Digits(b2.0, b2.1)] + t5;
    var t3 := [Lit(sep)] + t4;
    var t2 := [Digits(b1.0, b1.1)] + t3;
    var t1 := [Lit(sep)] + t2;
    var t0 := [Digits(b0.0, b0.1)] + t1;
    assert t0 == Separated(sep, b0, b1, b2);
    assert t8 == [Digits(1, 2)] + [];
    GroupsCons(Digits(1, 2), []);
    GroupsCons(Lit(':'), t8);
    GroupsCons(Digits(1, 2), t7);
    GroupsCons(Spaces, t6);
    GroupsCons(Digits(b2.0, b2.1), t5);
    GroupsCons(Lit(sep), t4);
    GroupsCons(Digits(b1.0, b1.1), t3);
    GroupsCons(Lit(sep), t2);
    GroupsCons(Digits(b0.0, b0.1), t1);
  }

  lemma CompactGroups()
    ensures Groups(COMPACT) == [(4, 4), (2, 2), (2, 2), (2, 2), (2, 2)]
  {
    var t5 := [Digits(2, 2)];
    var t4 := [Digits(2, 2)] + t5;
    var t3 := [Spaces] + t4;
    var t2 := [Digits(2, 2)] + t3;
    var t1 := [Digits(2, 2)] + t2;
    var t0 := [Digits(4, 4)] + t1;
    assert t0 == COMPACT;
    assert t5 == [Digits(2, 2)] + [];
    GroupsCons(Digits(2, 2), []);
    GroupsCons(Digits(2, 2), t5);
    GroupsCons(Spaces, t4);
    GroupsCons(Digits(2, 2), t3);
    GroupsCons(Digits(2, 2), t2);
    GroupsCons(Digits(4, 4), t1);
  }

  /** Every format captures year, month, day, hour and minute, in its own order
      and with its own widths. */
  lemma FormatGroups(i: nat)
    requires i < FORMAT_COUNT
    ensures i == 0 ==> Groups(FormatAt(i)) == [(4, 4), (1, 2), (1, 2), (1, 2), (1, 2)]
    ensures i == 1 || i == 2 ==> Groups(FormatAt(i)) == [(2, 2), (2, 2), (4, 4), (1, 2), (1, 2)]
    ensures i == 3 ==> Groups(FormatAt(i)) == [(4, 4), (2, 2), (2, 2), (2, 2), (2, 2)]
    ensures |Groups(FormatAt(i))| == 5
  {
    if i == 0 {
      SeparatedGroups('-', (4, 4), (1, 2), (1, 2));
    } else if i == 1 {
      SeparatedGroups('/', (2, 2), (2, 2), (4, 4));
    } else if i == 2 {
      SeparatedGroups('-', (2, 2), (2, 2), (4, 4));
    } else {
      CompactGroups();
    }
  }

  /** The five captures put back as `${year}-${month}-${day} ${hour}:${minute}`,
      each but the first padded to two places. */
  function Assemble(g: seq<string>): string
    requires |g| == 5
  {
    DateTime.Fmt(g[0], g[1], g[2], g[3], g[4])
  }

  /** The assembled captures of the first format from the `i`-th on that
      matches, or ''. */
  function FirstFormatFrom(s: string, i: nat): string
    requires i <= FORMAT_COUNT
    decreases FORMAT_COUNT - i
  {
    if i == FORMAT_COUNT then ""
    else match Match(s, FormatAt(i))
      case Some(g) => MatchCaptures(s, FormatAt(i)); FormatGroups(i); Assemble(g)
      case None => FirstFormatFrom(s, i + 1)
  }

  /** What `normalizeDateTime` returns: '' for a falsy argument, '' for one that
      is not a string (its `trim` throws a TypeError, which is caught), the
      trimmed string when it is canonical, otherwise the first format that
      matches, reassembled, or ''. */
  function NormalizedDateTime(v: Value): (r: string)
    ensures !Truthy(v) || !v.Str? ==> r == ""
    ensures v.Str? && DateTime.IsCanonical(Trim(v.s)) ==> r == Trim(v.s)
  {
    if !Truthy(v) || !v.Str? then ""
    else
      var s := Trim(v.s);
      if DateTime.IsCanonical(s) then s
      else FirstFormatFrom(s, 0)
  }

  /** `normalizeDateTime`, which trims its argument and then tries each format
      in turn. */
  method NormalizeDateTime(v: Value) returns (r: string)
    ensures r == NormalizedDateTime(v)
  {
    if !Truthy(v) {
      return "";
    }
    if !v.Str? {
      return "";
    }
    var dateStr := Trim(v.s);
    if DateTime.IsCanonical(dateStr) {
      return dateStr;
    }
    for i := 0 to FORMAT_COUNT
      invariant FirstFormatFrom(dateStr, i) == FirstFormatFrom(dateStr, 0)
    {
      var m := Match(dateStr, FormatAt(i));
      if m.Some? {
        MatchCaptures(dateStr, FormatAt(i));
        FormatGroups(i);
        return Assemble(m.value);
      }
    }
    return "";
  }

  /** `dd-mm-yyyy HH:mm`, what the two day-first formats produce. */
  predicate IsDayFirst(s: string) {
    && |s| == 16
    && s[2] == '-' && s[5] == '-' && s[10] == ' ' && s[13] == ':'
    && forall i | 0 <= i < 16 && i != 2 && i != 5 && i != 10 && i != 13 :: IsDigit(s[i])
  }

  lemma Pad2Digits(x: string)
    requires AllDigits(x) && 1 <= |x| <= 2
    ensures |Pad2(x)| == 2 && AllDigits(Pad2(x))
  {
  }

  lemma CanonicalOf(y: string, m: string, d: string, h: string, mi: string)
    requires AllDigits(y) && AllDigits(m) && AllDigits(d) && AllDigits(h) && AllDigits(mi)
    requires |y| == 4 && |m| == 2 && |d| == 2 && |h| == 2 && |mi| == 2
    ensures DateTime.IsCanonical(y + "-" + m + "-" + d + " " + h + ":" + mi)
  {
  }

  lemma DayFirstOf(d: string, m: string, y: string, h: string, mi: string)
    requires AllDigits(y) && AllDigits(m) && AllDigits(d) && AllDigits(h) && AllDigits(mi)
    requires |d| == 2 && |m| == 2 && |y| == 4 && |h| == 2 && |mi| == 2
    ensures IsDayFirst(d + "-" + m + "-" + y + " " + h + ":" + mi)
  {
  }

  /** Five digit captures whose widths fit the bounds of a format. */
  predicate Fits(g: seq<string>, bounds: seq<(nat, nat)>) {
    |g| == |bounds| &&
    forall k :: 0 <= k < |g| ==> AllDigits(g[k]) && bounds[k].0 <= |g[k]| <= bounds[k].1
  }

  lemma CapturesFit(s: string, toks: seq<Tok>)
    requires Match(s, toks).Some?
    ensures Fits(Match(s, toks).value, Groups(toks))
  {
    MatchCaptures(s, toks);
  }

  /** Captures of a year-first or compact format assemble to a canonical string. */
  lemma YearFirstCaptures(g: seq<string>, bounds: seq<(nat, nat)>)
    requires |bounds| == 5 && Fits(g, bounds)
    requires bounds[0] == (4, 4)
    requires forall k :: 1 <= k < 5 ==> 1 <= bounds[k].0 && bounds[k].1 <= 2
    ensures DateTime.IsCanonical(Assemble(g))
  {
    assert AllDigits(g[1]) && 1 <= |g[1]| <= 2;
    assert AllDigits(g[2]) && 1 <= |g[2]| <= 2;
    assert AllDigits(g[3]) && 1 <= |g[3]| <= 2;
    assert AllDigits(g[4]) && 1 <= |g[4]| <= 2;
    Pad2Digits(g[1]);
    Pad2Digits(g[2]);
    Pad2Digits(g[3]);
    Pad2Digits(g[4]);
    CanonicalOf(g[0], Pad2(g[1]), Pad2(g[2]), Pad2(g[3]), Pad2(g[4]));
  }

  /** Captures of a day-first format assemble to `dd-mm-yyyy HH:mm`. */
  lemma DayFirstCaptures(g: seq<string>, bounds: seq<(nat, nat)>)
    requires |bounds| == 5 && Fits(g, bounds)
    requires bounds[0] == (2, 2) && bounds[1] == (2, 2) && bounds[2] == (4, 4)
    requires bounds[3] == (1, 2) && bounds[4] == (1, 2)
    ensures IsDayFirst(Assemble(g))
  {
    assert AllDigits(g[1]) && |g[1]| == 2;
    assert AllDigits(g[2]) && |g[2]| == 4;
    assert AllDigits(g[3]) && 1 <= |g[3]| <= 2;
    assert AllDigits(g[4]) && 1 <= |g[4]| <= 2;
    Pad2Digits(g[3]);
    Pad2Digits(g[4]);
    DayFirstOf(g[0], Pad2(g[1]), Pad2(g[2]), Pad2(g[3]), Pad2(g[4]));
  }

  /** What a format's captures assemble to: a canonical string for the
      year-first and compact formats, `dd-mm-yyyy HH:mm` for the day-first ones. */
  lemma AssembledShape(s: string, i: nat)
    requires i < FORMAT_COUNT && Match(s, FormatAt(i)).Some?
    ensures |Match(s, FormatAt(i)).value| == 5
    ensures i == 0 || i == 3 ==> DateTime.IsCanonical(Assemble(Match(s, FormatAt(i)).value))
    ensures i == 1 || i == 2 ==> IsDayFirst(Assemble(Match(s, FormatAt(i)).value))
  {
    var toks := FormatAt(i);
    FormatGroups(i);
    AssembledFrom(s, toks);
  }

  /** The shape of the assembled captures follows from the format's groups. */
  lemma AssembledFrom(s: string, toks: seq<Tok>)
    requires Match(s, toks).Some? && |Groups(toks)| == 5
    ensures |Match(s, toks).value| == 5
    ensures Groups(toks) == [(4, 4), (1, 2), (1, 2), (1, 2), (1, 2)] ||
            Groups(toks) == [(4, 4), (2, 2), (2, 2), (2, 2), (2, 2)] ==>
      DateTime.IsCanonical(Assemble(Match(s, toks).value))
    ensures Groups(toks) == [(2, 2), (2, 2), (4, 4), (1, 2), (1, 2)] ==>
      IsDayFirst(Assemble(Match(s, toks).value))
  {
    var g := Match(s, toks).value;
    var bounds := Groups(toks);
    CapturesFit(s, toks);
    if bounds == [(4, 4), (1, 2), (1, 2), (1, 2), (1, 2)] || bounds == [(4, 4), (2, 2), (2, 2), (2, 2), (2, 2)] {
      YearFirstCaptures(g, bounds);
    }
    if bounds == [(2, 2), (2, 2), (4, 4), (1, 2), (1, 2)] {
      DayFirstCaptures(g, bounds);
    }
  }

  /** The format, from the `k`-th on, whose captures make a non-empty result. */
  lemma {:induction false} WhichFormat(s: string, k: nat) returns (i: nat)
    requires k < FORMAT_COUNT && FirstFormatFrom(s, k) != ""
    ensures k <= i < FORMAT_COUNT && Match(s, FormatAt(i)).Some?
    ensures |Match(s, FormatAt(i)).value| == 5
    ensures FirstFormatFrom(s, k) == Assemble(Match(s, FormatAt(i)).value)
    decreases FORMAT_COUNT - k
  {
    if Match(s, FormatAt(k)).Some? {
      MatchCaptures(s, FormatAt(k));
      FormatGroups(k);
      i := k;
    } else {
      i := WhichFormat(s, k + 1);
    }
  }

  /** The result is '', a canonical string, or `dd-mm-yyyy HH:mm` (from the two
      day-first formats, which are reassembled in their own field order). */
  lemma NormalizedShape(v: Value)
    ensures var r := NormalizedDateTime(v);
      r == "" || DateTime.IsCanonical(r) || IsDayFirst(r)
  {
    if Truthy(v) && v.Str? {
      var s := Trim(v.s);
      if !DateTime.IsCanonical(s) && NormalizedDateTime(v) != "" {
        var i := WhichFormat(s, 0);
        AssembledShape(s, i);
      }
    }
  }

  /** `d` `sep` `m` `sep` `y` ` ` `h` `:` `mi`, grouped from the right as the
      patterns are read. */
  function Written(x0: string, sep: char, x1: string, x2: string, x3: string, x4: string): string {
    x0 + ([sep] + (x1 + ([sep] + (x2 + ([' '] + (x3 + ([':'] + x4)))))))
  }

  /** `\s+(\d{1,2}):(\d{1,2})$`, the time part every separated format ends with. */
  lemma MatchTime(x3: string, x4: string)
    requires AllDigits(x3) && AllDigits(x4) && 1 <= |x3| <= 2 && 1 <= |x4| <= 2
    ensures Match([' '] + (x3 + ([':'] + x4)), [Spaces] + ([Digits(1, 2)] + ([Lit(':')] + [Digits(1, 2)]))) ==
      Some([x3, x4])
  {
    var t3 := [Digits(1, 2)];
    var t2 := [Lit(':')] + t3;
    var t1 := [Digits(1, 2)] + t2;
    MatchLastDigits(x4, 1, 2);
    MatchLit(':', x4, t3);
    MatchDigits(x3, [':'] + x4, 1, 2, t2);
    assert [x3] + [x4] == [x3, x4];
    MatchSpace(x3 + ([':'] + x4), t1);
  }

  /** A digit group at the end takes all that is left. */
  lemma MatchLastDigits(a: string, lo: nat, hi: nat)
    requires AllDigits(a) && lo <= |a| <= hi
    ensures Match(a, [Digits(lo, hi)]) == Some([a])
  {
    assert a + [] == a && [Digits(lo, hi)] == [Digits(lo, hi)] + [];
    MatchDigits(a, [], lo, hi, []);
    assert Match([], []) == Some([]);
    assert [a] + [] == [a];
  }

  /** A separator followed by a digit group. */
  lemma MatchSepDigits(sep: char, x: string, lo: nat, hi: nat, rest: string, toks: seq<Tok>)
    requires AllDigits(x) && lo <= |x| <= hi
    requires rest != [] && !IsDigit(rest[0])
    ensures Match([sep] + (x + rest), [Lit(sep), Digits(lo, hi)] + toks) ==
      (match Match(rest, toks) case None => None case Some(g) => Some([x] + g))
  {
    assert [Lit(sep), Digits(lo, hi)] + toks == [Lit(sep)] + ([Digits(lo, hi)] + toks);
    MatchLit(sep, x + rest, [Digits(lo, hi)] + toks);
    MatchDigits(x, rest, lo, hi, toks);
  }

  /** The second and third groups of a separated format, each after its
      separator. */
  lemma MatchTwoGroups(sep: char, b1: (nat, nat), b2: (nat, nat), x1: string, x2: string,
                       rest: string, toks: seq<Tok>, g: seq<string>)
    requires !IsDigit(sep) && AllDigits(x1) && AllDigits(x2)
    requires b1.0 <= |x1| <= b1.1 && b2.0 <= |x2| <= b2.1
    requires rest != [] && !IsDigit(rest[0])
    requires Match(rest, toks) == Some(g)
    ensures Match([sep] + (x1 + ([sep] + (x2 + rest))),
                  [Lit(sep), Digits(b1.0, b1.1)] + ([Lit(sep), Digits(b2.0, b2.1)] + toks)) ==
      Some([x1, x2] + g)
  {
    MatchSepDigits(sep, x2, b2.0, b2.1, rest, toks);
    MatchSepDigits(sep, x1, b1.0, b1.1, [sep] + (x2 + rest), [Lit(sep), Digits(b2.0, b2.1)] + toks);
    assert [x1] + ([x2] + g) == [x1, x2] + g;
  }

  /** The three separated formats match a string written in their own shape,
      capturing the pieces as written. */
  lemma MatchSeparated(sep: char, b0: (nat, nat), b1: (nat, nat), b2: (nat, nat),
                       x0: string, x1: string, x2: string, x3: string, x4: string)
    requires !IsDigit(sep)
    requires AllDigits(x0) && AllDigits(x1) && AllDigits(x2) && AllDigits(x3) && AllDigits(x4)
    requires b0.0 <= |x0| <= b0.1 && b1.0 <= |x1| <= b1.1 && b2.0 <= |x2| <= b2.1
    requires 1 <= |x3| <= 2 && 1 <= |x4| <= 2
    ensures Match(Written(x0, sep, x1, x2, x3, x4), Separated(sep, b0, b1, b2)) ==
      Some([x0, x1, x2, x3, x4])
  {
    var timeToks := [Spaces] + ([Digits(1, 2)] + ([Lit(':')] + [Digits(1, 2)]));
    var time := [' '] + (x3 + ([':'] + x4));
    var t1 := [Lit(sep), Digits(b1.0, b1.1)] + ([Lit(sep), Digits(b2.0, b2.1)] + timeToks);
    assert Separated(sep, b0, b1, b2) == [Digits(b0.0, b0.1)] + t1;
    var s1 := [sep] + (x1 + ([sep] + (x2 + time)));
    MatchTime(x3, x4);
    MatchTwoGroups(sep, b1, b2, x1, x2, time, timeToks, [x3, x4]);
    MatchDigits(x0, s1, b0.0, b0.1, t1);
    FiveGroups(x0, x1, x2, x3, x4);
  }

  lemma FiveGroups(x0: string, x1: string, x2: string, x3: string, x4: string)
    ensures [x0] + ([x1, x2] + [x3, x4]) == [x0, x1, x2, x3, x4]
  {
  }

  /** The year-first format needs four leading digits, the slash format a '/'
      after the first two. */
  lemma DayFirstSkipsEarlier(d: string, rest: string)
    requires AllDigits(d) && |d| == 2 && rest != [] && rest[0] == '-'
    ensures Match(d + rest, FormatAt(0)).None?
    ensures Match(d + rest, FormatAt(1)).None?
  {
    DigitPrefixOf(d, rest);
    assert YEAR_FIRST == [Digits(4, 4)] + YEAR_FIRST[1..];
    MatchTooFewDigits(d + rest, 4, 4, YEAR_FIRST[1..]);
    assert DAY_FIRST_SLASH == [Digits(2, 2), Lit('/')] + DAY_FIRST_SLASH[2..];
    MatchWrongLit(d, rest, 2, 2, '/', DAY_FIRST_SLASH[2..]);
  }

  /** A day-first string is trimmed, not canonical, and fails the first two
      formats. */
  lemma DayFirstSkips(r: string)
    requires IsDayFirst(r)
    ensures NormalizedDateTime(Str(r)) == FirstFormatFrom(r, 2)
  {
    assert IsTrimmed(r);
    assert !DateTime.IsCanonical(r);
    var d := r[..2];
    assert AllDigits(d);
    assert r == d + r[2..];
    DayFirstSkipsEarlier(d, r[2..]);
    SkipFirstTwo(r);
  }

  lemma SkipFirstTwo(s: string)
    requires Match(s, FormatAt(0)).None? && Match(s, FormatAt(1)).None?
    ensures FirstFormatFrom(s, 0) == FirstFormatFrom(s, 2)
  {
  }

  /** The day-first dash format gives a day-first string back unchanged. */
  lemma DayFirstDash(r: string)
    requires IsDayFirst(r)
    ensures FirstFormatFrom(r, 2) == r
  {
    var d, m, y, h, mi := r[..2], r[3..5], r[6..10], r[11..13], r[14..16];
    assert r == Written(d, '-', m, y, h, mi);
    assert AllDigits(d) && AllDigits(m) && AllDigits(y) && AllDigits(h) && AllDigits(mi);
    MatchSeparated('-', (2, 2), (2, 2), (4, 4), d, m, y, h, mi);
    assert Match(r, FormatAt(2)) == Some([d, m, y, h, mi]);
    assert r == d + "-" + m + "-" + y + " " + h + ":" + mi;
    assert Assemble([d, m, y, h, mi]) == r;
  }

  /** A day-first result passes through the day-first dash format unchanged. */
  lemma DayFirstFixed(r: string)
    requires IsDayFirst(r)
    ensures NormalizedDateTime(Str(r)) == r
  {
    DayFirstSkips(r);
    DayFirstDash(r);
  }

  /** A canonical result is kept as it is. */
  lemma CanonicalFixed(r: string)
    requires DateTime.IsCanonical(r)
    ensures NormalizedDateTime(Str(r)) == r
  {
    assert IsTrimmed(r);
  }

  /** Normalising a normalised date-time changes nothing. */
  lemma NormalizeDateTimeIdempotent(v: Value)
    ensures NormalizedDateTime(Str(NormalizedDateTime(v))) == NormalizedDateTime(v)
  {
    var r := NormalizedDateTime(v);
    NormalizedShape(v);
    if DateTime.IsCanonical(r) {
      CanonicalFixed(r);
    } else if IsDayFirst(r) {
      DayFirstFixed(r);
    }
  }

  lemma WrittenFlat(x0: string, sep: char, x1: string, x2: string, x3: string, x4: string)
    ensures Written(x0, sep, x1, x2, x3, x4) == x0 + [sep] + x1 + [sep] + x2 + " " + x3 + ":" + x4
  {
  }

  /** A year-first date written loosely (`2024-1-5 8:03`) comes back canonical,
      each piece padded to two places. */
  lemma YearFirstNormalized(y: string, m: string, d: string, h: string, mi: string)
    requires AllDigits(y) && AllDigits(m) && AllDigits(d) && AllDigits(h) && AllDigits(mi)
    requires |y| == 4 && 1 <= |m| <= 2 && 1 <= |d| <= 2 && 1 <= |h| <= 2 && 1 <= |mi| <= 2
    ensures NormalizedDateTime(Str(Written(y, '-', m, d, h, mi))) == DateTime.Fmt(y, m, d, h, mi)
    ensures DateTime.IsCanonical(DateTime.Fmt(y, m, d, h, mi))
  {
    var s := Written(y, '-', m, d, h, mi);
    YearFirstShape(y, m, d, h, mi);
    if DateTime.IsCanonical(s) {
      CanonicalWritten(y, m, d, h, mi);
      CanonicalFixed(s);
    } else {
      YearFirstMatches(y, m, d, h, mi);
    }
  }

  lemma YearFirstShape(y: string, m: string, d: string, h: string, mi: string)
    requires AllDigits(y) && AllDigits(m) && AllDigits(d) && AllDigits(h) && AllDigits(mi)
    requires |y| == 4 && 1 <= |m| <= 2 && 1 <= |d| <= 2 && 1 <= |h| <= 2 && 1 <= |mi| <= 2
    ensures DateTime.IsCanonical(DateTime.Fmt(y, m, d, h, mi))
  {
    Pad2Digits(m);
    Pad2Digits(d);
    Pad2Digits(h);
    Pad2Digits(mi);
    CanonicalOf(y, Pad2(m), Pad2(d), Pad2(h), Pad2(mi));
  }

  /** Written in the canonical shape already, the pieces are two digits each. */
  lemma CanonicalWritten(y: string, m: string, d: string, h: string, mi: string)
    requires |y| == 4 && 1 <= |m| <= 2 && 1 <= |d| <= 2 && 1 <= |h| <= 2 && 1 <= |mi| <= 2
    requires DateTime.IsCanonical(Written(y, '-', m, d, h, mi))
    ensures Written(y, '-', m, d, h, mi) == DateTime.Fmt(y, m, d, h, mi)
  {
    var s := Written(y, '-', m, d, h, mi);
    assert |s| == 8 + |m| + |d| + |h| + |mi|;
    assert |m| == 2 && |d| == 2 && |h| == 2 && |mi| == 2;
    WrittenFlat(y, '-', m, d, h, mi);
  }

  lemma YearFirstMatches(y: string, m: string, d: string, h: string, mi: string)
    requires AllDigits(y) && AllDigits(m) && AllDigits(d) && AllDigits(h) && AllDigits(mi)
    requires |y| == 4 && 1 <= |m| <= 2 && 1 <= |d| <= 2 && 1 <= |h| <= 2 && 1 <= |mi| <= 2
    requires !DateTime.IsCanonical(Written(y, '-', m, d, h, mi))
    ensures NormalizedDateTime(Str(Written(y, '-', m, d, h, mi))) == DateTime.Fmt(y, m, d, h, mi)
  {
    var s := Written(y, '-', m, d, h, mi);
    WrittenEnds(y, '-', m, d, h, mi);
    NormalizedOther(s);
    MatchSeparated('-', (4, 4), (1, 2), (1, 2), y, m, d, h, mi);
    assert Match(s, FormatAt(0)) == Some([y, m, d, h, mi]);
  }

  /** A trimmed string that is not canonical goes through the formats. */
  lemma NormalizedOther(s: string)
    requires s != [] && IsTrimmed(s) && !DateTime.IsCanonical(s)
    ensures NormalizedDateTime(Str(s)) == FirstFormatFrom(s, 0)
  {
  }

  /** Written from digit pieces, the string starts and ends with a digit. */
  lemma WrittenEnds(x0: string, sep: char, x1: string, x2: string, x3: string, x4: string)
    requires AllDigits(x0) && AllDigits(x4) && x0 != [] && x4 != []
    ensures IsTrimmed(Written(x0, sep, x1, x2, x3, x4))
  {
    var s := Written(x0, sep, x1, x2, x3, x4);
    assert s[0] == x0[0];
    assert s[|s| - 1] == x4[|x4| - 1];
  }

  /** A day-first date written with slashes (`31/12/2024 8:05`) comes back with
      dashes and in the same day-first order, `31-12-2024 08:05`, which is not
      the canonical shape. */
  lemma SlashNormalized(d: string, m: string, y: string, h: string, mi: string)
    requires AllDigits(d) && AllDigits(m) && AllDigits(y) && AllDigits(h) && AllDigits(mi)
    requires |d| == 2 && |m| == 2 && |y| == 4 && 1 <= |h| <= 2 && 1 <= |mi| <= 2
    ensures NormalizedDateTime(Str(Written(d, '/', m, y, h, mi))) == DateTime.Fmt(d, m, y, h, mi)
    ensures IsDayFirst(DateTime.Fmt(d, m, y, h, mi))
    ensures !DateTime.IsCanonical(DateTime.Fmt(d, m, y, h, mi))
  {
    SlashSkips(d, m, y, h, mi);
    SlashMatches(d, m, y, h, mi);
    Pad2Digits(h);
    Pad2Digits(mi);
    DayFirstOf(d, m, y, Pad2(h), Pad2(mi));
  }

  lemma SlashSkips(d: string, m: string, y: string, h: string, mi: string)
    requires AllDigits(d) && AllDigits(mi) && |d| == 2 && mi != []
    ensures NormalizedDateTime(Str(Written(d, '/', m, y, h, mi))) == FirstFormatFrom(Written(d, '/', m, y, h, mi), 1)
  {
    var s := Written(d, '/', m, y, h, mi);
    WrittenEnds(d, '/', m, y, h, mi);
    assert s[2] == '/';
    assert !DateTime.IsCanonical(s);
    SlashSkipsYearFirst(d, m, y, h, mi);
  }

  lemma SlashMatches(d: string, m: string, y: string, h: string, mi: string)
    requires AllDigits(d) && AllDigits(m) && AllDigits(y) && AllDigits(h) && AllDigits(mi)
    requires |d| == 2 && |m| == 2 && |y| == 4 && 1 <= |h| <= 2 && 1 <= |mi| <= 2
    ensures FirstFormatFrom(Written(d, '/', m, y, h, mi), 1) == DateTime.Fmt(d, m, y, h, mi)
  {
    MatchSeparated('/', (2, 2), (2, 2), (4, 4), d, m, y, h, mi);
    assert Match(Written(d, '/', m, y, h, mi), FormatAt(1)) == Some([d, m, y, h, mi]);
  }

  lemma SlashSkipsYearFirst(d: string, m: string, y: string, h: string, mi: string)
    requires AllDigits(d) && |d| == 2
    ensures Match(Written(d, '/', m, y, h, mi), FormatAt(0)).None?
  {
    var rest := [('/')] + (m + (['/'] + (y + ([' '] + (h + ([':'] + mi))))));
    assert Written(d, '/', m, y, h, mi) == d + rest;
    DigitPrefixOf(d, rest);
    assert YEAR_FIRST == [Digits(4, 4)] + YEAR_FIRST[1..];
    MatchTooFewDigits(d + rest, 4, 4, YEAR_FIRST[1..]);
  }

  // ---------------------------------------------------------------------------
  // Retrying

  /** How one call of the operation ends: with a value, or by throwing; an
      error that is not an `Error` (None) is replaced by `new Error('Unknown error')`. */
  datatype Outcome<T> = Success(value: T) | Failure(error: Option<string>)

  function ErrorMessage<T>(o: Outcome<T>): string
    requires o.Failure?
  {
    match o.error
    case Some(m) => m
    case None => "Unknown error"
  }

  function Pow2(i: nat): (r: nat)
    ensures r >= 1
  {
    if i == 0 then 1 else 2 * Pow2(i - 1)
  }

  /** The wait after failed call `i`: `baseDelay * Math.pow(2, i)`. */
  function Wait(baseDelay: real, i: nat): real {
    baseDelay * Pow2(i) as real
  }

  /** The waits after the first `n` failed calls. */
  function Backoff(baseDelay: real, n: nat): (r: seq<real>)
    ensures |r| == n
    ensures forall i :: 0 <= i < n ==> r[i] == Wait(baseDelay, i)
  {
    if n == 0 then [] else Backoff(baseDelay, n - 1) + [Wait(baseDelay, n - 1)]
  }

  lemma BackoffNext(baseDelay: real, n: nat)
    ensures Backoff(baseDelay, n + 1) == Backoff(baseDelay, n) + [Wait(baseDelay, n)]
  {
  }

  /** The index of the first successful call among calls `from` .. `n - 1`. */
  function FirstSuccess<T>(attempt: nat -> Outcome<T>, from: nat, n: int): (r: Option<nat>)
    ensures r.Some? ==> from <= r.value < n && attempt(r.value).Success?
    ensures r.Some? ==> forall j :: from <= j < r.value ==> attempt(j).Failure?
    ensures r.None? ==> forall j :: from <= j < n ==> attempt(j).Failure?
    decreases n - from
  {
    if from >= n then None
    else if attempt(from).Success? then Some(from)
    else FirstSuccess(attempt, from + 1, n)
  }

  /** `withRetry`: calls the operation, whose `i`-th call ends as `attempt(i)`,
      until one call succeeds or `retries` calls have failed, waiting
      `baseDelay * 2^i` after failed call `i` unless it was the last; then
      rethrows the last error (`throw undefined` when `retries` is not
      positive). */
  method WithRetry<T>(attempt: nat -> Outcome<T>, retries: int, baseDelay: real)
    returns (r: Completion<T>, delays: seq<real>, calls: nat)
    ensures match FirstSuccess(attempt, 0, retries)
      case Some(k) => r == Returns(attempt(k).value) && calls == k + 1 && delays == Backoff(baseDelay, k)
      case None =>
        && calls == (if retries > 0 then retries else 0)
        && delays == Backoff(baseDelay, if retries > 0 then retries - 1 else 0)
        && r == Throws(if retries > 0 then ErrorMessage(attempt(retries - 1)) else "undefined")
  {
    var lastError := "undefined";
    delays := [];
    calls := 0;
    var i := 0;
    while i < retries
      invariant 0 <= i && (i <= retries || i == 0)
      invariant calls == i
      invariant forall j :: 0 <= j < i ==> attempt(j).Failure?
      invariant delays == Backoff(baseDelay, if i > 0 && i == retries then i - 1 else i)
      invariant lastError == if i == 0 then "undefined" else ErrorMessage(attempt(i - 1))
      invariant FirstSuccess(attempt, 0, retries) == FirstSuccess(attempt, i, retries)
      decreases retries - i
    {
      calls := calls + 1;
      var outcome := attempt(i);
      if outcome.Success? {
        assert FirstSuccess(attempt, i, retries) == Some(i);
        r := Returns(outcome.value);
        return;
      }
      lastError := ErrorMessage(outcome);
      if i < retries - 1 {
        BackoffNext(baseDelay, i);
        delays := delays + [Wait(baseDelay, i)];
      }
      i := i + 1;
    }
    assert FirstSuccess(attempt, i, retries) == None;
    r := Throws(lastError);
  }

  /** The operation runs at most `retries` times, and each wait doubles the
      one before it. */
  lemma RetryBounds<T>(attempt: nat -> Outcome<T>, retries: int, baseDelay: real, n: nat)
    ensures FirstSuccess(attempt, 0, retries).Some? ==> FirstSuccess(attempt, 0, retries).value + 1 <= retries
    ensures forall i :: 0 <= i < n - 1 ==> Backoff(baseDelay, n)[i + 1] == 2.0 * Backoff(baseDelay, n)[i]
  {
  }

  // ---------------------------------------------------------------------------
  // Uploads

  const MAX_FILE_SIZE: int := 10 * 1024 * 1024
  const ALLOWED_TYPES: seq<string> := ["image/jpeg", "image/png", "image/webp"]
  const FILE_TOO_LARGE := "Filen är för stor. Maximal storlek är 10MB."
  const BAD_FILE_TYPE := "Ogiltigt filformat. Endast JPEG, PNG och WebP stöds."

  /** `validateFile`: the size is checked before the type. */
  function ValidateFile(size: real, fileType: string): (r: Completion<()>)
    ensures r.Returns? <==> size <= MAX_FILE_SIZE as real && fileType in ALLOWED_TYPES
    ensures size > MAX_FILE_SIZE as real ==> r == Throws(FILE_TOO_LARGE)
    ensures size <= MAX_FILE_SIZE as real && fileType !in ALLOWED_TYPES ==> r == Throws(BAD_FILE_TYPE)
  {
    if size > MAX_FILE_SIZE as real then Throws(FILE_TOO_LARGE)
    else if fileType !in ALLOWED_TYPES then Throws(BAD_FILE_TYPE)
    else Returns(())
  }
}
