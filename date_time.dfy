/** Date-time strings as the shift records store them, "YYYY-MM-DD HH:mm"
    (src/utils/dateTime.ts): the range check and the two formatters that pad a
    loosely written date and time to that shape. */
module DateTime {
  import opened Js

  /** `/^\d{4}-\d{2}-\d{2} \d{2}:\d{2}$/.test(s)` */
  predicate IsCanonical(s: string) {
    && |s| == 16
    && s[4] == '-' && s[7] == '-' && s[10] == ' ' && s[13] == ':'
    && forall i | 0 <= i < 16 && i != 4 && i != 7 && i != 10 && i != 13 :: IsDigit(s[i])
  }

  /** `validateDateRange`: both present and `start <= end` as strings. */
  function ValidateDateRange(startTime: string, endTime: string): (r: bool)
    ensures r <==> startTime != "" && endTime != "" && (startTime == endTime || LexLess(startTime, endTime))
  {
    LexLessIrreflexive(startTime);
    LexLessTotal(startTime, endTime);
    LexLessAsymmetric(startTime, endTime);
    startTime != "" && endTime != "" && !LexLess(endTime, startTime)
  }

  lemma LexLessAsymmetric(a: string, b: string)
    ensures LexLess(a, b) ==> !LexLess(b, a)
  {
    if LexLess(a, b) && LexLess(b, a) {
      LexLessTransitive(a, b, a);
      LexLessIrreflexive(a);
    }
  }

  lemma {:induction false} LexLessIrreflexive(a: string)
    ensures !LexLess(a, a)
  {
    if a != [] {
      LexLessIrreflexive(a[1..]);
    }
  }

  lemma {:induction false} LexLessTotal(a: string, b: string)
    ensures a == b || LexLess(a, b) || LexLess(b, a)
  {
    if a != [] && b != [] && a[0] == b[0] {
      LexLessTotal(a[1..], b[1..]);
      if a[1..] == b[1..] {
        assert a == [a[0]] + a[1..] && b == [b[0]] + b[1..];
      }
    }
  }

  lemma {:induction false} LexLessTransitive(a: string, b: string, c: string)
    requires LexLess(a, b) && LexLess(b, c)
    ensures LexLess(a, c)
  {
    if a != [] && a[0] == b[0] && b[0] == c[0] {
      LexLessTransitive(a[1..], b[1..], c[1..]);
    }
  }

  /** The range check is a total preorder on present date strings: every date
      is in range of itself, ranges chain, and of two dates one is in range of
      the other; an absent end point is never in range. */
  lemma ValidateDateRangeOrder(a: string, b: string, c: string)
    ensures ValidateDateRange(a, b) ==> a != "" && b != ""
    ensures a != "" ==> ValidateDateRange(a, a)
    ensures ValidateDateRange(a, b) && ValidateDateRange(b, c) ==> ValidateDateRange(a, c)
    ensures a != "" && b != "" ==> ValidateDateRange(a, b) || ValidateDateRange(b, a)
  {
    LexLessIrreflexive(a);
    LexLessTotal(a, b);
    if LexLess(a, b) && LexLess(b, a) {
      LexLessTransitive(a, b, a);
    }
    if ValidateDateRange(a, b) && ValidateDateRange(b, c) {
      LexLessTotal(b, c);
      if a != b && b != c {
        LexLessTransitive(a, b, c);
        if LexLess(c, a) {
          LexLessTransitive(a, c, a);
        }
      }
    }
  }

  /** The template `${year}-${month.padStart(2,'0')}-${day.padStart(2,'0')} ${hour.padStart(2,'0')}:${minute.padStart(2,'0')}`. */
  function Fmt(year: string, month: string, day: string, hour: string, minute: string): string {
    year + "-" + Pad2(month) + "-" + Pad2(day) + " " + Pad2(hour) + ":" + Pad2(minute)
  }

  /** The destructuring `[datePart, timePart] = s.split(' ')`,
      `[year, month, day] = datePart.split('-')`, `[hour, minute] = timePart.split(':')`
      and the template; None when a part is undefined, where the source's
      `split` or `padStart` throws a TypeError. */
  function Reassemble(s: string): Option<string> {
    var parts := Split(s, ' ');
    if |parts| < 2 then None
    else
      var dp := Split(parts[0], '-');
      var tp := Split(parts[1], ':');
      if |dp| < 3 || |tp| < 2 then None
      else Some(Fmt(dp[0], dp[1], dp[2], tp[0], tp[1]))
  }

  /** `formatDateTime`: '' stays '', a canonical string is returned as it is, a
      string that has no date and time parts is returned unchanged (the
      TypeError is caught), anything else is reassembled with padding. */
  function FormatDateTime(s: string): (r: string)
    ensures s == "" ==> r == ""
    ensures IsCanonical(s) ==> r == s
    ensures r == s || Reassemble(s) == Some(r)
  {
    if s == "" then ""
    else if IsCanonical(s) then s
    else match Reassemble(s)
      case None => s
      case Some(r) => r
  }

  /** The message thrown when a piece is missing: with no space `timePart` is
      undefined and `timePart.split` fails first; otherwise the first missing
      month, day or minute fails at `padStart`. */
  function MissingPieceError(s: string): (r: string)
    ensures |Split(s, ' ')| < 2 ==> r == ReadError(Undefined, "split")
    ensures |Split(s, ' ')| >= 2 ==> r == ReadError(Undefined, "padStart")
  {
    if |Split(s, ' ')| < 2 then ReadError(Undefined, "split") else ReadError(Undefined, "padStart")
  }

  /** `formatDateTimeForDB`: like `formatDateTime`, but '' and a string without
      date and time parts throw. */
  function FormatDateTimeForDB(s: string): (r: Completion<string>)
    ensures s == "" ==> r == Throws("Date string is required")
    ensures IsCanonical(s) ==> r == Returns(s)
    ensures r.Returns? ==> r.value == FormatDateTime(s)
    ensures s != "" && r.Throws? ==> Reassemble(s).None? && r.message == MissingPieceError(s)
  {
    if s == "" then Throws("Date string is required")
    else if IsCanonical(s) then Returns(s)
    else match Reassemble(s)
      case None => Throws(MissingPieceError(s))
      case Some(r) => Returns(r)
  }

  /** `formatDateTimeForDB` applied to an untyped value: a falsy value is
      refused as missing, and a truthy value that is not a string has no
      `split`. */
  function FormatValueForDB(v: Value): (r: Completion<string>)
    ensures !Truthy(v) ==> r == Throws("Date string is required")
    ensures v.Str? ==> r == FormatDateTimeForDB(v.s)
    ensures r.Returns? ==> v.Str? && r.value == FormatDateTime(v.s)
  {
    if v.Str? then FormatDateTimeForDB(v.s)
    else if !Truthy(v) then Throws("Date string is required")
    else Throws("dateString.split is not a function")
  }

  /** Pieces free of the separators are split back out as they were written. */
  lemma ReassembleParts(y: string, m: string, d: string, h: string, mi: string)
    requires ' ' !in y && ' ' !in m && ' ' !in d && ' ' !in h && ' ' !in mi
    requires '-' !in y && '-' !in m && '-' !in d && ':' !in h && ':' !in mi
    ensures Reassemble(y + "-" + m + "-" + d + " " + h + ":" + mi) == Some(Fmt(y, m, d, h, mi))
  {
    var date := y + "-" + m + "-" + d;
    var time := h + ":" + mi;
    assert y + "-" + m + "-" + d + " " + h + ":" + mi == date + [' '] + time;
    assert date == y + ['-'] + m + ['-'] + d;
    assert time == h + [':'] + mi;
    SplitTwo(date, time, ' ');
    SplitThree(y, m, d, '-');
    SplitTwo(h, mi, ':');
  }

  lemma SplitTwo(a: string, b: string, sep: char)
    requires sep !in a && sep !in b
    ensures Split(a + [sep] + b, sep) == [a, b]
  {
    SplitCons(a, b, sep);
    SplitNone(b, sep);
  }

  lemma SplitThree(a: string, b: string, c: string, sep: char)
    requires sep !in a && sep !in b && sep !in c
    ensures Split(a + [sep] + b + [sep] + c, sep) == [a, b, c]
  {
    assert a + [sep] + b + [sep] + c == a + [sep] + (b + [sep] + c);
    SplitCons(a, b + [sep] + c, sep);
    SplitTwo(b, c, sep);
  }

  /** A canonical string reassembles to itself. */
  lemma CanonicalReassembles(s: string)
    requires IsCanonical(s)
    ensures Reassemble(s) == Some(s)
  {
    var y, m, d, h, mi := s[..4], s[5..7], s[8..10], s[11..13], s[14..16];
    assert s == y + "-" + m + "-" + d + " " + h + ":" + mi;
    assert AllDigits(y) && AllDigits(m) && AllDigits(d) && AllDigits(h) && AllDigits(mi);
    ReassembleParts(y, m, d, h, mi);
  }

  /** A written-out date and time gets its month, day, hour and minute padded
      to two places; the year is kept as written. */
  lemma FormatDateTimePads(y: string, m: string, d: string, h: string, mi: string)
    requires ' ' !in y && ' ' !in m && ' ' !in d && ' ' !in h && ' ' !in mi
    requires '-' !in y && '-' !in m && '-' !in d && ':' !in h && ':' !in mi
    ensures FormatDateTime(y + "-" + m + "-" + d + " " + h + ":" + mi) == Fmt(y, m, d, h, mi)
    ensures FormatDateTimeForDB(y + "-" + m + "-" + d + " " + h + ":" + mi) == Returns(Fmt(y, m, d, h, mi))
  {
    var s := y + "-" + m + "-" + d + " " + h + ":" + mi;
    ReassembleParts(y, m, d, h, mi);
    if IsCanonical(s) {
      CanonicalReassembles(s);
    }
  }

  lemma Pad2Avoids(x: string, c: char)
    requires c != '0' && c !in x
    ensures c !in Pad2(x)
  {
  }

  /** A reassembled string is made of pieces that split back out unchanged. */
  lemma ReassembledPieces(s: string) returns (y: string, m: string, d: string, h: string, mi: string)
    requires Reassemble(s).Some?
    ensures ' ' !in y && ' ' !in m && ' ' !in d && ' ' !in h && ' ' !in mi
    ensures '-' !in y && '-' !in m && '-' !in d && ':' !in h && ':' !in mi
    ensures |m| >= 2 && |d| >= 2 && |h| >= 2 && |mi| >= 2
    ensures Reassemble(s) == Some(y + "-" + m + "-" + d + " " + h + ":" + mi)
  {
    var parts := Split(s, ' ');
    var dp := Split(parts[0], '-');
    var tp := Split(parts[1], ':');
    SplitAvoids(parts[0], '-', ' ');
    SplitAvoids(parts[1], ':', ' ');
    y, m, d, h, mi := dp[0], Pad2(dp[1]), Pad2(dp[2]), Pad2(tp[0]), Pad2(tp[1]);
    Pad2Avoids(dp[1], ' ');
    Pad2Avoids(dp[2], ' ');
    Pad2Avoids(tp[0], ' ');
    Pad2Avoids(tp[1], ' ');
    Pad2Avoids(dp[1], '-');
    Pad2Avoids(dp[2], '-');
    Pad2Avoids(tp[0], ':');
    Pad2Avoids(tp[1], ':');
  }

  /** Formatting an already formatted string changes nothing. */
  lemma FormatDateTimeIdempotent(s: string)
    ensures FormatDateTime(FormatDateTime(s)) == FormatDateTime(s)
  {
    var r := FormatDateTime(s);
    if r != s {
      var y, m, d, h, mi := ReassembledPieces(s);
      FormatDateTimePads(y, m, d, h, mi);
    }
  }

  lemma FormatDateTimeForDBIdempotent(s: string)
    ensures FormatDateTimeForDB(s).Returns? ==>
      FormatDateTimeForDB(FormatDateTimeForDB(s).value) == FormatDateTimeForDB(s)
  {
    if FormatDateTimeForDB(s).Returns? {
      var r := FormatDateTimeForDB(s).value;
      if r != s {
        var y, m, d, h, mi := ReassembledPieces(s);
        FormatDateTimePads(y, m, d, h, mi);
      } else if !IsCanonical(s) {
        assert Reassemble(s) == Some(s);
      }
    }
  }

  /** Without a space there is no time part: `formatDateTime` gives the input
      back, `formatDateTimeForDB` throws. */
  lemma NoTimePart(s: string)
    requires s != "" && ' ' !in s
    ensures FormatDateTime(s) == s
    ensures FormatDateTimeForDB(s) == Throws(ReadError(Undefined, "split"))
  {
    SplitNone(s, ' ');
  }

  /** With a time part but a date of only year and month, the day's
      `padStart` is what fails. */
  lemma MissingDay(y: string, m: string, time: string)
    requires ' ' !in y && ' ' !in m && ' ' !in time
    requires '-' !in y && '-' !in m
    ensures FormatDateTimeForDB(y + "-" + m + " " + time) == Throws(ReadError(Undefined, "padStart"))
  {
    var date := y + "-" + m;
    var s := date + " " + time;
    assert date == y + ['-'] + m;
    assert ' ' !in date;
    assert s == date + [' '] + time;
    SplitTwo(date, time, ' ');
    SplitTwo(y, m, '-');
    assert Reassemble(s).None?;
    if IsCanonical(s) {
      CanonicalReassembles(s);
    }
  }

  lemma FormatExample()
    ensures FormatDateTime("2024-1-5 8:03") == "2024-01-05 08:03"
    ensures FormatDateTime("") == ""
    ensures FormatDateTimeForDB("") == Throws("Date string is required")
  {
    ExampleText();
    FormatDateTimePads("2024", "1", "5", "8", "03");
    ExamplePads();
  }

  lemma ExampleText()
    ensures "2024-1-5 8:03" == "2024" + "-" + "1" + "-" + "5" + " " + "8" + ":" + "03"
    ensures ' ' !in "2024" && '-' !in "2024" && ' ' !in "1" && '-' !in "1" && ' ' !in "5" && '-' !in "5"
    ensures ' ' !in "8" && ':' !in "8" && ' ' !in "03" && ':' !in "03"
  {
  }

  lemma ExamplePads()
    ensures Fmt("2024", "1", "5", "8", "03") == "2024-01-05 08:03"
  {
    assert Pad2("1") == "01" && Pad2("5") == "05" && Pad2("8") == "08" && Pad2("03") == "03";
  }
}
