/** The display formatter of src/utils/formatters.ts. Its `formatDateTime`
    checks for the date and time parts itself instead of testing the
    canonical shape first; it agrees with the one in src/utils/dateTime.ts on
    every input. */
module Formatters {
  import opened Js
  import DateTime

  /** `formatDateTime` */
  function FormatDateTime(s: string): (r: string)
    ensures s == "" ==> r == ""
    ensures r == s || exists y, m, d, h, mi :: r == DateTime.Fmt(y, m, d, h, mi)
  {
    if s == "" then ""
    else
      var parts := Split(s, ' ');
      var date := parts[0];
      var time := if |parts| >= 2 then parts[1] else "";
      if date == "" || time == "" then s
      else
        var dp := Split(date, '-');
        var tp := Split(time, ':');
        if |dp| < 3 || |tp| < 2 then s
        else DateTime.Fmt(dp[0], dp[1], dp[2], tp[0], tp[1])
  }

  /** Both `formatDateTime`s give the same string for every input. */
  lemma SameAsDateTimeFormatter(s: string)
    ensures FormatDateTime(s) == DateTime.FormatDateTime(s)
  {
    if s != "" {
      var parts := Split(s, ' ');
      if DateTime.IsCanonical(s) {
        DateTime.CanonicalReassembles(s);
      }
      if |parts| >= 2 && parts[1] == "" {
        assert Split(parts[1], ':') == [""];
      }
      if parts[0] == "" {
        assert Split(parts[0], '-') == [""];
      }
    }
  }

  /** Month, day, hour and minute come out padded to two places, the year as
      written. */
  lemma FormatPads(y: string, m: string, d: string, h: string, mi: string)
    requires ' ' !in y && ' ' !in m && ' ' !in d && ' ' !in h && ' ' !in mi
    requires '-' !in y && '-' !in m && '-' !in d && ':' !in h && ':' !in mi
    ensures FormatDateTime(y + "-" + m + "-" + d + " " + h + ":" + mi) == DateTime.Fmt(y, m, d, h, mi)
  {
    SameAsDateTimeFormatter(y + "-" + m + "-" + d + " " + h + ":" + mi);
    DateTime.FormatDateTimePads(y, m, d, h, mi);
  }

  /** A string without a space has no time part and is returned unchanged. */
  lemma NoTimeUnchanged(s: string)
    requires ' ' !in s
    ensures FormatDateTime(s) == s
  {
    SplitNone(s, ' ');
  }

  /** Formatting the formatter's own output changes nothing. */
  lemma FormatIdempotent(s: string)
    ensures FormatDateTime(FormatDateTime(s)) == FormatDateTime(s)
  {
    SameAsDateTimeFormatter(s);
    SameAsDateTimeFormatter(FormatDateTime(s));
    DateTime.FormatDateTimeIdempotent(s);
  }
}
