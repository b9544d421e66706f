/** The row filter of the VAT reconciler (src/utils/vat/parser.ts): amounts are
    read leniently, and a row is kept when its rate is 6 or 25 and both its
    gross and its net amount are positive. */
module VatParser {
  import opened Js
  import opened Vat

  /** Removes white space, then the first "kr", turns the first ',' into '.',
      and keeps only digits, '.' and '-'. */
  function CleanAmount(s: string): (r: string)
    ensures forall i :: 0 <= i < |r| ==> IsNumberChar(r[i])
  {
    Keep(ReplaceFirst(ReplaceFirst(Keep(s, NotSpace), "kr", ""), ",", "."), IsNumberChar)
  }

  /** `parseNumber`: a number is returned as it is (NaN included), a falsy value
      is 0, anything else is read from its string form and is 0 when nothing
      numeric is found. */
  function ParseNumber(v: Value): (r: Number)
    ensures v.Num? ==> r == v.num
    ensures !v.Num? ==> r.Finite?
    ensures !v.Num? && !Truthy(v) ==> r == Finite(0.0)
  {
    if v.Num? then v.num
    else if !Truthy(v) then Finite(0.0)
    else ParseFloatOrZero(CleanAmount(ToStr(v)))
  }

  /** `isValidVatRate` */
  function IsValidVatRate(rate: Number): (r: bool)
    ensures r <==> rate.Finite? && (rate.val == 6.0 || rate.val == 25.0)
  {
    rate == Finite(6.0) || rate == Finite(25.0)
  }

  /** `isNonZeroVatDetail`: gross AND net are positive. */
  function IsNonZeroVatDetail(detail: Value): (r: bool)
    ensures r ==> detail.Obj?
    ensures r <==>
      var b := ParseNumber(Get(detail, "brutto"));
      var n := ParseNumber(Get(detail, "netto"));
      b.Finite? && n.Finite? && b.val > 0.0 && n.val > 0.0
  {
    Gt0(ParseNumber(Get(detail, "brutto"))) && Gt0(ParseNumber(Get(detail, "netto")))
  }

  /** `validateVatDetail` */
  function ValidateVatDetail(detail: Value): (r: bool)
    ensures r <==> detail.Obj? && IsValidVatRate(ParseNumber(Get(detail, "moms_percentage"))) && IsNonZeroVatDetail(detail)
  {
    && Truthy(detail) && IsObject(detail)
    && IsValidVatRate(ParseNumber(Get(detail, "moms_percentage")))
    && IsNonZeroVatDetail(detail)
  }

  /** The typed row `filterValidVatDetails` builds from a kept input row. */
  function Coerce(detail: Value): VatDetail {
    VatDetail(ParseNumber(Get(detail, "moms_percentage")), ParseNumber(Get(detail, "brutto")),
              ParseNumber(Get(detail, "netto")), ParseNumber(Get(detail, "moms_kr")))
  }

  /** What every row returned by `filterValidVatDetails` satisfies. */
  predicate ValidRow(d: VatDetail) {
    IsValidVatRate(d.rate) && Gt0(d.brutto) && Gt0(d.netto)
  }

  function FilterValid(items: seq<Value>): (r: seq<VatDetail>)
    ensures |r| <= |items|
    ensures forall i :: 0 <= i < |r| ==> ValidRow(r[i])
  {
    if items == [] then []
    else (if ValidateVatDetail(items[0]) then [Coerce(items[0])] else []) + FilterValid(items[1..])
  }

  /** `filterValidVatDetails`: [] unless given an array; otherwise the valid rows,
      coerced, never more rows than given, each with rate 6 or 25 and positive
      gross and net. */
  function FilterValidVatDetails(details: Value): (r: seq<VatDetail>)
    ensures !details.Arr? ==> r == []
    ensures details.Arr? ==> |r| <= |details.items|
    ensures forall i :: 0 <= i < |r| ==> ValidRow(r[i]) && r[i].rate.Finite? && r[i].brutto.Finite? && r[i].netto.Finite?
  {
    if details.Arr? then FilterValid(details.items) else []
  }

  function MapCoerce(items: seq<Value>): (r: seq<VatDetail>)
    ensures |r| == |items|
    ensures forall i :: 0 <= i < |items| ==> r[i] == Coerce(items[i])
  {
    if items == [] then [] else [Coerce(items[0])] + MapCoerce(items[1..])
  }

  /** The filter is the order-preserving selection of the valid rows followed
      by coercion. */
  lemma {:induction false} FilterValidIsFilterThenMap(items: seq<Value>)
    ensures FilterValid(items) == MapCoerce(Filter(items, ValidateVatDetail))
  {
    if items != [] {
      FilterValidIsFilterThenMap(items[1..]);
      assert items == [items[0]] + items[1..];
    }
  }

  /** Filtering distributes over concatenation, so the kept rows keep their order. */
  lemma {:induction false} FilterValidConcat(a: seq<Value>, b: seq<Value>)
    ensures FilterValid(a + b) == FilterValid(a) + FilterValid(b)
  {
    if a == [] {
      assert a + b == b;
    } else {
      assert (a + b)[0] == a[0];
      assert (a + b)[1..] == a[1..] + b;
      FilterValidConcat(a[1..], b);
    }
  }

  /** A kept row, written back as an object, is kept again unchanged. */
  lemma ValidRowRoundTrip(d: VatDetail)
    requires ValidRow(d)
    ensures ValidateVatDetail(ToValue(d)) && Coerce(ToValue(d)) == d
  {
  }

  /** Filtering the filter's own output changes nothing. */
  lemma {:induction false} FilterValidIdempotent(rows: seq<VatDetail>)
    requires forall i :: 0 <= i < |rows| ==> ValidRow(rows[i])
    ensures FilterValid(ToValues(rows)) == rows
  {
    if rows != [] {
      ValidRowRoundTrip(rows[0]);
      FilterValidIdempotent(rows[1..]);
    }
  }

  lemma FilterValidVatDetailsIdempotent(details: Value)
    ensures FilterValidVatDetails(Arr(ToValues(FilterValidVatDetails(details)))) == FilterValidVatDetails(details)
  {
    FilterValidIdempotent(FilterValidVatDetails(details));
  }

  /** A Swedish amount such as "1 234,50 kr" (digits grouped by spaces, a decimal
      comma, the currency after a space) is read as the number it denotes. */
  lemma {:induction false} ParseNumberSwedishAmount(ip: string, f: string)
    requires forall i :: 0 <= i < |ip| ==> IsDigit(ip[i]) || ip[i] == ' '
    requires Keep(ip, NotSpace) != [] && AllDigits(f)
    ensures AllDigits(Keep(ip, NotSpace))
    ensures ParseNumber(Str(ip + "," + f + " kr")) ==
            Finite(DigitsValue(Keep(ip, NotSpace)) as real + FracValue(f))
  {
    KeepDigits(ip);
    CleanSwedishAmount(ip, f);
    ParseFloatDecimal(Keep(ip, NotSpace), f);
  }

  lemma {:induction false} CleanSwedishAmount(ip: string, f: string)
    requires forall i :: 0 <= i < |ip| ==> IsDigit(ip[i]) || ip[i] == ' '
    requires AllDigits(f)
    ensures CleanAmount(ip + "," + f + " kr") == Keep(ip, NotSpace) + "." + f
  {
    var d := Keep(ip, NotSpace);
    KeepDigits(ip);
    var s := ip + "," + f + " kr";
    RemoveSpaces(ip, f);
    var t := Keep(s, NotSpace);
    // the first "kr" is the last two characters
    assert 'k' !in d + ("," + f);
    ReplaceFirstSkip(d + ("," + f), "kr", "kr", "");
    ReplaceFirstHead([], "kr", "");
    assert "kr" + [] == "kr" && "" + [] == [];
    assert ReplaceFirst(t, "kr", "") == d + ("," + f);
    // the first ',' is the one after the integer digits
    assert ',' !in d;
    ReplaceFirstSkip(d, "," + f, ",", ".");
    ReplaceFirstHead(f, ",", ".");
    assert ReplaceFirst(d + ("," + f), ",", ".") == d + ("." + f);
    KeepAll(d + ("." + f), IsNumberChar);
  }

  lemma {:induction false} RemoveSpaces(ip: string, f: string)
    requires AllDigits(f)
    ensures Keep(ip + "," + f + " kr", NotSpace) == Keep(ip, NotSpace) + ("," + f) + "kr"
  {
    assert ip + "," + f + " kr" == ip + ("," + f) + " " + "kr";
    KeepAll("," + f, NotSpace);
    KeepAll("kr", NotSpace);
    assert Keep(" ", NotSpace) == [];
    KeepAround(ip, "," + f, " ", "kr", NotSpace);
  }

  /** Keeping from four pieces, the middle ones kept whole and the third one
      dropped whole. */
  lemma KeepAround(p: string, q: string, gap: string, r: string, keep: char -> bool)
    requires Keep(q, keep) == q && Keep(gap, keep) == [] && Keep(r, keep) == r
    ensures Keep(p + q + gap + r, keep) == Keep(p, keep) + q + r
  {
    var kp := Keep(p, keep);
    KeepConcat(p, q, keep);
    assert Keep(p + q, keep) == kp + q;
    KeepConcat(p + q, gap, keep);
    assert Keep(p + q + gap, keep) == kp + q + [];
    assert kp + q + [] == kp + q;
    KeepConcat(p + q + gap, r, keep);
  }

  lemma {:induction false} KeepDigits(ip: string)
    requires forall i :: 0 <= i < |ip| ==> IsDigit(ip[i]) || ip[i] == ' '
    ensures AllDigits(Keep(ip, NotSpace))
  {
    if ip != [] {
      KeepDigits(ip[1..]);
    }
  }

  lemma SwedishAmountExample()
    ensures ParseNumber(Str("1 234,50 kr")) == Finite(1234.5)
  {
    ExampleText();
    ParseNumberSwedishAmount("1 234", "50");
    ExampleDigits();
  }

  lemma ExampleText()
    ensures "1 234" + "," + "50" + " kr" == "1 234,50 kr"
    ensures Keep("1 234", NotSpace) == "1234"
  {
  }

  lemma ExampleDigits()
    ensures AllDigits("1234") && DigitsValue("1234") == 1234
    ensures AllDigits("50") && FracValue("50") == 0.5
  {
    assert "1234"[..3] == "123";
    assert "123"[..2] == "12";
    assert "12"[..1] == "1";
    assert "1"[..0] == "";
    assert "50"[1..] == "0";
    assert "0"[1..] == "";
  }

  /** A plain decimal comma is read as a decimal point: "12,50" is 12.5. */
  lemma {:induction false} ParseNumberDecimalComma(d: string, f: string)
    requires d != [] && AllDigits(d) && AllDigits(f)
    ensures ParseNumber(Str(d + "," + f)) == Finite(DigitsValue(d) as real + FracValue(f))
  {
    var s := d + "," + f;
    StrToStr(s);
    assert |s| > 0 && Truthy(Str(s));
    CleanDecimalComma(d, f);
    ParseFloatDecimal(d, f);
    assert ParseFloat(CleanAmount(s)) == Finite(DigitsValue(d) as real + FracValue(f));
  }

  lemma {:induction false} CleanDecimalComma(d: string, f: string)
    requires AllDigits(d) && AllDigits(f)
    ensures CleanAmount(d + "," + f) == d + "." + f
  {
    var s := d + ("," + f);
    assert s == d + "," + f;
    KeepAll(s, NotSpace);
    NoKr(s);
    ReplaceFirstAbsent(s, "kr", "");
    assert ',' !in d;
    ReplaceFirstSkip(d, "," + f, ",", ".");
    ReplaceFirstHead(f, ",", ".");
    KeepAll(d + ("." + f), IsNumberChar);
  }

  lemma NoKr(s: string)
    requires 'k' !in s
    ensures !Occurs(s, "kr")
  {
    if Occurs(s, "kr") {
      OccursPrefix(s, "kr");
    }
  }

  lemma DecimalCommaExample()
    ensures ParseNumber(Str("12,50")) == Finite(12.5)
  {
    assert "12" + "," + "50" == "12,50";
    ParseNumberDecimalComma("12", "50");
    assert DigitsValue("12") == 12 by {
      assert "12"[..1] == "1";
      assert "1"[..0] == "";
    }
    assert FracValue("50") == 0.5 by {
      assert "50"[1..] == "0";
      assert "0"[1..] == "";
    }
  }

  /** Text with no digit in it reads as 0. */
  lemma {:induction false} ParseNumberNoDigit(s: string)
    requires s != [] && NoDigit(s)
    ensures ParseNumber(Str(s)) == Finite(0.0)
  {
    KeepNoDigit(s, NotSpace);
    ReplaceFirstNoDigit(Keep(s, NotSpace), "kr", "");
    ReplaceFirstNoDigit(ReplaceFirst(Keep(s, NotSpace), "kr", ""), ",", ".");
    KeepNoDigit(ReplaceFirst(ReplaceFirst(Keep(s, NotSpace), "kr", ""), ",", "."), IsNumberChar);
    ParseFloatNoDigit(CleanAmount(s));
  }
}
