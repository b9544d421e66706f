/** The older VAT reconciler (src/utils/vatDetails.ts), kept beside the newer one:
    it keeps a row when its rate is 6 or 25 and its gross OR its net amount is
    positive, keeps the raw rows in `ensureVatRates`, and keeps a section's other
    keys. Its differences from src/utils/vat/ are stated at the end. */
module VatDetails {
  import opened Js
  import opened Vat
  import VatParser
  import VatProcessor

  /** `parseNumber`: every character other than a digit, '.' or '-' is removed
      before the first ',' would be turned into '.', so a decimal comma is lost. */
  function ParseNumber(v: Value): (r: Number)
    ensures v.Num? ==> r == v.num
    ensures !v.Num? ==> r.Finite?
    ensures !v.Num? && !Truthy(v) ==> r == Finite(0.0)
  {
    if v.Num? then v.num
    else if !Truthy(v) then Finite(0.0)
    else ParseFloatOrZero(ReplaceFirst(Keep(ToStr(v), IsNumberChar), ",", "."))
  }

  /** A decimal comma vanishes: "a,b" reads as the digits of a and b run together. */
  lemma {:induction false} ParseNumberDropsComma(a: string, b: string)
    requires AllDigits(a) && AllDigits(b) && a + b != []
    ensures AllDigits(a + b)
    ensures ParseNumber(Str(a + "," + b)) == Finite(DigitsValue(a + b) as real)
  {
    var s := a + "," + b;
    StrToStr(s);
    assert |s| > 0 && Truthy(Str(s));
    CleanDropsComma(a, b);
    ParseFloatDecimal(a + b, "");
    assert ParseFloat(ReplaceFirst(Keep(s, IsNumberChar), ",", ".")) == Finite(DigitsValue(a + b) as real);
  }

  lemma {:induction false} CleanDropsComma(a: string, b: string)
    requires AllDigits(a) && AllDigits(b)
    ensures AllDigits(a + b)
    ensures ReplaceFirst(Keep(a + "," + b, IsNumberChar), ",", ".") == a + b
  {
    assert a + "," + b == a + ([','] + b);
    KeepConcat(a, [','] + b, IsNumberChar);
    KeepConcat([','], b, IsNumberChar);
    KeepAll(a, IsNumberChar);
    KeepAll(b, IsNumberChar);
    assert Keep([','], IsNumberChar) == [];
    assert [] + b == b;
    assert Keep(a + "," + b, IsNumberChar) == a + b;
    assert ',' !in a + b;
    CharOccurs(a + b, ',');
    ReplaceFirstAbsent(a + b, ",", ".");
  }

  lemma CommaExample()
    ensures ParseNumber(Str("12,50")) == Finite(1250.0)
  {
    assert "12" + "," + "50" == "12,50";
    assert "12" + "50" == "1250";
    ParseNumberDropsComma("12", "50");
    assert DigitsValue("1250") == 1250 by {
      assert "1250"[..3] == "125";
      assert "125"[..2] == "12";
      assert "12"[..1] == "1";
      assert "1"[..0] == "";
    }
  }

  /** `isRelevantVatDetail`: an object whose rate is 6 or 25 and whose gross OR
      net amount is positive. */
  function IsRelevantVatDetail(detail: Value): (r: bool)
    ensures r <==>
      var rate := ParseNumber(Get(detail, "moms_percentage"));
      var b := ParseNumber(Get(detail, "brutto"));
      var n := ParseNumber(Get(detail, "netto"));
      && detail.Obj? && rate.Finite? && (rate.val == 6.0 || rate.val == 25.0)
      && ((b.Finite? && b.val > 0.0) || (n.Finite? && n.val > 0.0))
  {
    && Truthy(detail) && IsObject(detail)
    && (ParseNumber(Get(detail, "moms_percentage")) == Finite(6.0) ||
        ParseNumber(Get(detail, "moms_percentage")) == Finite(25.0))
    && (Gt0(ParseNumber(Get(detail, "brutto"))) || Gt0(ParseNumber(Get(detail, "netto"))))
  }

  /** `filterRelevantVatDetails`: the relevant rows, as they were given, in order. */
  function FilterRelevantVatDetails(details: Value): (r: seq<Value>)
    ensures !details.Arr? ==> r == []
    ensures forall i :: 0 <= i < |r| ==> IsRelevantVatDetail(r[i])
  {
    if details.Arr? then Filter(details.items, IsRelevantVatDetail) else []
  }

  function ZeroRowValue(rate: real): Value { ToValue(ZeroRow(rate)) }

  /** The rate as given, which `new Set(rows.map(d => d.moms_percentage))` collects. */
  function RawRate(d: Value): Value { Get(d, "moms_percentage") }

  /** The sort key of `(a, b) => a.moms_percentage - b.moms_percentage`. */
  function RateKey(d: Value): Number { ToNumber(ToPrimitive(Get(d, "moms_percentage"))) }

  /** The zero rows pushed when the number 6 or 25 is missing, in that order. */
  const DEFAULT_ROWS: seq<(Value, Value)> := [(N(6.0), ZeroRowValue(6.0)), (N(25.0), ZeroRowValue(25.0))]

  function RowsOf(v: Value): seq<Value> { if v.Arr? then v.items else [] }

  /** The result of `ensureVatRates`. */
  function VatRatesEnsured(details: Value): seq<Value> {
    WithDefaultRates(RowsOf(Or(details, Arr([]))), IsRelevantVatDetail, RawRate, DEFAULT_ROWS, RateKey)
  }

  lemma FilterRelevantRows(v: Value)
    ensures FilterRelevantVatDetails(v) == Filter(RowsOf(v), IsRelevantVatDetail)
  {
  }

  lemma DefaultRowsMissing(rates: set<Value>)
    ensures MissingRows(rates, DEFAULT_ROWS) ==
      (if N(6.0) in rates then [] else [ZeroRowValue(6.0)]) +
      (if N(25.0) in rates then [] else [ZeroRowValue(25.0)])
  {
    var tail := DEFAULT_ROWS[1..];
    assert tail[1..] == [];
    assert MissingRows(rates, tail) == (if N(25.0) in rates then [] else [ZeroRowValue(25.0)]) + [];
  }

  /** `ensureVatRates`: the relevant rows as given, a zero row for 6 and for 25
      when no relevant row has that rate as a number, sorted by rate. */
  method EnsureVatRates(details: Value) returns (result: seq<Value>)
    ensures result == VatRatesEnsured(details)
    ensures N(6.0) in RatesOf(result, RawRate) && N(25.0) in RatesOf(result, RawRate)
  {
    var filtered := FilterRelevantVatDetails(Or(details, Arr([])));
    FilterRelevantRows(Or(details, Arr([])));
    var rates := RatesOf(filtered, RawRate);
    result := filtered;
    if N(6.0) !in rates {
      result := result + [ZeroRowValue(6.0)];
    }
    if N(25.0) !in rates {
      result := result + [ZeroRowValue(25.0)];
    }
    DefaultRowsMissing(rates);
    assert result == filtered + MissingRows(rates, DEFAULT_ROWS);
    result := SortBy(result, RateKey);
    VatRatesComplete(details);
  }

  /** The result always has a row whose rate is the number 6 and one whose rate
      is the number 25. */
  lemma VatRatesComplete(details: Value)
    ensures N(6.0) in RatesOf(VatRatesEnsured(details), RawRate)
    ensures N(25.0) in RatesOf(VatRatesEnsured(details), RawRate)
  {
    var rows := RowsOf(Or(details, Arr([])));
    WithDefaultRatesComplete(rows, IsRelevantVatDetail, RawRate, DEFAULT_ROWS, RateKey, 0);
    WithDefaultRatesComplete(rows, IsRelevantVatDetail, RawRate, DEFAULT_ROWS, RateKey, 1);
  }

  /** The relevant input rows are all kept, unchanged; any other row of the
      result is a zero row for a rate that no relevant row has. */
  lemma VatRatesPreserveRelevant(details: Value, d: Value)
    requires details.Arr?
    ensures d in details.items && IsRelevantVatDetail(d) ==> d in VatRatesEnsured(details)
    ensures d in VatRatesEnsured(details) ==>
      var rates := RatesOf(FilterRelevantVatDetails(details), RawRate);
      || (d in details.items && IsRelevantVatDetail(d))
      || (d == ZeroRowValue(6.0) && N(6.0) !in rates)
      || (d == ZeroRowValue(25.0) && N(25.0) !in rates)
  {
    assert Or(details, Arr([])) == details;
    if d in details.items && IsRelevantVatDetail(d) {
      WithDefaultRatesKeeps(details.items, IsRelevantVatDetail, RawRate, DEFAULT_ROWS, RateKey, d);
    }
    if d in VatRatesEnsured(details) {
      WithDefaultRatesOnlyAdds(details.items, IsRelevantVatDetail, RawRate, DEFAULT_ROWS, RateKey, d);
    }
  }

  /** The rate reads as 6 or 25. */
  predicate HasAllowedRate(d: Value) {
    ParseNumber(Get(d, "moms_percentage")) == Finite(6.0) || ParseNumber(Get(d, "moms_percentage")) == Finite(25.0)
  }

  /** Every row of the result reads as rate 6 or 25. */
  lemma VatRatesOnlyAllowedRates(details: Value)
    ensures forall d | d in VatRatesEnsured(details) :: HasAllowedRate(d)
  {
    var rows := RowsOf(Or(details, Arr([])));
    forall d | d in VatRatesEnsured(details)
      ensures HasAllowedRate(d)
    {
      WithDefaultRatesOnlyAdds(rows, IsRelevantVatDetail, RawRate, DEFAULT_ROWS, RateKey, d);
    }
  }

  /** Rates given as numbers. */
  ghost predicate NumericRates(details: Value) {
    details.Arr? && forall d | d in details.items :: Get(d, "moms_percentage").Num?
  }

  /** Rates given as numbers sort as numbers, and the zero rows are not
      relevant themselves. */
  lemma NumericRatesKeys(details: Value)
    requires NumericRates(details)
    ensures KeptKeysFinite(RowsOf(Or(details, Arr([]))), IsRelevantVatDetail, RateKey)
    ensures DefaultKeysFinite(DEFAULT_ROWS, RateKey) && DefaultsRejected(DEFAULT_ROWS, IsRelevantVatDetail)
  {
    assert RowsOf(Or(details, Arr([]))) == details.items;
    forall d | d in details.items && IsRelevantVatDetail(d)
      ensures RateKey(d).Finite?
    {
      assert Get(d, "moms_percentage").Num?;
    }
    DefaultRowsSettled();
  }

  lemma DefaultRowsSettled()
    ensures DefaultKeysFinite(DEFAULT_ROWS, RateKey) && DefaultsRejected(DEFAULT_ROWS, IsRelevantVatDetail)
  {
    ZeroRowSettled(6.0);
    ZeroRowSettled(25.0);
    forall i | 0 <= i < |DEFAULT_ROWS|
      ensures RateKey(DEFAULT_ROWS[i].1).Finite? && !IsRelevantVatDetail(DEFAULT_ROWS[i].1)
    {
      assert DEFAULT_ROWS[i].1 == if i == 0 then ZeroRowValue(6.0) else ZeroRowValue(25.0);
    }
  }

  /** A zero row sorts by its rate and is not relevant: both amounts are 0. */
  lemma ZeroRowSettled(rate: real)
    ensures RateKey(ZeroRowValue(rate)) == Finite(rate)
    ensures !IsRelevantVatDetail(ZeroRowValue(rate))
  {
    var m := ZeroRowValue(rate).fields;
    assert m["moms_percentage"] == N(rate) && m["brutto"] == N(0.0) && m["netto"] == N(0.0);
  }

  /** With rates given as numbers, the result is sorted by rate. */
  lemma VatRatesSorted(details: Value)
    requires NumericRates(details)
    ensures SortedBy(VatRatesEnsured(details), RateKey)
  {
    NumericRatesKeys(details);
    WithDefaultRatesSorted(RowsOf(Or(details, Arr([]))), IsRelevantVatDetail, RawRate, DEFAULT_ROWS, RateKey);
  }

  /** With rates given as numbers, a second pass changes nothing. */
  lemma VatRatesIdempotent(details: Value)
    requires NumericRates(details)
    ensures VatRatesEnsured(Arr(VatRatesEnsured(details))) == VatRatesEnsured(details)
  {
    var once := VatRatesEnsured(details);
    NumericRatesKeys(details);
    WithDefaultRatesIdempotent(RowsOf(Or(details, Arr([]))), IsRelevantVatDetail, RawRate, DEFAULT_ROWS, RateKey);
    assert RowsOf(Or(Arr(once), Arr([]))) == once;
  }

  // ---------------------------------------------------------------------------
  // Sections

  /** A kept row with its four fields read as numbers. */
  function NormaliseRow(d: Value): Value {
    ToValue(VatDetail(ParseNumber(Get(d, "moms_percentage")), ParseNumber(Get(d, "brutto")),
                      ParseNumber(Get(d, "netto")), ParseNumber(Get(d, "moms_kr"))))
  }

  function NormaliseRows(rows: seq<Value>): (r: seq<Value>)
    ensures |r| == |rows|
    ensures forall i :: 0 <= i < |rows| ==> r[i] == NormaliseRow(rows[i])
  {
    if rows == [] then [] else [NormaliseRow(rows[0])] + NormaliseRows(rows[1..])
  }

  /** `processVatSection`: the section with its relevant rows, normalised, in
      place of `moms_details` and its other keys as they were; nothing when no
      row is relevant. */
  function ProcessVatSection(section: Value): (r: Option<Value>)
    ensures r.None? <==> FilterRelevantVatDetails(Get(section, "moms_details")) == []
    ensures r.Some? ==>
      && r.value.Obj?
      && (forall k :: k in r.value.fields <==> k in section.fields || k == "moms_details")
      && (forall k | k in section.fields && k != "moms_details" :: r.value.fields[k] == section.fields[k])
      && r.value.fields["moms_details"] == Arr(NormaliseRows(FilterRelevantVatDetails(Get(section, "moms_details"))))
  {
    if !Truthy(section) || !Truthy(Get(section, "moms_details")) then None
    else
      var relevant := FilterRelevantVatDetails(Get(section, "moms_details"));
      if relevant == [] then None
      else Some(Obj(Spread(section)["moms_details" := Arr(NormaliseRows(relevant))]))
  }

  /** One pass of the loop in `prepareVatDetailsForSave`. */
  function ProcessSection(key: string, section: Value): Option<Value> {
    match ProcessVatSection(section)
    case None => None
    case Some(processed) =>
      if key == "total_inkort_details" then
        var total := ParseNumber(Get(section, "total_inkort"));
        if Gt0(total) then Some(Obj(processed.fields["total_inkort" := Num(total)])) else None
      else Some(processed)
  }

  /** The result of `prepareVatDetailsForSave`. */
  function PreparedForSave(data: Value): map<string, Value> {
    Prepared(Spread(data), VAT_SECTIONS, ProcessSection)
  }

  /** One pass of the loop below: the section `key` of `prepared` replaced by
      its processed form, or deleted. */
  method PrepareSection(prepared: map<string, Value>, key: string) returns (next: map<string, Value>)
    ensures var step := ProcessSection(key, Get(Obj(prepared), key));
      next == if step.Some? then prepared[key := step.value] else prepared - {key}
  {
    var section := if key in prepared then prepared[key] else Undefined;
    var processed := ProcessVatSection(section);
    if processed.Some? {
      if key == "total_inkort_details" {
        var total := ParseNumber(Get(section, "total_inkort"));
        if Gt0(total) {
          next := prepared[key := Obj(processed.value.fields["total_inkort" := Num(total)])];
        } else {
          next := prepared - {key};
        }
      } else {
        next := prepared[key := processed.value];
      }
    } else {
      next := prepared - {key};
    }
  }

  /** `prepareVatDetailsForSave`: a copy of `data` in which each of the four
      sections is replaced by its processed form or deleted. */
  method PrepareVatDetailsForSave(data: Value) returns (prepared: map<string, Value>)
    ensures prepared == PreparedForSave(data)
  {
    var original := Spread(data);
    prepared := original;
    PreparedNothing(original, ProcessSection);
    assert VAT_SECTIONS[..0] == [];
    for i := 0 to |VAT_SECTIONS|
      invariant prepared == Prepared(original, VAT_SECTIONS[..i], ProcessSection)
    {
      var key := VAT_SECTIONS[i];
      SectionNotYetDone(i);
      PrepareStep(original, VAT_SECTIONS[..i], key, ProcessSection);
      TakeOneMore(VAT_SECTIONS, i);
      prepared := PrepareSection(prepared, key);
    }
    assert VAT_SECTIONS[..|VAT_SECTIONS|] == VAT_SECTIONS;
  }

  /** Keys other than the four sections are copied unchanged. */
  lemma PrepareKeepsOtherKeys(data: Value, k: string)
    requires k !in VAT_SECTIONS
    ensures k in PreparedForSave(data) <==> k in Spread(data)
    ensures k in Spread(data) ==> PreparedForSave(data)[k] == Spread(data)[k]
  {
  }

  /** A section without a relevant row is deleted, and so is
      `total_inkort_details` when its total is not positive. */
  lemma PreparedSection(data: Value, k: string)
    requires k in VAT_SECTIONS
    ensures k in PreparedForSave(data) <==>
      && FilterRelevantVatDetails(Get(Get(data, k), "moms_details")) != []
      && (k == "total_inkort_details" ==> Gt0(ParseNumber(Get(Get(data, k), "total_inkort"))))
  {
    var m := Spread(data);
    if k in m {
      assert Get(data, k) == m[k];
    } else {
      assert Get(data, k) == Undefined;
    }
  }

  // ---------------------------------------------------------------------------
  // How the two reconcilers differ

  /** On rows whose fields are numbers, a row src/utils/vat/parser.ts keeps is
      also relevant here: AND positivity is stricter than OR. */
  lemma ValidImpliesRelevant(d: Value)
    requires Get(d, "moms_percentage").Num? && Get(d, "brutto").Num? && Get(d, "netto").Num?
    ensures VatParser.ValidateVatDetail(d) ==> IsRelevantVatDetail(d)
  {
  }

  /** A row with gross 100 and net 0 is relevant here but not valid there. */
  lemma OrIsNotAnd()
    ensures var d := Obj(map["moms_percentage" := N(25.0), "brutto" := N(100.0), "netto" := N(0.0)]);
      IsRelevantVatDetail(d) && !VatParser.ValidateVatDetail(d)
  {
  }

  /** The same text reads as 12.5 there and as 1250 here. */
  lemma ParseNumbersDiffer()
    ensures VatParser.ParseNumber(Str("12,50")) == Finite(12.5)
    ensures ParseNumber(Str("12,50")) == Finite(1250.0)
  {
    CommaExample();
    VatParser.DecimalCommaExample();
  }

  /** A positive row at rate 12 survives `ensureDefaultVatRates` but not
      `ensureVatRates`. */
  lemma RateFilterDiffers()
    ensures var row := VatDetail(Finite(12.0), Finite(100.0), Finite(89.29), Finite(10.71));
      && row in VatProcessor.DefaultRatesEnsured([row])
      && ToValue(row) !in VatRatesEnsured(Arr([ToValue(row)]))
  {
    VatProcessor.DefaultRatesKeepOtherRate();
    VatRatesOnlyAllowedRates(Arr([ToValue(VatDetail(Finite(12.0), Finite(100.0), Finite(89.29), Finite(10.71)))]));
  }

  /** A `total_inkort` of NaN keeps the total-inkört section there (NaN <= 0 is
      false) but deletes it here (NaN > 0 is false). */
  lemma NaNTotalDiffers()
    ensures var section := Obj(map[
        "moms_details" := Arr([ToValue(VatDetail(N(6.0).num, N(100.0).num, N(94.34).num, N(5.66).num))]),
        "total_inkort" := Num(NaN)]);
      && VatProcessor.ProcessSection("total_inkort_details", section).Some?
      && ProcessSection("total_inkort_details", section).None?
  {
    var row := VatDetail(Finite(6.0), Finite(100.0), Finite(94.34), Finite(5.66));
    VatParser.ValidRowRoundTrip(row);
    assert [ToValue(row)][1..] == [];
  }
}
