/** Section pruning and default rates of the VAT reconciler
    (src/utils/vat/processor.ts). */
module VatProcessor {
  import opened Js
  import opened Vat
  import opened VatParser

  /** The section the processor writes back: only `{ moms_details }`. */
  function SectionValue(rows: seq<VatDetail>): (v: Value)
    ensures v.Obj? && forall k :: k in v.fields <==> k == "moms_details"
  {
    Obj(map["moms_details" := Arr(ToValues(rows))])
  }

  /** `processVatSection`: the valid rows of `section.moms_details`, or nothing
      when there are none (a missing or falsy `moms_details` has none). */
  function ProcessVatSection(section: Value): (r: Option<seq<VatDetail>>)
    ensures r.None? <==> FilterValidVatDetails(Get(section, "moms_details")) == []
    ensures r.Some? ==> r.value == FilterValidVatDetails(Get(section, "moms_details"))
  {
    var details := Get(section, "moms_details");
    if !Truthy(details) then None
    else
      var valid := FilterValidVatDetails(details);
      if valid == [] then None else Some(valid)
  }

  /** `totalInkort <= 0`; NaN compares false. */
  predicate AtMostZero(n: Number) { n.Finite? && n.val <= 0.0 }

  /** `processTotalInkort`: the section's valid rows and its parsed
      `total_inkort`, or nothing when there are no valid rows or the total is
      zero or negative. */
  function ProcessTotalInkort(section: Value): (r: Option<Value>)
    ensures r.Some? <==>
      FilterValidVatDetails(Get(section, "moms_details")) != [] &&
      !AtMostZero(ParseNumber(Get(section, "total_inkort")))
    ensures r.Some? ==>
      && r.value.Obj?
      && (forall k :: k in r.value.fields <==> k == "moms_details" || k == "total_inkort")
      && Get(r.value, "moms_details") == Arr(ToValues(FilterValidVatDetails(Get(section, "moms_details"))))
      && Get(r.value, "total_inkort") == Num(ParseNumber(Get(section, "total_inkort")))
  {
    match ProcessVatSection(section)
    case None => None
    case Some(rows) =>
      var total := ParseNumber(Get(section, "total_inkort"));
      if AtMostZero(total) then None
      else Some(Obj(map["moms_details" := Arr(ToValues(rows)), "total_inkort" := Num(total)]))
  }

  /** What one pass of the loop in `prepareVatDetailsForSave` makes of a section:
      nothing (delete the key) or its processed form. */
  function ProcessSection(key: string, section: Value): Option<Value> {
    if !Truthy(section) then None
    else if key == "total_inkort_details" then ProcessTotalInkort(section)
    else match ProcessVatSection(section)
      case None => None
      case Some(rows) => Some(SectionValue(rows))
  }

  /** The result of `prepareVatDetailsForSave`. */
  function PreparedForSave(data: Value): map<string, Value> {
    Prepared(Spread(data), VAT_SECTIONS, ProcessSection)
  }

  /** One pass of the loop below: the section `key` of `prepared` replaced by
      its processed form, or deleted. */
  method PrepareSection(prepared: map<string, Value>, key: string) returns (next: map<string, Value>)
    ensures var step := ProcessSection(key, Get(Obj(prepared), key));
      next == if step.Some? then prepared[key := step.value] else prepared - {key}
  {
    var section := if key in prepared then prepared[key] else Undefined;
    if !Truthy(section) {
      next := prepared - {key};
    } else if key == "total_inkort_details" {
      var processed := ProcessTotalInkort(section);
      if processed.Some? {
        next := prepared[key := processed.value];
      } else {
        next := prepared - {key};
      }
    } else {
      var processed := ProcessVatSection(section);
      if processed.Some? {
        next := prepared[key := SectionValue(processed.value)];
      } else {
        next := prepared - {key};
      }
    }
  }

  /** `prepareVatDetailsForSave`: a copy of `data` whose four VAT sections are
      processed one after the other; a section that is missing or has nothing
      left is deleted. */
  method PrepareVatDetailsForSave(data: Value) returns (prepared: map<string, Value>)
    ensures prepared == PreparedForSave(data)
  {
    var original := Spread(data);
    prepared := original;
    PreparedNothing(original, ProcessSection);
    assert VAT_SECTIONS[..0] == [];
    for i := 0 to |VAT_SECTIONS|
      invariant prepared == Prepared(original, VAT_SECTIONS[..i], ProcessSection)
    {
      var key := VAT_SECTIONS[i];
      SectionNotYetDone(i);
      PrepareStep(original, VAT_SECTIONS[..i], key, ProcessSection);
      TakeOneMore(VAT_SECTIONS, i);
      prepared := PrepareSection(prepared, key);
    }
    assert VAT_SECTIONS[..|VAT_SECTIONS|] == VAT_SECTIONS;
  }

  /** Keys other than the four sections are copied unchanged. */
  lemma PrepareKeepsOtherKeys(data: Value, k: string)
    requires k !in VAT_SECTIONS
    ensures k in PreparedForSave(data) <==> k in Spread(data)
    ensures k in Spread(data) ==> PreparedForSave(data)[k] == Spread(data)[k]
  {
  }

  /** A section stays exactly when it has valid rows (and, for
      `total_inkort_details`, a total that is not zero or negative); it then
      holds only its valid rows (and the parsed total). The other keys of a
      section, such as its cash amount, are dropped. */
  lemma PreparedSection(data: Value, k: string)
    requires k in VAT_SECTIONS
    ensures var rows := FilterValidVatDetails(Get(Get(data, k), "moms_details"));
      k in PreparedForSave(data) <==>
        && k in Spread(data) && rows != []
        && (k == "total_inkort_details" ==> !AtMostZero(ParseNumber(Get(Get(data, k), "total_inkort"))))
    ensures k in PreparedForSave(data) ==>
      var p := PreparedForSave(data)[k];
      && p.Obj?
      && p.fields.Keys == (if k == "total_inkort_details" then {"moms_details", "total_inkort"} else {"moms_details"})
      && Get(p, "moms_details") == Arr(ToValues(FilterValidVatDetails(Get(Get(data, k), "moms_details"))))
  {
    var m := Spread(data);
    if k in m {
      assert Get(data, k) == m[k];
      if !Truthy(m[k]) {
        assert Get(m[k], "moms_details") == Undefined;
      }
    } else {
      assert Get(data, k) == Undefined;
    }
  }

  /** The processed form of a section is left as it is by a second pass. */
  lemma {:induction false} ProcessSectionIdempotent(key: string, section: Value)
    requires ProcessSection(key, section).Some?
    ensures ProcessSection(key, ProcessSection(key, section).value) == ProcessSection(key, section)
  {
    var rows := FilterValidVatDetails(Get(section, "moms_details"));
    FilterValidVatDetailsIdempotent(Get(section, "moms_details"));
    var p := ProcessSection(key, section).value;
    assert Get(p, "moms_details") == Arr(ToValues(rows));
    if key == "total_inkort_details" {
      assert Get(p, "total_inkort") == Num(ParseNumber(Get(section, "total_inkort")));
    }
  }

  /** Preparing prepared data again changes nothing. */
  lemma PrepareIdempotent(data: Value)
    ensures PreparedForSave(Obj(PreparedForSave(data))) == PreparedForSave(data)
  {
    var p := PreparedForSave(data);
    var q := PreparedForSave(Obj(p));
    forall k | k in VAT_SECTIONS && k in p
      ensures ProcessSection(k, p[k]) == Some(p[k])
    {
      ProcessSectionIdempotent(k, Spread(data)[k]);
    }
    assert q.Keys == p.Keys;
  }

  // ---------------------------------------------------------------------------
  // ensureDefaultVatRates

  /** `detail.brutto > 0 || detail.netto > 0` */
  predicate HasAmount(d: VatDetail) { Gt0(d.brutto) || Gt0(d.netto) }

  function RateOf(d: VatDetail): Number { d.rate }

  /** The zero rows pushed for a missing 6 and a missing 25, in that order. */
  const DEFAULT_RATES: seq<(Number, VatDetail)> :=
    [(Finite(6.0), ZeroRow(6.0)), (Finite(25.0), ZeroRow(25.0))]

  /** The result of `ensureDefaultVatRates`. */
  function DefaultRatesEnsured(details: seq<VatDetail>): seq<VatDetail> {
    WithDefaultRates(details, HasAmount, RateOf, DEFAULT_RATES, RateOf)
  }

  /** `ensureDefaultVatRates`: drops the rows without an amount, adds a zero row
      for 6 and for 25 when no remaining row has that rate, and sorts by rate. */
  method EnsureDefaultVatRates(details: seq<VatDetail>) returns (result: seq<VatDetail>)
    ensures result == DefaultRatesEnsured(details)
    ensures Finite(6.0) in RatesOf(result, RateOf) && Finite(25.0) in RatesOf(result, RateOf)
    ensures forall d | d in details && HasAmount(d) :: d in result
  {
    var filtered := Filter(details, HasAmount);
    var existingRates := RatesOf(filtered, RateOf);
    result := filtered;
    if Finite(6.0) !in existingRates {
      result := result + [ZeroRow(6.0)];
    }
    if Finite(25.0) !in existingRates {
      result := result + [ZeroRow(25.0)];
    }
    DefaultRowsMissing(existingRates);
    assert result == filtered + MissingRows(existingRates, DEFAULT_RATES);
    result := SortBy(result, RateOf);
    DefaultRatesComplete(details);
    DefaultRatesKeepRows(details);
  }

  lemma DefaultRowsMissing(rates: set<Number>)
    ensures MissingRows(rates, DEFAULT_RATES) ==
      (if Finite(6.0) in rates then [] else [ZeroRow(6.0)]) +
      (if Finite(25.0) in rates then [] else [ZeroRow(25.0)])
  {
    var tail := DEFAULT_RATES[1..];
    assert tail[1..] == [];
    assert MissingRows(rates, tail) == (if Finite(25.0) in rates then [] else [ZeroRow(25.0)]) + [];
  }

  /** The result always has a row with rate 6 and one with rate 25. */
  lemma DefaultRatesComplete(details: seq<VatDetail>)
    ensures Finite(6.0) in RatesOf(DefaultRatesEnsured(details), RateOf)
    ensures Finite(25.0) in RatesOf(DefaultRatesEnsured(details), RateOf)
  {
    WithDefaultRatesComplete(details, HasAmount, RateOf, DEFAULT_RATES, RateOf, 0);
    WithDefaultRatesComplete(details, HasAmount, RateOf, DEFAULT_RATES, RateOf, 1);
  }

  /** Every row with an amount is kept, whatever its rate: the rate is not
      filtered here. */
  lemma DefaultRatesKeepRows(details: seq<VatDetail>)
    ensures forall d | d in details && HasAmount(d) :: d in DefaultRatesEnsured(details)
  {
    forall d | d in details && HasAmount(d)
      ensures d in DefaultRatesEnsured(details)
    {
      WithDefaultRatesKeeps(details, HasAmount, RateOf, DEFAULT_RATES, RateOf, d);
    }
  }

  /** Every row of the result is an input row with an amount, or a zero row
      for a rate that no such row has. */
  lemma DefaultRatesOnlyAddMissing(details: seq<VatDetail>)
    ensures var rates := RatesOf(Filter(details, HasAmount), RateOf);
      forall d | d in DefaultRatesEnsured(details) ::
        || (d in details && HasAmount(d))
        || (d == ZeroRow(6.0) && Finite(6.0) !in rates)
        || (d == ZeroRow(25.0) && Finite(25.0) !in rates)
  {
    forall d | d in DefaultRatesEnsured(details)
      ensures var rates := RatesOf(Filter(details, HasAmount), RateOf);
        || (d in details && HasAmount(d))
        || (d == ZeroRow(6.0) && Finite(6.0) !in rates)
        || (d == ZeroRow(25.0) && Finite(25.0) !in rates)
    {
      WithDefaultRatesOnlyAdds(details, HasAmount, RateOf, DEFAULT_RATES, RateOf, d);
    }
  }

  /** With numeric rates the result is sorted by rate. */
  lemma DefaultRatesSorted(details: seq<VatDetail>)
    requires forall d | d in details :: d.rate.Finite?
    ensures SortedBy(DefaultRatesEnsured(details), RateOf)
  {
    WithDefaultRatesSorted(details, HasAmount, RateOf, DEFAULT_RATES, RateOf);
  }

  /** With numeric rates, a second pass changes nothing. */
  lemma DefaultRatesIdempotent(details: seq<VatDetail>)
    requires forall d | d in details :: d.rate.Finite?
    ensures DefaultRatesEnsured(DefaultRatesEnsured(details)) == DefaultRatesEnsured(details)
  {
    WithDefaultRatesIdempotent(details, HasAmount, RateOf, DEFAULT_RATES, RateOf);
  }

  /** A complete breakdown is its own result: [{6, 100, 94.34, 5.66}, {25, 0, 0, 0}]. */
  lemma DefaultRatesExample()
    ensures var row6 := VatDetail(Finite(6.0), Finite(100.0), Finite(94.34), Finite(5.66));
      DefaultRatesEnsured([row6, ZeroRow(25.0)]) == [row6, ZeroRow(25.0)]
  {
    var row6 := VatDetail(Finite(6.0), Finite(100.0), Finite(94.34), Finite(5.66));
    var details := [row6, ZeroRow(25.0)];
    assert details[1..] == [ZeroRow(25.0)];
    assert Filter(details, HasAmount) == [row6];
    assert RatesOf([row6], RateOf) == {Finite(6.0)} by {
      assert row6 in [row6];
    }
    DefaultRowsMissing({Finite(6.0)});
    assert MissingRows({Finite(6.0)}, DEFAULT_RATES) == [ZeroRow(25.0)];
    assert Filter(details, HasAmount) + MissingRows(RatesOf([row6], RateOf), DEFAULT_RATES) == details;
    assert SortedBy(details, RateOf);
    SortBySortedId(details, RateOf);
  }

  /** A row at another rate, such as 12, survives. */
  lemma DefaultRatesKeepOtherRate()
    ensures var row12 := VatDetail(Finite(12.0), Finite(100.0), Finite(89.29), Finite(10.71));
      row12 in DefaultRatesEnsured([row12])
  {
    var row12 := VatDetail(Finite(12.0), Finite(100.0), Finite(89.29), Finite(10.71));
    DefaultRatesKeepRows([row12]);
  }
}
