/** The field normaliser of the OCR service (src/services/ocr/normalize.ts):
    it turns whatever the vision model returned into a fully populated receipt
    record, falling back to the default template of src/services/ocr/config.ts
    field by field. The template's start and end times come from the clock when
    the module is loaded; here they are the parameter `now`. */
module OcrNormalize {
  import opened Js
  import OcrUtils
  import DateTime
  import VatDetails

  /** One VAT row of a normalised section. */
  datatype VatRow = VatRow(moms_percentage: real, brutto: real, netto: real, moms_kr: real)

  /** A VAT section: its amount fields by name (`amount`, `kontant`,
      `total_inkort`, or none) and its rows. */
  datatype Section = Section(amounts: map<string, real>, moms_details: seq<VatRow>)

  /** `ExtractedData` */
  datatype ExtractedData = ExtractedData(
    org_nr: string, regnr: string, forarid: string,
    start_time: string, end_time: string,
    taxitrafik_km: real, betalda_km: real, turer: real,
    drosknr: string, rapportnr: string,
    lonegr_ex_moms: real, kontant: real, drikskredit: real, att_redovisa: real, total_kredit: real,
    kontant_details: Section, kredit_details: Section,
    total_inkort_details: Section, varav_bom_avbest_details: Section)

  function ZeroRow(rate: real): VatRow { VatRow(rate, 0.0, 0.0, 0.0) }

  /** The template's rows: one zero row for 6 % and one for 25 %. */
  function TwoRates(): seq<VatRow> { [ZeroRow(6.0), ZeroRow(25.0)] }

  /** `OCR_CONFIG.DEFAULT_DATA`, with the clock reading `now` as its start and end. */
  function DefaultData(now: string): ExtractedData {
    ExtractedData(
      "000000-0000", "ABC123", "00000",
      now, now,
      0.0, 0.0, 0.0,
      "0000", "00000",
      0.0, 0.0, 0.0, 0.0, 0.0,
      Section(map["kontant" := 0.0], TwoRates()),
      Section(map["kredit" := 0.0], TwoRates()),
      Section(map["total_inkort" := 0.0], TwoRates()),
      Section(map[], [ZeroRow(25.0)]))
  }

  /** The characters `[^\d.-]` removed, then the first ',' (there is none left)
      turned into '.'. */
  function CleanNumber(s: string): string {
    ReplaceFirst(Keep(s, IsNumberChar), ",", ".")
  }

  /** `normalizeNumber`: a number that is not NaN as it is; a string through
      `parseFloat` after cleaning, unless that is NaN; 0 for everything else. */
  function NormalizeNumber(v: Value): (r: real)
    ensures v.Num? && v.num.Finite? ==> r == v.num.val
    ensures !v.Num? && !v.Str? ==> r == 0.0
    ensures v == Num(NaN) ==> r == 0.0
    ensures v.Str? && ParseFloat(CleanNumber(v.s)).NaN? ==> r == 0.0
  {
    if v.Num? && v.num.Finite? then v.num.val
    else if v.Str? then
      match ParseFloat(CleanNumber(v.s))
      case NaN => 0.0
      case Finite(x) => x
    else 0.0
  }

  /** On strings and on numbers other than NaN, `normalizeNumber` reads what
      the older VAT helper's `parseNumber` reads; NaN, which `parseNumber`
      passes through, becomes 0 here. */
  lemma NormalizeNumberAsParseNumber(v: Value)
    ensures v.Str? || (v.Num? && v.num.Finite?) ==> VatDetails.ParseNumber(v) == Finite(NormalizeNumber(v))
    ensures v == Num(NaN) ==> VatDetails.ParseNumber(v) == NaN && NormalizeNumber(v) == 0.0
  {
    if v.Str? {
      if v.s == "" {
        EmptyStringNumber();
      } else {
        StringNumber(v.s);
      }
    }
  }

  /** '' is falsy for `parseNumber`, and not a number for `parseFloat`. */
  lemma EmptyStringNumber()
    ensures VatDetails.ParseNumber(Str("")) == Finite(0.0)
    ensures NormalizeNumber(Str("")) == 0.0
  {
    assert CleanNumber("") == "" by {
      assert Keep("", IsNumberChar) == "";
    }
    ParseFloatNoDigit("");
  }

  /** A non-empty string is cleaned and parsed the same way by both. */
  lemma StringNumber(s: string)
    requires s != ""
    ensures VatDetails.ParseNumber(Str(s)) == Finite(NormalizeNumber(Str(s)))
  {
    var n := ParseFloat(CleanNumber(s));
    StrToStr(s);
    assert VatDetails.ParseNumber(Str(s)) == ParseFloatOrZero(CleanNumber(s));
    assert ParseFloatOrZero(CleanNumber(s)) == if n.NaN? then Finite(0.0) else n;
  }

  /** A decimal comma is lost: "12,50" reads as 1250. */
  lemma NormalizeNumberComma()
    ensures NormalizeNumber(Str("12,50")) == 1250.0
  {
    VatDetails.CommaExample();
    NormalizeNumberAsParseNumber(Str("12,50"));
  }

  /** Normalising a normalised number changes nothing. */
  lemma NormalizeNumberIdempotent(v: Value)
    ensures NormalizeNumber(N(NormalizeNumber(v))) == NormalizeNumber(v)
  {
  }

  /** `normalizeVatDetail`: a non-object becomes a zero 25 % row; otherwise each
      field is normalised and a zero rate becomes 25. */
  function NormalizeVatDetail(detail: Value): (r: VatRow)
    ensures !IsObject(detail) ==> r == ZeroRow(25.0)
    ensures r.moms_percentage != 0.0
    ensures IsObject(detail) ==>
      && r.brutto == NormalizeNumber(Get(detail, "brutto"))
      && r.netto == NormalizeNumber(Get(detail, "netto"))
      && r.moms_kr == NormalizeNumber(Get(detail, "moms_kr"))
    ensures IsObject(detail) && NormalizeNumber(Get(detail, "moms_percentage")) != 0.0 ==>
      r.moms_percentage == NormalizeNumber(Get(detail, "moms_percentage"))
  {
    if !Truthy(detail) || !IsObject(detail) then ZeroRow(25.0)
    else
      var rate := NormalizeNumber(Get(detail, "moms_percentage"));
      VatRow(
        if rate == 0.0 then 25.0 else rate,
        NormalizeNumber(Get(detail, "brutto")),
        NormalizeNumber(Get(detail, "netto")),
        NormalizeNumber(Get(detail, "moms_kr")))
  }

  /** A missing, zero or unreadable rate is read as 25 %. */
  lemma UnreadableRateIs25(detail: Value)
    requires IsObject(detail)
    requires var m := Get(detail, "moms_percentage");
      (!m.Num? && !m.Str?) || m == Num(NaN) || m == N(0.0) ||
      (m.Str? && ParseFloat(CleanNumber(m.s)).NaN?)
    ensures NormalizeVatDetail(detail).moms_percentage == 25.0
  {
  }

  /** `Array.isArray(x) && x.length > 0 ? x.map(normalizeVatDetail) : fallback` */
  function NormalizeRows(v: Value, fallback: seq<VatRow>): (r: seq<VatRow>)
    ensures !v.Arr? || v.items == [] ==> r == fallback
    ensures v.Arr? && v.items != [] ==> |r| == |v.items|
    ensures v.Arr? && v.items != [] ==> forall i :: 0 <= i < |r| ==> r[i] == NormalizeVatDetail(v.items[i])
  {
    if v.Arr? && |v.items| > 0 then
      seq(|v.items|, i requires 0 <= i < |v.items| => NormalizeVatDetail(v.items[i]))
    else fallback
  }

  /** No row a section ends up with has a zero rate, when its fallback has none. */
  predicate RatesSet(rows: seq<VatRow>) {
    forall i :: 0 <= i < |rows| ==> rows[i].moms_percentage != 0.0
  }

  lemma NormalizeRowsPopulated(v: Value, fallback: seq<VatRow>)
    ensures fallback != [] ==> NormalizeRows(v, fallback) != []
    ensures RatesSet(fallback) ==> RatesSet(NormalizeRows(v, fallback))
  {
  }

  /** `normalizeVatSection`: the section's amount (or the record's total when it
      has none) and its rows; a section that is not an object gets the total
      and the template's rows. Either way the section's only amount field is
      `amount`. */
  function NormalizeVatSection(section: Value, totalAmount: real, fallback: Section): (r: Section)
    ensures !IsObject(section) ==> r == Section(map["amount" := totalAmount], fallback.moms_details)
    ensures IsObject(section) ==> r.moms_details == NormalizeRows(Get(section, "moms_details"), fallback.moms_details)
  {
    if !Truthy(section) || !IsObject(section) then
      Section(map["amount" := totalAmount], fallback.moms_details)
    else
      Section(
        map["amount" := NormalizeNumber(Or(Get(section, "amount"), N(totalAmount)))],
        NormalizeRows(Get(section, "moms_details"), fallback.moms_details))
  }

  /** Either way the section's only amount field is `amount`. */
  lemma SectionAmountOnly(section: Value, totalAmount: real, fallback: Section, key: string)
    ensures key in NormalizeVatSection(section, totalAmount, fallback).amounts <==> key == "amount"
  {
  }

  /** A section without an amount of its own takes the record's total. */
  lemma SectionAmountFallback(section: Value, totalAmount: real, fallback: Section)
    requires !IsObject(section) || !Truthy(Get(section, "amount"))
    ensures NormalizeVatSection(section, totalAmount, fallback).amounts["amount"] == totalAmount
  {
  }

  /** `normalizeTotalInkort`: the template section when `details` is not an
      object, otherwise its normalised `total_inkort` and rows. */
  function NormalizeTotalInkort(details: Value, fallback: Section): (r: Section)
    ensures !IsObject(details) ==> r == fallback
    ensures IsObject(details) ==>
      && r.amounts == map["total_inkort" := NormalizeNumber(Get(details, "total_inkort"))]
      && r.moms_details == NormalizeRows(Get(details, "moms_details"), fallback.moms_details)
  {
    if !Truthy(details) || !IsObject(details) then fallback
    else
      Section(
        map["total_inkort" := NormalizeNumber(Get(details, "total_inkort"))],
        NormalizeRows(Get(details, "moms_details"), fallback.moms_details))
  }

  /** `normalizeBomDetails`: the template section when `details` is not an
      object, otherwise its rows and no amount. */
  function NormalizeBomDetails(details: Value, fallback: Section): (r: Section)
    ensures !IsObject(details) ==> r == fallback
    ensures IsObject(details) ==>
      r == Section(map[], NormalizeRows(Get(details, "moms_details"), fallback.moms_details))
  {
    if !Truthy(details) || !IsObject(details) then fallback
    else Section(map[], NormalizeRows(Get(details, "moms_details"), fallback.moms_details))
  }

  /** `String(data[key] || fallback).trim()` */
  function TextField(data: Value, key: string, fallback: string): (r: string)
    ensures IsTrimmed(r)
    ensures !Truthy(Get(data, key)) ==> r == Trim(fallback)
    ensures Get(data, key).Str? && Truthy(Get(data, key)) ==> r == Trim(Get(data, key).s)
  {
    Trim(ToStr(Or(Get(data, key), Str(fallback))))
  }

  /** `normalizeDateTime(data[first] || data[second] || fallback)` */
  function TimeField(data: Value, first: string, second: string, fallback: string): string {
    OcrUtils.NormalizedDateTime(Or(Get(data, first), Or(Get(data, second), Str(fallback))))
  }

  /** The record before its four sections are filled in: the template with
      every top-level field normalised. */
  function BaseFields(data: Value, now: string): ExtractedData {
    var d := DefaultData(now);
    d.(
      org_nr := TextField(data, "org_nr", d.org_nr),
      regnr := ToUpper(TextField(data, "regnr", d.regnr)),
      forarid := TextField(data, "forarid", d.forarid),
      start_time := TimeField(data, "starttid", "start_time", d.start_time),
      end_time := TimeField(data, "sluttid", "end_time", d.end_time),
      taxitrafik_km := NormalizeNumber(Get(data, "taxitrafik_km")),
      betalda_km := NormalizeNumber(Get(data, "betalda_km")),
      turer := NormalizeNumber(Get(data, "turer")),
      drosknr := TextField(data, "drosknr", d.drosknr),
      rapportnr := TextField(data, "rapportnr", d.rapportnr),
      lonegr_ex_moms := NormalizeNumber(Get(data, "lonegr_ex_moms")),
      kontant := NormalizeNumber(Get(data, "kontant")),
      drikskredit := NormalizeNumber(Get(data, "drikskredit")),
      att_redovisa := NormalizeNumber(Get(data, "att_redovisa")),
      total_kredit := NormalizeNumber(Get(data, "total_kredit")))
  }

  /** The four sections filled in on top of `b`; no top-level field changes. */
  function WithSections(b: ExtractedData, data: Value, now: string): (r: ExtractedData)
    ensures r.org_nr == b.org_nr && r.regnr == b.regnr && r.forarid == b.forarid
    ensures r.start_time == b.start_time && r.end_time == b.end_time
    ensures r.taxitrafik_km == b.taxitrafik_km && r.betalda_km == b.betalda_km && r.turer == b.turer
    ensures r.drosknr == b.drosknr && r.rapportnr == b.rapportnr
    ensures r.lonegr_ex_moms == b.lonegr_ex_moms && r.kontant == b.kontant && r.drikskredit == b.drikskredit
    ensures r.att_redovisa == b.att_redovisa && r.total_kredit == b.total_kredit
    ensures r.kontant_details ==
      NormalizeVatSection(Get(data, "kontant_details"), b.kontant, DefaultData(now).kontant_details)
    ensures r.kredit_details ==
      NormalizeVatSection(Get(data, "kredit_details"), b.total_kredit, DefaultData(now).kredit_details)
    ensures r.total_inkort_details ==
      NormalizeTotalInkort(Get(data, "total_inkort_details"), DefaultData(now).total_inkort_details)
    ensures r.varav_bom_avbest_details ==
      NormalizeBomDetails(Get(data, "varav_bom_avbest_details"), DefaultData(now).varav_bom_avbest_details)
  {
    var d := DefaultData(now);
    b.(
      kontant_details := NormalizeVatSection(Get(data, "kontant_details"), b.kontant, d.kontant_details),
      kredit_details := NormalizeVatSection(Get(data, "kredit_details"), b.total_kredit, d.kredit_details),
      total_inkort_details := NormalizeTotalInkort(Get(data, "total_inkort_details"), d.total_inkort_details),
      varav_bom_avbest_details := NormalizeBomDetails(Get(data, "varav_bom_avbest_details"), d.varav_bom_avbest_details))
  }

  /** What `normalizeOcrData` returns. A falsy or non-object argument gives the
      template. The catch branch, which also gives the template, is not reached:
      nothing in the body throws on a JSON value. */
  function NormalizedOcr(data: Value, now: string): (r: ExtractedData)
    ensures !IsObject(data) ==> r == DefaultData(now)
  {
    if !Truthy(data) || !IsObject(data) then DefaultData(now)
    else WithSections(BaseFields(data, now), data, now)
  }

  /** `normalizeOcrData`, which builds the top-level fields and then assigns the
      four sections one after the other. */
  method NormalizeOcrData(data: Value, now: string) returns (r: ExtractedData)
    ensures r == NormalizedOcr(data, now)
  {
    if !Truthy(data) || !IsObject(data) {
      return DefaultData(now);
    }
    var defaults := DefaultData(now);
    var normalized := BaseFields(data, now);
    normalized := normalized.(kontant_details :=
      NormalizeVatSection(Get(data, "kontant_details"), normalized.kontant, defaults.kontant_details));
    normalized := normalized.(kredit_details :=
      NormalizeVatSection(Get(data, "kredit_details"), normalized.total_kredit, defaults.kredit_details));
    normalized := normalized.(total_inkort_details :=
      NormalizeTotalInkort(Get(data, "total_inkort_details"), defaults.total_inkort_details));
    normalized := normalized.(varav_bom_avbest_details :=
      NormalizeBomDetails(Get(data, "varav_bom_avbest_details"), defaults.varav_bom_avbest_details));
    return normalized;
  }

  /** The top-level fields of the result of an object argument are those of
      `BaseFields`: filling in the sections touches none of them. */
  lemma TopLevelOf(data: Value, now: string)
    requires IsObject(data)
    ensures var r := NormalizedOcr(data, now);
      var b := BaseFields(data, now);
      && r.org_nr == b.org_nr && r.regnr == b.regnr && r.forarid == b.forarid
      && r.taxitrafik_km == b.taxitrafik_km && r.betalda_km == b.betalda_km && r.turer == b.turer
      && r.drosknr == b.drosknr && r.rapportnr == b.rapportnr
      && r.lonegr_ex_moms == b.lonegr_ex_moms && r.kontant == b.kontant && r.drikskredit == b.drikskredit
      && r.att_redovisa == b.att_redovisa && r.total_kredit == b.total_kredit
  {
  }

  /** Likewise the start and end times. */
  lemma TimesOf(data: Value, now: string)
    requires IsObject(data)
    ensures var r := NormalizedOcr(data, now);
      var b := BaseFields(data, now);
      r.start_time == b.start_time && r.end_time == b.end_time
  {
  }

  /** The text fields come out trimmed and `regnr` in upper case. */
  lemma TextFieldsTrimmed(data: Value, now: string)
    ensures var r := NormalizedOcr(data, now);
      && IsTrimmed(r.org_nr) && IsTrimmed(r.regnr) && IsTrimmed(r.forarid)
      && IsTrimmed(r.drosknr) && IsTrimmed(r.rapportnr)
      && NoAsciiLower(r.regnr)
  {
    if IsObject(data) {
      TextOf(data, now);
      var t := TextField(data, "regnr", "ABC123");
      ToUpperKeepsTrimmed(t);
      ToUpperNoAsciiLower(t);
    } else {
      TemplateText();
    }
  }

  /** The text fields of the result of an object argument. */
  lemma TextOf(data: Value, now: string)
    requires IsObject(data)
    ensures var r := NormalizedOcr(data, now);
      && r.org_nr == TextField(data, "org_nr", "000000-0000")
      && r.regnr == ToUpper(TextField(data, "regnr", "ABC123"))
      && r.forarid == TextField(data, "forarid", "00000")
      && r.drosknr == TextField(data, "drosknr", "0000")
      && r.rapportnr == TextField(data, "rapportnr", "00000")
  {
    TopLevelOf(data, now);
  }

  /** The template's text fields are trimmed, and `regnr` is upper case. */
  lemma TemplateText()
    ensures IsTrimmed("000000-0000") && IsTrimmed("ABC123") && IsTrimmed("00000") && IsTrimmed("0000")
    ensures NoAsciiLower("ABC123") && ToUpper("ABC123") == "ABC123"
  {
    ToUpperFixed("ABC123");
  }

  /** A falsy text field takes the template's value. */
  lemma TextFieldsFallback(data: Value, now: string)
    ensures var r := NormalizedOcr(data, now);
      && (!Truthy(Get(data, "org_nr")) ==> r.org_nr == "000000-0000")
      && (!Truthy(Get(data, "regnr")) ==> r.regnr == "ABC123")
      && (!Truthy(Get(data, "forarid")) ==> r.forarid == "00000")
      && (!Truthy(Get(data, "drosknr")) ==> r.drosknr == "0000")
      && (!Truthy(Get(data, "rapportnr")) ==> r.rapportnr == "00000")
  {
    TemplateText();
    if IsObject(data) {
      TextOf(data, now);
    }
  }

  /** Start and end come from `starttid`/`sluttid`, else `start_time`/`end_time`,
      else the template, through `normalizeDateTime`; each is '', canonical, or
      day-first. */
  lemma TimesNormalised(data: Value, now: string)
    requires IsObject(data)
    ensures NormalizedOcr(data, now).start_time ==
      OcrUtils.NormalizedDateTime(Or(Get(data, "starttid"), Or(Get(data, "start_time"), Str(now))))
    ensures NormalizedOcr(data, now).end_time ==
      OcrUtils.NormalizedDateTime(Or(Get(data, "sluttid"), Or(Get(data, "end_time"), Str(now))))
    ensures var t := NormalizedOcr(data, now).start_time;
      t == "" || DateTime.IsCanonical(t) || OcrUtils.IsDayFirst(t)
    ensures var t := NormalizedOcr(data, now).end_time;
      t == "" || DateTime.IsCanonical(t) || OcrUtils.IsDayFirst(t)
  {
    TimesOf(data, now);
    OcrUtils.NormalizedShape(Or(Get(data, "starttid"), Or(Get(data, "start_time"), Str(now))));
    OcrUtils.NormalizedShape(Or(Get(data, "sluttid"), Or(Get(data, "end_time"), Str(now))));
  }

  /** A section with rows, none of them at a zero rate. */
  predicate Populated(s: Section) {
    s.moms_details != [] && RatesSet(s.moms_details)
  }

  /** Every section of the result has rows, and none of them a zero rate. */
  lemma SectionsPopulated(data: Value, now: string)
    ensures var r := NormalizedOcr(data, now);
      && Populated(r.kontant_details) && Populated(r.kredit_details)
      && Populated(r.total_inkort_details) && Populated(r.varav_bom_avbest_details)
  {
    if IsObject(data) {
      FilledPopulated(BaseFields(data, now), data, now);
    } else {
      assert RatesSet(TwoRates());
      assert RatesSet([ZeroRow(25.0)]);
    }
  }

  /** Filling the sections in gives each of them rows at non-zero rates. */
  lemma FilledPopulated(b: ExtractedData, data: Value, now: string)
    ensures var r := WithSections(b, data, now);
      && Populated(r.kontant_details) && Populated(r.kredit_details)
      && Populated(r.total_inkort_details) && Populated(r.varav_bom_avbest_details)
  {
    assert RatesSet(TwoRates());
    assert RatesSet([ZeroRow(25.0)]);
    NormalizeRowsPopulated(Get(Get(data, "kontant_details"), "moms_details"), TwoRates());
    NormalizeRowsPopulated(Get(Get(data, "kredit_details"), "moms_details"), TwoRates());
    NormalizeRowsPopulated(Get(Get(data, "total_inkort_details"), "moms_details"), TwoRates());
    NormalizeRowsPopulated(Get(Get(data, "varav_bom_avbest_details"), "moms_details"), [ZeroRow(25.0)]);
  }

  /** The cash section of the result of an object argument: the section's own
      amount, or else the top-level `kontant`, and its rows. */
  lemma CashSectionOf(data: Value, now: string)
    requires IsObject(data)
    ensures NormalizedOcr(data, now).kontant_details ==
      NormalizeVatSection(Get(data, "kontant_details"), NormalizeNumber(Get(data, "kontant")), DefaultData(now).kontant_details)
  {
  }

  /** The credit section, which falls back to `total_kredit`. */
  lemma CreditSectionOf(data: Value, now: string)
    requires IsObject(data)
    ensures NormalizedOcr(data, now).kredit_details ==
      NormalizeVatSection(Get(data, "kredit_details"), NormalizeNumber(Get(data, "total_kredit")), DefaultData(now).kredit_details)
  {
  }

  /** The card-total and no-show sections. */
  lemma OtherSectionsOf(data: Value, now: string)
    requires IsObject(data)
    ensures NormalizedOcr(data, now).total_inkort_details ==
      NormalizeTotalInkort(Get(data, "total_inkort_details"), DefaultData(now).total_inkort_details)
    ensures NormalizedOcr(data, now).varav_bom_avbest_details ==
      NormalizeBomDetails(Get(data, "varav_bom_avbest_details"), DefaultData(now).varav_bom_avbest_details)
  {
  }

  /** A normalised cash or credit section keeps its amount under `amount`, so
      the template's `kontant` and `kredit` keys are gone from it. */
  lemma SectionKeysRenamed(data: Value, now: string)
    requires IsObject(data)
    ensures "kontant" !in NormalizedOcr(data, now).kontant_details.amounts
    ensures "kredit" !in NormalizedOcr(data, now).kredit_details.amounts
    ensures "kontant" in DefaultData(now).kontant_details.amounts
    ensures "kredit" in DefaultData(now).kredit_details.amounts
  {
    CashSectionOf(data, now);
    CreditSectionOf(data, now);
    SectionAmountOnly(Get(data, "kontant_details"), NormalizeNumber(Get(data, "kontant")), DefaultData(now).kontant_details, "kontant");
    SectionAmountOnly(Get(data, "kredit_details"), NormalizeNumber(Get(data, "total_kredit")), DefaultData(now).kredit_details, "kredit");
    assert "kontant" != "amount" && "kredit" != "amount";
  }

  /** The numeric fields copy numbers as they are and read 0 for anything that
      is neither a number nor a string. */
  lemma NumbersNormalised(data: Value, now: string, key: string)
    requires IsObject(data)
    requires key in {"taxitrafik_km", "betalda_km", "turer", "lonegr_ex_moms", "kontant",
                     "drikskredit", "att_redovisa", "total_kredit"}
    ensures var r := NormalizedOcr(data, now);
      var x := NumberField(r, key);
      && (Get(data, key).Num? && Get(data, key).num.Finite? ==> x == Get(data, key).num.val)
      && (!Get(data, key).Num? && !Get(data, key).Str? ==> x == 0.0)
  {
    TopLevelOf(data, now);
  }

  /** The top-level numeric field named `key`. */
  function NumberField(r: ExtractedData, key: string): real {
    match key
    case "taxitrafik_km" => r.taxitrafik_km
    case "betalda_km" => r.betalda_km
    case "turer" => r.turer
    case "lonegr_ex_moms" => r.lonegr_ex_moms
    case "kontant" => r.kontant
    case "drikskredit" => r.drikskredit
    case "att_redovisa" => r.att_redovisa
    case _ => r.total_kredit
  }
}
