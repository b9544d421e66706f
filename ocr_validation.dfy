/** The checks the OCR service runs on an extracted record before showing it
    (src/services/ocr/validation.ts). Exceptions raised while reading the
    record are caught and reported as an invalid result carrying the
    runtime's message. */
module OcrValidation {
  import opened Js
  import DateTime

  /** `ValidationResult`; `missingFields` is absent on success and after an
      exception. */
  datatype ValidationResult = ValidationResult(isValid: bool, message: string, missingFields: Option<seq<string>>)

  function RequiredFields(): seq<string> {
    ["org_nr", "regnr", "forarid", "start_time", "end_time",
     "taxitrafik_km", "betalda_km", "turer", "drosknr", "rapportnr"]
  }

  function NumericFields(): seq<string> { ["taxitrafik_km", "betalda_km", "turer", "lonegr_ex_moms"] }

  function DateFields(): seq<string> { ["start_time", "end_time"] }

  const VALID_MESSAGE := "All data är giltig"

  /** `typeof v === 'number' && !isNaN(v)` */
  predicate IsNumber(v: Value) { v.Num? && v.num.Finite? }

  /** `/^\d{4}-\d{2}-\d{2} \d{2}:\d{2}$/.test(v)`, which reads `v` as a string. */
  predicate IsDateText(v: Value) { DateTime.IsCanonical(ToStr(v)) }

  /** `fields.filter(field => !data[field])` */
  function Falsy(data: Value, fields: seq<string>): (r: seq<string>)
    ensures |r| <= |fields|
    ensures forall f :: f in r <==> f in fields && !Truthy(Get(data, f))
    ensures r == [] <==> forall f :: f in fields ==> Truthy(Get(data, f))
  {
    if fields == [] then []
    else (if Truthy(Get(data, fields[0])) then [] else [fields[0]]) + Falsy(data, fields[1..])
  }

  /** The first of `fields` whose value fails `ok`, as a for-of loop with an
      early return finds it. */
  function FirstFailing(data: Value, fields: seq<string>, ok: Value -> bool): (r: Option<string>)
    ensures r.None? <==> forall f :: f in fields ==> ok(Get(data, f))
    ensures r.Some? ==> r.value in fields && !ok(Get(data, r.value))
  {
    if fields == [] then None
    else if !ok(Get(data, fields[0])) then Some(fields[0])
    else
      assert forall f :: f in fields <==> f == fields[0] || f in fields[1..];
      FirstFailing(data, fields[1..], ok)
  }

  /** The field reported is the first that fails. */
  lemma {:induction false} FirstFailingIsFirst(data: Value, fields: seq<string>, ok: Value -> bool, i: nat)
    requires i < |fields| && !ok(Get(data, fields[i]))
    requires forall j :: 0 <= j < i ==> ok(Get(data, fields[j]))
    ensures FirstFailing(data, fields, ok) == Some(fields[i])
  {
    if i > 0 {
      assert forall j :: 0 <= j < i - 1 ==> fields[1..][j] == fields[j + 1];
      FirstFailingIsFirst(data, fields[1..], ok, i - 1);
    }
  }

  /** `validateVatDetail`: all four fields are numbers other than NaN. Reading
      a field of null or undefined throws. */
  function ValidateVatDetail(detail: Value): (r: Completion<bool>)
    ensures r.Throws? <==> detail.Undefined? || detail.Null?
    ensures r.Returns? ==> (r.value <==>
      && IsNumber(Get(detail, "moms_percentage")) && IsNumber(Get(detail, "brutto"))
      && IsNumber(Get(detail, "netto")) && IsNumber(Get(detail, "moms_kr")))
  {
    if detail.Undefined? || detail.Null? then Throws(ReadError(detail, "moms_percentage"))
    else Returns(
      && IsNumber(Get(detail, "moms_percentage")) && IsNumber(Get(detail, "brutto"))
      && IsNumber(Get(detail, "netto")) && IsNumber(Get(detail, "moms_kr")))
  }

  /** The for-of loop over an array of rows: false at the first invalid row,
      the exception of the first row that throws, true when every row passes. */
  function RowsValid(rows: seq<Value>): (r: Completion<bool>)
    ensures r == Returns(true) <==> forall i :: 0 <= i < |rows| ==> ValidateVatDetail(rows[i]) == Returns(true)
  {
    if rows == [] then Returns(true)
    else match ValidateVatDetail(rows[0])
      case Throws(m) => Throws(m)
      case Returns(ok) =>
        if !ok then Returns(false)
        else
          assert forall i :: 1 <= i < |rows| ==> rows[1..][i - 1] == rows[i];
          RowsValid(rows[1..])
  }

  /** `if (data[key]?.moms_details) for (const detail of ...) ...`: only a
      truthy `moms_details` is walked. A string is walked character by
      character (a character has no number fields), and any other
      non-array value is not iterable. */
  function SectionValid(data: Value, key: string): (r: Completion<bool>)
    ensures !Truthy(Get(Get(data, key), "moms_details")) ==> r == Returns(true)
    ensures Get(Get(data, key), "moms_details").Arr? ==> r == RowsValid(Get(Get(data, key), "moms_details").items)
  {
    var rows := Get(Get(data, key), "moms_details");
    if !Truthy(rows) then Returns(true)
    else match rows
      case Arr(items) => RowsValid(items)
      case Str(_) => Returns(false)
      case _ => Throws("data." + key + ".moms_details is not iterable")
  }

  /** `validateExtractedData`: required fields, then numbers, then dates, then
      the cash rows, then the credit rows, each check returning at its first
      failure. */
  function ValidatedExtracted(data: Value): (r: ValidationResult)
    ensures r.isValid <==> r == ValidationResult(true, VALID_MESSAGE, None)
  {
    if data.Undefined? || data.Null? then
      ValidationResult(false, ReadError(data, "org_nr"), None)
    else
      Verdict(
        Falsy(data, RequiredFields()),
        FirstFailing(data, NumericFields(), IsNumber),
        FirstFailing(data, DateFields(), IsDateText),
        SectionValid(data, "kontant_details"),
        SectionValid(data, "kredit_details"))
  }

  /** The result built from the outcome of each check, in the order the
      checks run. */
  function Verdict(missing: seq<string>, badNumber: Option<string>, badDate: Option<string>,
                   cash: Completion<bool>, credit: Completion<bool>): (r: ValidationResult)
    ensures r.isValid <==> missing == [] && badNumber.None? && badDate.None? && cash == Returns(true) && credit == Returns(true)
  {
    if |missing| > 0 then
      ValidationResult(false, "Saknade obligatoriska fält: " + Join(missing, ", "), Some(missing))
    else match badNumber
      case Some(f) =>
        ValidationResult(false, "Ogiltigt värde för " + f + ": måste vara ett nummer", Some([f]))
      case None => match badDate
        case Some(f) => ValidationResult(false, "Ogiltigt datumformat för " + f, Some([f]))
        case None => match cash
          case Throws(m) => ValidationResult(false, m, None)
          case Returns(false) =>
            ValidationResult(false, "Ogiltiga momsdetaljer för kontant", Some(["kontant_details"]))
          case Returns(true) => match credit
            case Throws(m) => ValidationResult(false, m, None)
            case Returns(false) =>
              ValidationResult(false, "Ogiltiga momsdetaljer för kredit", Some(["kredit_details"]))
            case Returns(true) => ValidationResult(true, VALID_MESSAGE, None)
  }

  /** What a record must satisfy to pass: every required field truthy, the
      four numeric fields numbers, both times canonical, and every cash and
      credit row valid. */
  predicate Acceptable(data: Value) {
    && !data.Undefined? && !data.Null?
    && (forall f :: f in RequiredFields() ==> Truthy(Get(data, f)))
    && (forall f :: f in NumericFields() ==> IsNumber(Get(data, f)))
    && (forall f :: f in DateFields() ==> IsDateText(Get(data, f)))
    && SectionValid(data, "kontant_details") == Returns(true)
    && SectionValid(data, "kredit_details") == Returns(true)
  }

  /** A record passes exactly when it is acceptable. */
  lemma ValidIffAcceptable(data: Value)
    ensures ValidatedExtracted(data).isValid <==> Acceptable(data)
  {
  }

  /** Every falsy required field is reported, together, in one result; a
      numeric zero such as `turer` = 0 counts as missing. */
  lemma MissingReportedTogether(data: Value, f: string)
    requires !data.Undefined? && !data.Null?
    requires f in RequiredFields() && !Truthy(Get(data, f))
    ensures var r := ValidatedExtracted(data);
      && !r.isValid && r.missingFields == Some(Falsy(data, RequiredFields()))
      && f in r.missingFields.value
  {
  }

  /** When the required fields are present, the first field that is not a
      number is reported alone, before any date or VAT check. */
  lemma NumberReportedAlone(data: Value, i: nat)
    requires !data.Undefined? && !data.Null?
    requires forall f :: f in RequiredFields() ==> Truthy(Get(data, f))
    requires i < |NumericFields()| && !IsNumber(Get(data, NumericFields()[i]))
    requires forall j :: 0 <= j < i ==> IsNumber(Get(data, NumericFields()[j]))
    ensures ValidatedExtracted(data).missingFields == Some([NumericFields()[i]])
  {
    FirstFailingIsFirst(data, NumericFields(), IsNumber, i);
  }

  /** Records that agree on the checked keys get the same verdict. */
  lemma {:induction false} FalsyAgree(a: Value, b: Value, fields: seq<string>)
    requires forall f :: f in fields ==> Get(a, f) == Get(b, f)
    ensures Falsy(a, fields) == Falsy(b, fields)
  {
    if fields != [] {
      FalsyAgree(a, b, fields[1..]);
    }
  }

  lemma {:induction false} FirstFailingAgree(a: Value, b: Value, fields: seq<string>, ok: Value -> bool)
    requires forall f :: f in fields ==> Get(a, f) == Get(b, f)
    ensures FirstFailing(a, fields, ok) == FirstFailing(b, fields, ok)
  {
    if fields != [] {
      FirstFailingAgree(a, b, fields[1..], ok);
    }
  }

  /** A key that none of the checks reads does not change the verdict. */
  lemma UncheckedKey(m: map<string, Value>, k: string, v: Value)
    requires k !in RequiredFields() && k !in NumericFields() && k !in DateFields()
    requires k != "kontant_details" && k != "kredit_details"
    ensures ValidatedExtracted(Obj(m[k := v])) == ValidatedExtracted(Obj(m))
  {
    var a := Obj(m[k := v]);
    var b := Obj(m);
    AgreeOn(m, k, v, RequiredFields());
    FalsyAgree(a, b, RequiredFields());
    AgreeOn(m, k, v, NumericFields());
    FirstFailingAgree(a, b, NumericFields(), IsNumber);
    AgreeOn(m, k, v, DateFields());
    FirstFailingAgree(a, b, DateFields(), IsDateText);
    SectionsAgree(m, k, v);
    SameVerdict(a, b);
  }

  lemma AgreeOn(m: map<string, Value>, k: string, v: Value, fields: seq<string>)
    requires k !in fields
    ensures forall f :: f in fields ==> Get(Obj(m[k := v]), f) == Get(Obj(m), f)
  {
  }

  lemma SectionsAgree(m: map<string, Value>, k: string, v: Value)
    requires k != "kontant_details" && k != "kredit_details"
    ensures SectionValid(Obj(m[k := v]), "kontant_details") == SectionValid(Obj(m), "kontant_details")
    ensures SectionValid(Obj(m[k := v]), "kredit_details") == SectionValid(Obj(m), "kredit_details")
  {
    AgreeOn(m, k, v, ["kontant_details", "kredit_details"]);
  }

  lemma SameVerdict(a: Value, b: Value)
    requires a.Obj? && b.Obj?
    requires Falsy(a, RequiredFields()) == Falsy(b, RequiredFields())
    requires FirstFailing(a, NumericFields(), IsNumber) == FirstFailing(b, NumericFields(), IsNumber)
    requires FirstFailing(a, DateFields(), IsDateText) == FirstFailing(b, DateFields(), IsDateText)
    requires SectionValid(a, "kontant_details") == SectionValid(b, "kontant_details")
    requires SectionValid(a, "kredit_details") == SectionValid(b, "kredit_details")
    ensures ValidatedExtracted(a) == ValidatedExtracted(b)
  {
  }

  /** The total-inkört and BOM sections are never looked at: replacing either
      leaves the verdict unchanged. */
  lemma UncheckedSections(m: map<string, Value>, k: string, v: Value)
    requires k == "total_inkort_details" || k == "varav_bom_avbest_details"
    ensures ValidatedExtracted(Obj(m[k := v])) == ValidatedExtracted(Obj(m))
  {
    UncheckedKey(m, k, v);
  }

  // ---------------------------------------------------------------------------
  // validateJsonResponse

  /** The position of the first `c` in `s`, if any. */
  function IndexOf(s: string, c: char): (r: Option<nat>)
    ensures r.None? <==> c !in s
    ensures r.Some? ==> r.value < |s| && s[r.value] == c && c !in s[..r.value]
  {
    if s == [] then None
    else if s[0] == c then Some(0)
    else match IndexOf(s[1..], c)
      case None => None
      case Some(i) =>
        assert s[..i + 1] == [s[0]] + s[1..][..i];
        Some(i + 1)
  }

  /** The position of the last `c` in `s`, if any. */
  function LastIndexOf(s: string, c: char): (r: Option<nat>)
    ensures r.None? <==> c !in s
    ensures r.Some? ==> r.value < |s| && s[r.value] == c && c !in s[r.value + 1..]
  {
    if s == [] then None
    else if s[|s| - 1] == c then Some(|s| - 1)
    else match LastIndexOf(s[..|s| - 1], c)
      case None => None
      case Some(i) =>
        assert s[i + 1..] == s[..|s| - 1][i + 1..] + [s[|s| - 1]];
        Some(i)
  }

  /** `s.match(/\{[\s\S]*\}/)`: the leftmost, greedy match runs from the
      first '{' of `s` to the last '}' of `s`, when that one comes later. */
  function BraceSpan(s: string): (r: Option<string>)
    ensures r.Some? ==> |r.value| >= 2 && r.value[0] == '{' && r.value[|r.value| - 1] == '}'
    ensures r.Some? ==> exists i, j :: 0 <= i < j <= |s| && r.value == s[i..j]
    ensures r.None? <==> forall i, j :: 0 <= i < j < |s| ==> !(s[i] == '{' && s[j] == '}')
    ensures r.Some? ==>
      && IndexOf(s, '{').Some? && LastIndexOf(s, '}').Some?
      && IndexOf(s, '{').value < LastIndexOf(s, '}').value
      && r.value == s[IndexOf(s, '{').value..LastIndexOf(s, '}').value + 1]
  {
    match IndexOf(s, '{')
    case None => None
    case Some(i) =>
      match LastIndexOf(s, '}')
      case None => None
      case Some(j) =>
        if i < j then Some(s[i..j + 1])
        else None
  }

  /** `validateJsonResponse`, with `JSON.parse` given as the predicate
      `parses`: true exactly when a braced span exists and parses. */
  function ValidateJsonResponse(response: string, parses: string -> bool): (r: bool)
    ensures r <==> BraceSpan(response).Some? && parses(BraceSpan(response).value)
  {
    match BraceSpan(response)
    case None => false
    case Some(span) => parses(span)
  }
}
