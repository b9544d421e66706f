/** `shiftSchema` of src/services/validation/shiftValidation.ts: the shift
    record as stored, with no coercion. Text fields must be non-empty strings,
    numeric fields non-negative numbers, and the four VAT sections are
    optional objects holding arrays of VAT details. */
module ShiftValidation {
  import opened Js
  import Zod

  /** The top-level fields, in declaration order. */
  function Shape(): seq<(string, Zod.Kind)> {
    [("org_nr", Zod.NonEmptyText), ("regnr", Zod.NonEmptyText), ("forarid", Zod.NonEmptyText),
     ("start_time", Zod.NonEmptyText), ("end_time", Zod.NonEmptyText),
     ("taxitrafik_km", Zod.NonNegative), ("betalda_km", Zod.NonNegative), ("turer", Zod.NonNegative),
     ("drosknr", Zod.NonEmptyText), ("rapportnr", Zod.NonEmptyText),
     ("kontant", Zod.NonNegative), ("total_kredit", Zod.NonNegative), ("drikskredit", Zod.NonNegative),
     ("att_redovisa", Zod.NonNegative), ("lonegr_ex_moms", Zod.NonNegative)]
  }

  /** The optional VAT sections, in declaration order. */
  function Sections(): seq<string> {
    ["kontant_details", "kredit_details", "total_inkort_details", "varav_bom_avbest_details"]
  }

  /** The scalar fields of a section besides its `moms_details`. */
  function SectionShape(key: string): seq<(string, Zod.Kind)> {
    if key == "total_inkort_details" then [("total_inkort", Zod.NonNegative)] else []
  }

  /** A section passes when it is absent, or an object whose scalar fields
      pass and whose `moms_details` is an array of passing details. */
  predicate SectionValid(data: Value, key: string) {
    var sec := Get(data, key);
    sec.Undefined? ||
    (Zod.Conforms(sec, SectionShape(key)) &&
     Get(sec, "moms_details").Arr? &&
     forall i :: 0 <= i < |Get(sec, "moms_details").items| ==>
       Zod.Conforms(Get(sec, "moms_details").items[i], Zod.MomsDetailShape()))
  }

  /** The failing paths of one optional section. */
  function SectionIssues(data: Value, key: string): (r: seq<string>)
    ensures r == [] <==> SectionValid(data, key)
  {
    var sec := Get(data, key);
    if sec.Undefined? then []
    else if !sec.Obj? then [key]
    else
      Zod.Prefixed(key, Zod.Issues(sec, SectionShape(key))) +
      Zod.ArrayIssues(Zod.Sub(key, "moms_details"), Get(sec, "moms_details"), Zod.MomsDetailShape())
  }

  /** All four optional sections pass. */
  predicate SectionsValid(data: Value) {
    SectionValid(data, "kontant_details") && SectionValid(data, "kredit_details") &&
    SectionValid(data, "total_inkort_details") && SectionValid(data, "varav_bom_avbest_details")
  }

  /** Every failing path, in the schema's order. */
  function ShiftIssues(data: Value): (r: seq<string>)
    ensures r == [] <==> data.Obj? && Zod.Issues(data, Shape()) == [] && SectionsValid(data)
  {
    if !data.Obj? then [""]
    else
      Zod.Issues(data, Shape()) + SectionIssues(data, "kontant_details") + SectionIssues(data, "kredit_details") +
      SectionIssues(data, "total_inkort_details") + SectionIssues(data, "varav_bom_avbest_details")
  }

  /** A VAT detail as parsed: only its four fields. */
  function StripDetail(v: Value): Value {
    Obj(Zod.Stripped(v, Zod.MomsDetailShape()))
  }

  /** A section as parsed: its scalar fields and its stripped details. */
  function StripSection(key: string, sec: Value): Value
    requires Get(sec, "moms_details").Arr?
  {
    var items := Get(sec, "moms_details").items;
    Obj(Zod.Stripped(sec, SectionShape(key))["moms_details" := Arr(seq(|items|, i requires 0 <= i < |items| => StripDetail(items[i])))])
  }

  /** `m` with the parsed section `key` added when the input has it. */
  function WithSection(m: map<string, Value>, data: Value, key: string): (r: map<string, Value>)
    requires SectionValid(data, key)
    ensures forall k :: k in r <==> k in m || (k == key && !Get(data, key).Undefined?)
    ensures forall k :: k in m && k != key ==> r[k] == m[k]
  {
    if Get(data, key).Undefined? then m else m[key := StripSection(key, Get(data, key))]
  }

  /** The parsed shift: the declared fields only, unknown keys dropped. */
  function Parsed(data: Value): Value
    requires SectionsValid(data)
  {
    Obj(WithSection(WithSection(WithSection(WithSection(Zod.Stripped(data, Shape()),
      data, "kontant_details"), data, "kredit_details"), data, "total_inkort_details"), data, "varav_bom_avbest_details"))
  }

  /** `validateShiftData`: the parsed value, or zod's rejection. */
  function ValidateShiftData(data: Value): (r: Zod.Outcome<Value>)
    ensures !r.Thrown?
    ensures r.Valid? <==> (data.Obj? && Zod.Issues(data, Shape()) == [] && SectionsValid(data))
  {
    var issues := ShiftIssues(data);
    if issues != [] then Zod.Rejected(issues) else Zod.Valid(Parsed(data))
  }

  // ---------------------------------------------------------------------------
  // Properties

  /** Without any VAT section, only the top-level fields decide. */
  lemma SectionsOptional(data: Value)
    requires data.Obj? && forall k :: k in Sections() ==> k !in data.fields
    ensures ValidateShiftData(data).Valid? <==> Zod.Issues(data, Shape()) == []
  {
  }

  /** A negative amount in any VAT detail of a present section rejects the shift. */
  lemma NegativeDetailRejected(data: Value, key: string, i: nat, field: string)
    requires key in Sections()
    requires Get(data, key).Obj? && Get(Get(data, key), "moms_details").Arr?
    requires i < |Get(Get(data, key), "moms_details").items|
    requires field in Zod.Keys(Zod.MomsDetailShape())
    requires var d := Get(Get(data, key), "moms_details").items[i];
      d.Obj? && Get(d, field).Num? && Get(d, field).num.Finite? && Get(d, field).num.val < 0.0
    ensures ValidateShiftData(data).Rejected?
  {
    var d := Get(Get(data, key), "moms_details").items[i];
    var j :| 0 <= j < 4 && Zod.MomsDetailShape()[j].0 == field;
    assert !Zod.Accepts(Zod.MomsDetailShape()[j].1, Get(d, field));
    assert !SectionValid(data, key);
    assert !SectionsValid(data);
  }

  /** Numbers are not coerced: a numeric field holding a numeric string fails. */
  lemma NumericTextRejected(data: Value, s: string)
    requires data.Obj? && Get(data, "turer") == Str(s)
    ensures ValidateShiftData(data).Rejected?
  {
    Zod.FieldReported(data, Shape(), 7);
  }

  /** A valid shift keeps every declared field as given and nothing else;
      each VAT section it has is kept as parsed, its scalar fields and its
      details reduced to their declared fields. */
  lemma ParsedKeepsFields(data: Value)
    requires ValidateShiftData(data).Valid?
    ensures var p := ValidateShiftData(data).value;
      && p.Obj?
      && (forall k :: k in Zod.Keys(Shape()) && k in data.fields ==> k in p.fields && p.fields[k] == data.fields[k])
      && (forall k :: k in p.fields ==> k in Zod.Keys(Shape()) || k in Sections())
  {
  }

  /** No VAT section shares its key with a top-level field: every field name
      is shorter than 14 characters or starts with 'l', and no section's is. */
  lemma SectionsNotFields(k: string)
    requires k in Sections()
    ensures k !in Zod.Keys(Shape())
  {
    var shape := Shape();
    forall i | 0 <= i < |shape|
      ensures |shape[i].0| < 14 || shape[i].0[0] == 'l'
    {
      if i < 5 {
      } else if i < 10 {
      } else {
      }
    }
  }

  /** The parsed shift holds a VAT section exactly when the input has one,
      and then holds it as parsed. */
  lemma ParsedSectionOf(data: Value, k: string)
    requires SectionsValid(data)
    requires k in Sections()
    ensures var p := Parsed(data);
      && (k in p.fields <==> !Get(data, k).Undefined?)
      && (k in p.fields ==>
            Get(Get(data, k), "moms_details").Arr? && p.fields[k] == StripSection(k, Get(data, k)))
  {
    SectionsNotFields(k);
    var m0 := Zod.Stripped(data, Shape());
    assert k !in m0;
    var m1 := WithSection(m0, data, "kontant_details");
    var m2 := WithSection(m1, data, "kredit_details");
    var m3 := WithSection(m2, data, "total_inkort_details");
    var m4 := WithSection(m3, data, "varav_bom_avbest_details");
    assert Parsed(data) == Obj(m4);
    var sec := Get(data, k);
    if k == "kontant_details" {
      assert k in m1 ==> m1[k] == StripSection(k, sec);
      assert k in m1 ==> m4[k] == m1[k];
    } else if k == "kredit_details" {
      assert k in m2 ==> m2[k] == StripSection(k, sec);
      assert k in m2 ==> m4[k] == m2[k];
    } else if k == "total_inkort_details" {
      assert k in m3 ==> m3[k] == StripSection(k, sec);
      assert k in m3 ==> m4[k] == m3[k];
    }
  }

  /** A valid shift holds a VAT section exactly when the input has one, and
      then holds it as parsed: its scalar fields and its details reduced to
      their declared fields. */
  lemma ParsedSection(data: Value, k: string)
    requires ValidateShiftData(data).Valid?
    requires k in Sections()
    ensures var p := ValidateShiftData(data).value;
      && p.Obj?
      && (k in p.fields <==> !Get(data, k).Undefined?)
      && (k in p.fields ==>
            Get(Get(data, k), "moms_details").Arr? && p.fields[k] == StripSection(k, Get(data, k)))
  {
    assert ValidateShiftData(data).value == Parsed(data);
    ParsedSectionOf(data, k);
  }
}
