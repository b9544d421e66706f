/** The simpler line-based text parser (src/utils/dataParser.ts). Each line
    is split on ':', its first two pieces become a key and a value, and the
    collected record is checked against the extracted-data schema. */
module DataParser {
  import opened Js
  import Zod

  datatype VatDetail = VatDetail(vat_rate: real, gross_income: real, net_income: real, vat_amount: real)

  /** `ExtractedData` as the schema returns it. */
  datatype ExtractedData = ExtractedData(
    org_nr: string, reg_nr: string, driver_id: string, start_time: string, end_time: string,
    taxi_km: real, paid_km: real, trips: real, report_nr: string, bom_avbest: real,
    total_income: real, lonegr_ex_moms: real, cash: real, to_report: real, total_credit: real,
    vat_details: seq<VatDetail>)

  /** The parsed record, or the schema's failure with the path of every failing field. */
  datatype Parsed = Parsed(data: ExtractedData) | Invalid(paths: seq<string>)

  /** `/^-?\d+(\.\d+)?$/.test(v)` */
  predicate IsNumericText(v: string) {
    var u := if |v| > 0 && v[0] == '-' then v[1..] else v;
    var ip := DigitPrefix(u);
    |ip| > 0 &&
    (|ip| == |u| || (u[|ip|] == '.' && |ip| + 1 < |u| && AllDigits(u[|ip| + 1..])))
  }

  /** `k.toLowerCase().replace(/\s/g, '_')`: every white-space character,
      not every run, becomes '_'. */
  function KeyOf(k: string): (r: string)
    ensures |r| == |k|
    ensures NoSpace(r)
    ensures forall i :: 0 <= i < |k| ==> r[i] == (if IsSpace(k[i]) then '_' else LowerChar(k[i]))
  {
    var l := ToLower(k);
    seq(|l|, i requires 0 <= i < |l| => if IsSpace(l[i]) then '_' else l[i])
  }

  /** What one line contributes: its key and value, or nothing when either
      is empty. */
  function LineEntry(line: string): Option<(string, Value)> {
    var parts := Split(line, ':');
    var key := Trim(parts[0]);
    var value := if |parts| > 1 then Trim(parts[1]) else "";
    if key == "" || value == "" then None
    else Some((KeyOf(key), if IsNumericText(value) then Num(ParseFloat(value)) else Str(value)))
  }

  function Step(data: map<string, Value>, line: string): map<string, Value> {
    match LineEntry(line)
    case None => data
    case Some(kv) => data[kv.0 := kv.1]
  }

  /** The record after the lines read so far. */
  function Scan(lines: seq<string>): map<string, Value> {
    if lines == [] then map[]
    else Step(Scan(lines[..|lines| - 1]), lines[|lines| - 1])
  }

  /** `extractedDataSchema`, without `vat_details`, in declaration order. */
  function Shape(): seq<(string, Zod.Kind)> {
    [("org_nr", Zod.Text), ("reg_nr", Zod.Text), ("driver_id", Zod.Text),
     ("start_time", Zod.Text), ("end_time", Zod.Text), ("taxi_km", Zod.Numeric),
     ("paid_km", Zod.Numeric), ("trips", Zod.Numeric), ("report_nr", Zod.Text),
     ("bom_avbest", Zod.Numeric), ("total_income", Zod.Numeric), ("lonegr_ex_moms", Zod.Numeric),
     ("cash", Zod.Numeric), ("to_report", Zod.Numeric), ("total_credit", Zod.Numeric)]
  }

  /** `{ ...data, vat_details: [] }` */
  function ToParse(data: map<string, Value>): Value {
    Obj(data["vat_details" := Arr([])])
  }

  function RecordOf(rec: Value): ExtractedData {
    ExtractedData(
      Zod.TextOf(Get(rec, "org_nr")), Zod.TextOf(Get(rec, "reg_nr")), Zod.TextOf(Get(rec, "driver_id")),
      Zod.TextOf(Get(rec, "start_time")), Zod.TextOf(Get(rec, "end_time")),
      Zod.NumberOf(Get(rec, "taxi_km")), Zod.NumberOf(Get(rec, "paid_km")), Zod.NumberOf(Get(rec, "trips")),
      Zod.TextOf(Get(rec, "report_nr")), Zod.NumberOf(Get(rec, "bom_avbest")),
      Zod.NumberOf(Get(rec, "total_income")), Zod.NumberOf(Get(rec, "lonegr_ex_moms")),
      Zod.NumberOf(Get(rec, "cash")), Zod.NumberOf(Get(rec, "to_report")),
      Zod.NumberOf(Get(rec, "total_credit")), [])
  }

  /** The schema step on the collected record. */
  function Finish(data: map<string, Value>): (r: Parsed)
    ensures r.Parsed? ==> r.data.vat_details == []
  {
    var rec := ToParse(data);
    var issues := Zod.Issues(rec, Shape());
    if issues != [] then Invalid(issues) else Parsed(RecordOf(rec))
  }

  /** What `parseExtractedText` returns or throws. */
  function ExtractedOf(text: string): Parsed {
    Finish(Scan(Split(text, '\n')))
  }

  /** `parseExtractedText`: the forEach over the lines fills `data`, then the
      schema decides. */
  method ParseExtractedText(text: string) returns (r: Parsed)
    ensures r == ExtractedOf(text)
  {
    var lines := Split(text, '\n');
    var data: map<string, Value> := map[];
    for i := 0 to |lines|
      invariant data == Scan(lines[..i])
    {
      assert lines[..i + 1][..i] == lines[..i];
      assert Scan(lines[..i + 1]) == Step(data, lines[i]);
      var parts := Split(lines[i], ':');
      var key := Trim(parts[0]);
      var value := if |parts| > 1 then Trim(parts[1]) else "";
      if key != "" && value != "" {
        if IsNumericText(value) {
          data := data[KeyOf(key) := Num(ParseFloat(value))];
        } else {
          data := data[KeyOf(key) := Str(value)];
        }
      }
    }
    assert lines[..|lines|] == lines;
    r := Finish(data);
  }

  // ---------------------------------------------------------------------------
  // Properties

  /** The parse fails exactly when some field of the schema fails, and then
      every failing field's path is reported. */
  lemma FinishFailsIff(data: map<string, Value>)
    ensures Finish(data).Invalid? <==>
      exists i :: 0 <= i < |Shape()| && !Zod.Accepts(Shape()[i].1, Get(ToParse(data), Shape()[i].0))
    ensures forall i :: 0 <= i < |Shape()| && !Zod.Accepts(Shape()[i].1, Get(ToParse(data), Shape()[i].0)) ==>
      Finish(data).Invalid? && Shape()[i].0 in Finish(data).paths
  {
  }

  /** Only the first two pieces of a line count: "Start: 08:30" stores "08". */
  lemma SecondColonCuts(key: string, a: string, b: string)
    requires ':' !in key && ':' !in a
    ensures LineEntry(key + ":" + a + ":" + b) == LineEntry(key + ":" + a)
  {
    assert key + ":" + a + ":" + b == key + [':'] + (a + [':'] + b);
    SplitCons(key, a + [':'] + b, ':');
    SplitCons(a, b, ':');
    assert key + ":" + a == key + [':'] + a;
    SplitCons(key, a, ':');
    SplitNone(a, ':');
  }

  /** A line without ':' or with an empty key or value leaves the record as it is. */
  lemma EmptyPartSkipped(data: map<string, Value>, key: string, value: string)
    requires ':' !in key && ':' !in value
    requires Trim(key) == "" || Trim(value) == ""
    ensures Step(data, key + ":" + value) == data
    ensures Step(data, key) == data
  {
    assert key + ":" + value == key + [':'] + value;
    SplitCons(key, value, ':');
    SplitNone(value, ':');
    SplitNone(key, ':');
  }

  /** A stored key is never empty and holds no white space. */
  lemma {:induction false} KeysNormalised(lines: seq<string>)
    ensures forall k :: k in Scan(lines) ==> k != [] && NoSpace(k)
  {
    if lines != [] {
      KeysNormalised(lines[..|lines| - 1]);
    }
  }

  /** A value of digits, a dot and digits is stored as its number. */
  lemma DecimalValueStored(data: map<string, Value>, key: string, d: string, f: string)
    requires ':' !in key && Trim(key) != ""
    requires d != [] && f != [] && AllDigits(d) && AllDigits(f)
    ensures Step(data, key + ": " + (d + "." + f)) ==
      data[KeyOf(Trim(key)) := Num(Finite(DigitsValue(d) as real + FracValue(f)))]
  {
    var v := d + "." + f;
    DecimalText(d, f);
    DecimalEntry(key, v);
    ParseFloatDecimal(d, f);
  }

  lemma DecimalEntry(key: string, v: string)
    requires ':' !in key && Trim(key) != ""
    requires ':' !in v && v != [] && IsTrimmed(v) && IsNumericText(v)
    ensures LineEntry(key + ": " + v) == Some((KeyOf(Trim(key)), Num(ParseFloat(v))))
  {
    KeyValueParts(key, v);
  }

  /** A line "key: v" with one ':' splits into the key and " v". */
  lemma KeyValueParts(key: string, v: string)
    requires ':' !in key && ':' !in v && v != [] && IsTrimmed(v)
    ensures var parts := Split(key + ": " + v, ':');
      |parts| == 2 && parts[0] == key && Trim(parts[1]) == v
  {
    assert key + ": " + v == key + [':'] + (" " + v);
    assert ':' !in " " + v;
    SplitCons(key, " " + v, ':');
    SplitNone(" " + v, ':');
    TrimLeadingSpace(v);
  }

  lemma DecimalText(d: string, f: string)
    requires d != [] && f != [] && AllDigits(d) && AllDigits(f)
    ensures ':' !in d + "." + f && IsTrimmed(d + "." + f) && IsNumericText(d + "." + f)
  {
    var v := d + "." + f;
    assert v == d + ("." + f);
    DigitPrefixOf(d, "." + f);
    assert v[|d| + 1..] == f;
    assert v[0] == d[0] && v[|v| - 1] == f[|f| - 1];
    forall i | 0 <= i < |v|
      ensures v[i] != ':'
    {
      if i < |d| { assert v[i] == d[i]; }
      else if i > |d| { assert v[i] == f[i - |d| - 1]; }
    }
  }

  /** A value with anything beyond the number pattern stays text. */
  lemma TextValueStored(data: map<string, Value>, key: string, v: string)
    requires ':' !in key && Trim(key) != ""
    requires ':' !in v && v != [] && IsTrimmed(v) && !IsNumericText(v)
    ensures Step(data, key + ": " + v) == data[KeyOf(Trim(key)) := Str(v)]
  {
    KeyValueParts(key, v);
  }

  /** A text field whose line holds only digits is stored as a number, so the
      whole parse fails on that field: "Org nr: 5560001234" makes `org_nr` invalid. */
  lemma DigitsInTextFieldRejected(lines: seq<string>, key: string, d: string, i: nat)
    requires ':' !in key && Trim(key) != ""
    requires d != [] && AllDigits(d)
    requires i < |Shape()| && Shape()[i].1 == Zod.Text && Shape()[i].0 == KeyOf(Trim(key))
    ensures var r := Finish(Scan(lines + [key + ": " + d]));
      r.Invalid? && KeyOf(Trim(key)) in r.paths
  {
    DigitsStored(lines, key, d);
    TextFieldNumberRejected(Scan(lines + [key + ": " + d]), i);
  }

  lemma DigitsStored(lines: seq<string>, key: string, d: string)
    requires ':' !in key && Trim(key) != ""
    requires d != [] && AllDigits(d)
    ensures var data := Scan(lines + [key + ": " + d]);
      KeyOf(Trim(key)) in data && data[KeyOf(Trim(key))].Num?
  {
    var all := lines + [key + ": " + d];
    assert all[..|all| - 1] == lines;
    DigitsText(d);
    KeyValueParts(key, d);
  }

  lemma TextFieldNumberRejected(data: map<string, Value>, i: nat)
    requires i < |Shape()| && Shape()[i].1 == Zod.Text
    requires Shape()[i].0 in data && data[Shape()[i].0].Num?
    ensures Finish(data).Invalid? && Shape()[i].0 in Finish(data).paths
  {
    assert Shape()[i].0 != "vat_details";
    assert Get(ToParse(data), Shape()[i].0) == data[Shape()[i].0];
  }

  lemma DigitsText(d: string)
    requires d != [] && AllDigits(d)
    ensures ':' !in d && IsTrimmed(d) && IsNumericText(d)
  {
    FullDigitPrefix(d);
    assert forall i :: 0 <= i < |d| ==> d[i] != ':';
  }

  /** Keys of the schema are found whatever the case of the line's key and
      with single spaces for underscores: "Org nr" is `org_nr`. */
  lemma OrgNrKey()
    ensures KeyOf("Org nr") == "org_nr"
  {
  }
}
