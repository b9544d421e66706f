/** The line-based receipt text parser (src/utils/receiptParser.ts). Each
    non-blank line is either a VAT line ("6.00: 1916.00 1807.55 108.45"),
    which adds a VAT entry, or a "key: value" line, which sets one field of
    the record under a normalised key. The record is then checked against
    the receipt schema. */
module ReceiptParser {
  import opened Js
  import Zod

  /** One VAT line. An amount the line does not have is undefined. */
  datatype VatEntry = VatEntry(rate: Number, gross: Value, net: Value, vat: Value)

  datatype VatRow = VatRow(rate: real, gross: real, net: real, vat: real)

  /** `ReceiptData` */
  datatype ReceiptData = ReceiptData(
    org_nr: string, reg_nr: string, driver_id: string, start_time: string, end_time: string,
    taxi_km: real, paid_km: real, trips: real, drosk_nr: real, report_nr: string,
    bom_avbest: real, total_income: real, vat_details: seq<VatRow>,
    lonegr_ex_moms: real, cash: real, to_report: real, total_credit: real)

  /** What the line loop has collected: the key-value record and the VAT entries. */
  datatype Collected = Collected(data: map<string, Value>, vatDetails: seq<VatEntry>)

  // ---------------------------------------------------------------------------
  // Line classification

  /** `/^\d+\.\d+:/.test(t)` */
  predicate IsVatLine(t: string) {
    var ip := DigitPrefix(t);
    |ip| > 0 && |ip| < |t| && t[|ip|] == '.' &&
    var fp := DigitPrefix(t[|ip| + 1..]);
    |fp| > 0 && |ip| + 1 + |fp| < |t| && t[|ip| + 1 + |fp|] == ':'
  }

  lemma VatLineHasColon(t: string)
    requires IsVatLine(t)
    ensures ':' in t
  {
    var ip := DigitPrefix(t);
    var fp := DigitPrefix(t[|ip| + 1..]);
    assert t[|ip| + 1 + |fp|] == ':';
  }

  /** The i-th of `parts` read with `parseFloat`, or undefined past the end. */
  function AmountAt(parts: seq<string>, i: nat): Value {
    if i < |parts| then Num(ParseFloat(parts[i])) else Undefined
  }

  /** `const [rateStr, values] = t.split(':').map(s => s.trim())` and
      `const [gross, net, vat] = values.split(' ').map(v => parseFloat(v))`. */
  function VatEntryOf(t: string): VatEntry
    requires ':' in t
  {
    var parts := Split(t, ':');
    assert |parts| > 1 by { SplitHasSeparator(t, ':'); }
    var amounts := Split(Trim(parts[1]), ' ');
    VatEntry(ParseFloat(Trim(parts[0])), AmountAt(amounts, 0), AmountAt(amounts, 1), AmountAt(amounts, 2))
  }

  /** A string holding the separator splits into at least two pieces. */
  lemma {:induction false} SplitHasSeparator(s: string, sep: char)
    requires sep in s
    ensures |Split(s, sep)| > 1
  {
    if s[0] != sep {
      SplitHasSeparator(s[1..], sep);
    }
  }

  // ---------------------------------------------------------------------------
  // Key normalisation

  /** `s.replace(/\s+/g, '_')`: every run of white space becomes one '_'. */
  function CollapseSpaces(s: string): (r: string)
    ensures forall i :: 0 <= i < |r| ==> !IsSpace(r[i])
    decreases |s|
  {
    if s == [] then []
    else if IsSpace(s[0]) then "_" + CollapseSpaces(TrimStart(s[1..]))
    else [s[0]] + CollapseSpaces(s[1..])
  }

  /** The renaming chain applied to the cleaned key, one `replace` after another. */
  function Renames(): seq<(string, string)> {
    [("org_nr", "org_nr"), ("regnr", "reg_nr"), ("förarid", "driver_id"),
     ("starttid", "start_time"), ("sluttid", "end_time"), ("taxitrafik_km", "taxi_km"),
     ("betalda_km", "paid_km"), ("turer", "trips"), ("drosknr", "drosk_nr"),
     ("rapportnr", "report_nr"), ("bom/aubest", "bom_avbest"), ("totalt_inkört", "total_income"),
     ("lönegr_ex_moms", "lonegr_ex_moms"), ("kontant", "cash"), ("att_redovisa", "to_report"),
     ("total_kredit", "total_credit")]
  }

  function ApplyRenames(k: string, renames: seq<(string, string)>): string
    decreases |renames|
  {
    if renames == [] then k
    else ApplyRenames(ReplaceFirst(k, renames[0].0, renames[0].1), renames[1..])
  }

  /** The key before renaming: trimmed, lower-cased, dots removed, white-space
      runs turned into '_'. */
  function CleanKey(key: string): string {
    CollapseSpaces(Keep(ToLower(Trim(key)), NotDot))
  }

  predicate NotDot(c: char) { c != '.' }

  function NormalizeKey(key: string): string {
    ApplyRenames(CleanKey(key), Renames())
  }

  /** Collapsing white space brings in only '_'. */
  lemma {:induction false} CollapseKeepsOut(s: string, c: char)
    requires c !in s && c != '_'
    ensures c !in CollapseSpaces(s)
    decreases |s|
  {
    if s != [] {
      if IsSpace(s[0]) {
        TrimStartSuffix(s[1..]);
        CollapseKeepsOut(TrimStart(s[1..]), c);
      } else {
        CollapseKeepsOut(s[1..], c);
      }
    }
  }

  /** A cleaned key holds no '.' and no white space. */
  lemma CleanKeyShape(key: string)
    ensures '.' !in CleanKey(key)
    ensures forall i :: 0 <= i < |CleanKey(key)| ==> !IsSpace(CleanKey(key)[i])
  {
    var kept := Keep(ToLower(Trim(key)), NotDot);
    assert '.' !in kept;
    CollapseKeepsOut(kept, '.');
  }

  /** A pattern whose first character is absent does not occur. */
  lemma {:induction false} HeadAbsent(s: string, pat: string)
    requires pat != [] && pat[0] !in s
    ensures !Occurs(s, pat)
    decreases |s|
  {
    if |s| >= |pat| && s != [] {
      assert s[..|pat|][0] == s[0];
      HeadAbsent(s[1..], pat);
    }
  }

  /** Collapsing leaves a run without white space as it is. */
  lemma {:induction false} CollapseNoSpace(x: string, z: string)
    requires forall i :: 0 <= i < |x| ==> !IsSpace(x[i])
    ensures CollapseSpaces(x + z) == x + CollapseSpaces(z)
    decreases |x|
  {
    if x == [] {
      assert x + z == z;
    } else {
      assert (x + z)[0] == x[0];
      assert (x + z)[1..] == x[1..] + z;
      CollapseNoSpace(x[1..], z);
      assert x == [x[0]] + x[1..];
    }
  }

  /** Trimming a run of white space in front of a word leaves the word. */
  lemma {:induction false} TrimSpaceRun(w: string, y: string)
    requires forall i :: 0 <= i < |w| ==> IsSpace(w[i])
    requires y == [] || !IsSpace(y[0])
    ensures TrimStart(w + y) == y
    decreases |w|
  {
    if w == [] {
      assert w + y == y;
    } else {
      assert (w + y)[0] == w[0];
      assert (w + y)[1..] == w[1..] + y;
      TrimSpaceRun(w[1..], y);
    }
  }

  /** A run of one or more white-space characters after a word becomes one
      '_', and collapsing goes on with what follows the run. */
  lemma CollapseRun(x: string, w: string, y: string)
    requires forall i :: 0 <= i < |x| ==> !IsSpace(x[i])
    requires w != [] && forall i :: 0 <= i < |w| ==> IsSpace(w[i])
    requires y == [] || !IsSpace(y[0])
    ensures CollapseSpaces(x + w + y) == x + "_" + CollapseSpaces(y)
  {
    var a := w + y;
    var c := CollapseSpaces(y);
    Assoc(x, w, y);
    CollapseNoSpace(x, a);
    CollapseLeadingRun(w, y);
    Assoc(x, "_", c);
  }

  lemma Assoc(a: string, b: string, c: string)
    ensures a + (b + c) == a + b + c
  {
  }

  lemma CollapseLeadingRun(w: string, y: string)
    requires w != [] && forall i :: 0 <= i < |w| ==> IsSpace(w[i])
    requires y == [] || !IsSpace(y[0])
    ensures CollapseSpaces(w + y) == "_" + CollapseSpaces(y)
  {
    var s := w + y;
    assert s[0] == w[0];
    assert s[1..] == w[1..] + y;
    TrimSpaceRun(w[1..], y);
    assert TrimStart(s[1..]) == y;
  }

  /** One space between two words becomes one '_'. */
  lemma CollapseOneGap(x: string, y: string)
    requires forall i :: 0 <= i < |x| ==> !IsSpace(x[i])
    requires forall i :: 0 <= i < |y| ==> !IsSpace(y[i])
    requires y != []
    ensures CollapseSpaces(x + " " + y) == x + "_" + y
  {
    assert x + " " + y == x + (" " + y);
    CollapseNoSpace(x, " " + y);
    TrimStartOne(y);
    assert (" " + y)[1..] == y;
    CollapseNoSpace(y, []);
    assert y + [] == y;
  }

  lemma LowerOrgNr()
    ensures ToLower(Trim("Org. nr")) == "org. nr"
  {
    assert IsTrimmed("Org. nr");
  }

  lemma KeepOrgNr()
    ensures Keep("org. nr", NotDot) == "org nr"
  {
    assert "org. nr" == "org" + "." + " nr";
    KeepAll("org", NotDot);
    KeepNone(".", NotDot);
    KeepAll(" nr", NotDot);
    KeepConcat("org", ".", NotDot);
    KeepConcat("org" + ".", " nr", NotDot);
  }

  lemma CleanOrgNr()
    ensures CleanKey("Org. nr") == "org_nr"
  {
    LowerOrgNr();
    KeepOrgNr();
    assert "org nr" == "org" + " " + "nr";
    CollapseOneGap("org", "nr");
    assert "org" + "_" + "nr" == "org_nr";
  }

  lemma LowerDriverId()
    ensures ToLower(Trim("Förarid")) == "förarid"
  {
    assert IsTrimmed("Förarid");
  }

  lemma CleanDriverId()
    ensures CleanKey("Förarid") == "förarid"
  {
    LowerDriverId();
    KeepAll("förarid", NotDot);
    CollapseNoSpace("förarid", []);
    assert "förarid" + [] == "förarid";
  }

  /** A pattern that differs from the string at position `j` does not start
      there, so it occurs only further on. */
  lemma NotHere(s: string, pat: string, j: nat)
    requires |s| >= |pat| && j < |pat| && s[j] != pat[j] && !Occurs(s[1..], pat)
    ensures !Occurs(s, pat)
  {
    assert s[..|pat|][j] == s[j];
  }

  lemma NoRegnrInOrgNr()
    ensures !Occurs("org_nr", "regnr")
  {
    assert !Occurs("g_nr", "regnr");
    assert "rg_nr"[1..] == "g_nr";
    NotHere("rg_nr", "regnr", 1);
    assert "org_nr"[1..] == "rg_nr";
    NotHere("org_nr", "regnr", 0);
  }

  lemma NoRegnrInForarid()
    ensures !Occurs("förarid", "regnr")
  {
    assert !Occurs("arid", "regnr");
    assert "rarid"[1..] == "arid";
    NotHere("rarid", "regnr", 1);
    assert "örarid"[1..] == "rarid";
    NotHere("örarid", "regnr", 0);
    assert "förarid"[1..] == "örarid";
    NotHere("förarid", "regnr", 0);
  }

  lemma NoRapportnrInDriverId()
    ensures !Occurs("driver_id", "rapportnr")
  {
    assert !Occurs("river_id", "rapportnr");
    NotHere("driver_id", "rapportnr", 0);
  }

  lemma NoDrosknrInDriverId()
    ensures !Occurs("driver_id", "drosknr")
  {
    assert !Occurs("ver_id", "drosknr");
    assert "iver_id"[1..] == "ver_id";
    NotHere("iver_id", "drosknr", 0);
    assert "river_id"[1..] == "iver_id";
    NotHere("river_id", "drosknr", 0);
    assert "driver_id"[1..] == "river_id";
    NotHere("driver_id", "drosknr", 2);
  }

  /** A rename whose pattern does not occur is skipped. */
  lemma RenameSkip(k: string, renames: seq<(string, string)>)
    requires renames != [] && renames[0].0 != [] && !Occurs(k, renames[0].0)
    ensures ApplyRenames(k, renames) == ApplyRenames(k, renames[1..])
  {
    ReplaceFirstAbsent(k, renames[0].0, renames[0].1);
  }

  predicate Absent(k: string, pat: string) { pat != [] && !Occurs(k, pat) }

  /** Renames whose patterns do not occur leave the key alone. */
  lemma {:induction false} RenamesLeave(k: string, renames: seq<(string, string)>)
    requires forall i :: 0 <= i < |renames| ==> Absent(k, renames[i].0)
    ensures ApplyRenames(k, renames) == k
    decreases |renames|
  {
    if renames != [] {
      ReplaceFirstAbsent(k, renames[0].0, renames[0].1);
      assert forall i :: 0 <= i < |renames[1..]| ==> renames[1..][i] == renames[i + 1];
      RenamesLeave(k, renames[1..]);
    }
  }

  /** Dropping the renames before position `j` shifts the indices. */
  lemma RenamesFrom(k: string, R: seq<(string, string)>, j: nat)
    requires j <= |R| && forall i :: j <= i < |R| ==> Absent(k, R[i].0)
    ensures ApplyRenames(k, R[j..]) == k
  {
    assert forall i :: 0 <= i < |R[j..]| ==> R[j..][i] == R[i + j];
    RenamesLeave(k, R[j..]);
  }

  lemma OrgNrAbsent1()
    ensures forall j :: 1 <= j < 6 ==> Absent("org_nr", Renames()[j].0)
  {
    var k, R := "org_nr", Renames();
    forall j | 1 <= j < 6
      ensures Absent(k, R[j].0)
    {
      if j == 1 {
        NoRegnrInOrgNr();
      } else {
        HeadAbsent(k, R[j].0);
      }
    }
  }

  lemma OrgNrAbsent6()
    ensures forall j :: 6 <= j < 11 ==> Absent("org_nr", Renames()[j].0)
  {
    var k, R := "org_nr", Renames();
    forall j | 6 <= j < 11
      ensures Absent(k, R[j].0)
    {
      if j == 9 {
        assert !Occurs(k, "rapportnr");
      } else {
        HeadAbsent(k, R[j].0);
      }
    }
  }

  lemma OrgNrAbsent11()
    ensures forall j :: 11 <= j < 16 ==> Absent("org_nr", Renames()[j].0)
  {
    var k, R := "org_nr", Renames();
    forall j | 11 <= j < 16
      ensures Absent(k, R[j].0)
    {
      HeadAbsent(k, R[j].0);
    }
  }

  lemma DriverIdAbsent3()
    ensures forall j :: 3 <= j < 8 ==> Absent("driver_id", Renames()[j].0)
  {
    var k, R := "driver_id", Renames();
    forall j | 3 <= j < 8
      ensures Absent(k, R[j].0)
    {
      HeadAbsent(k, R[j].0);
    }
  }

  lemma DriverIdAbsent8()
    ensures forall j :: 8 <= j < 12 ==> Absent("driver_id", Renames()[j].0)
  {
    var k, R := "driver_id", Renames();
    forall j | 8 <= j < 12
      ensures Absent(k, R[j].0)
    {
      if j == 8 {
        NoDrosknrInDriverId();
      } else if j == 9 {
        NoRapportnrInDriverId();
      } else {
        HeadAbsent(k, R[j].0);
      }
    }
  }

  lemma DriverIdAbsent12()
    ensures forall j :: 12 <= j < 16 ==> Absent("driver_id", Renames()[j].0)
  {
    var k, R := "driver_id", Renames();
    forall j | 12 <= j < 16
      ensures Absent(k, R[j].0)
    {
      HeadAbsent(k, R[j].0);
    }
  }

  /** The receipt's "Org. nr" label becomes the key `org_nr`. */
  lemma OrgNrKey()
    ensures NormalizeKey("Org. nr") == "org_nr"
  {
    CleanOrgNr();
    var k := "org_nr";
    RenameWhole(Renames());
    OrgNrAbsent1();
    OrgNrAbsent6();
    OrgNrAbsent11();
    RenamesFrom(k, Renames(), 1);
  }

  /** The receipt's "Förarid" label becomes the key `driver_id`. */
  lemma DriverIdKey()
    ensures NormalizeKey("Förarid") == "driver_id"
  {
    CleanDriverId();
    DriverIdFirst();
    DriverIdAbsent3();
    DriverIdAbsent8();
    DriverIdAbsent12();
    RenamesFrom("driver_id", Renames(), 3);
  }

  /** The first three renames turn "förarid" into "driver_id". */
  lemma DriverIdFirst()
    ensures ApplyRenames("förarid", Renames()) == ApplyRenames("driver_id", Renames()[3..])
  {
    var R := Renames();
    ForaridSkipsTwo();
    assert R[2..][0] == R[2];
    RenameWhole(R[2..]);
    assert R[2..][1..] == R[3..];
  }

  /** Neither `org_nr` nor `regnr` occurs in "förarid". */
  lemma ForaridSkipsTwo()
    ensures ApplyRenames("förarid", Renames()) == ApplyRenames("förarid", Renames()[2..])
  {
    var k, R := "förarid", Renames();
    HeadAbsent(k, "org_nr");
    RenameSkip(k, R);
    NoRegnrInForarid();
    assert R[1..][0] == R[1];
    RenameSkip(k, R[1..]);
    assert R[1..][1..] == R[2..];
  }

  /** A rename whose pattern is the whole key replaces it. */
  lemma RenameWhole(renames: seq<(string, string)>)
    requires renames != []
    ensures ApplyRenames(renames[0].0, renames) == ApplyRenames(renames[0].1, renames[1..])
  {
    ReplaceFirstHead([], renames[0].0, renames[0].1);
    assert renames[0].0 + [] == renames[0].0 && renames[0].1 + [] == renames[0].1;
  }

  // ---------------------------------------------------------------------------
  // Numeric values

  /** `/^-?\d+([.,]\d+)?\s*(?:kr)?$/i.test(v)` */
  predicate IsAmountText(v: string) {
    var u := if |v| > 0 && v[0] == '-' then v[1..] else v;
    var ip := DigitPrefix(u);
    |ip| > 0 &&
    var rest := u[|ip|..];
    var hasFraction := |rest| > 0 && (rest[0] == '.' || rest[0] == ',') && |DigitPrefix(rest[1..])| > 0;
    var tail := TrimStart(if hasFraction then rest[1 + |DigitPrefix(rest[1..])|..] else rest);
    tail == [] || ToLower(tail) == "kr"
  }

  predicate IsAmountChar(c: char) { IsDigit(c) || c == ',' || c == '-' }

  /** `parseFloat(v.replace(/[^\d,-]/g, '').replace(',', '.'))` */
  function AmountValue(v: string): Number {
    ParseFloat(ReplaceFirst(Keep(v, IsAmountChar), ",", "."))
  }

  function FieldValue(v: string): Value {
    if IsAmountText(v) then Num(AmountValue(v)) else Str(v)
  }

  // ---------------------------------------------------------------------------
  // The line loop

  /** What one line does to the collected record. */
  function Step(acc: Collected, line: string): Collected {
    var t := Trim(line);
    if t == "" then acc
    else if IsVatLine(t) then
      VatLineHasColon(t);
      acc.(vatDetails := acc.vatDetails + [VatEntryOf(t)])
    else
      var parts := Split(t, ':');
      var key := parts[0];
      if key == "" || |parts| == 1 then acc
      else
        var value := Trim(Join(parts[1..], ":"));
        acc.(data := acc.data[NormalizeKey(key) := FieldValue(value)])
  }

  /** The lines read so far, in order. */
  function Scan(lines: seq<string>): Collected {
    if lines == [] then Collected(map[], [])
    else Step(Scan(lines[..|lines| - 1]), lines[|lines| - 1])
  }

  lemma ScanOneMore(lines: seq<string>, i: nat)
    requires i < |lines|
    ensures Scan(lines[..i + 1]) == Step(Scan(lines[..i]), lines[i])
  {
    assert lines[..i + 1][..i] == lines[..i];
  }

  // ---------------------------------------------------------------------------
  // The final record and its schema

  /** The object handed to `receiptSchema.parse`. */
  function ToParse(c: Collected): Value {
    var d := Obj(c.data);
    var lonegr := Get(d, "lonegr_ex_moms");
    Obj(map[
      "org_nr" := Get(d, "org_nr"), "reg_nr" := Get(d, "reg_nr"), "driver_id" := Get(d, "driver_id"),
      "start_time" := Get(d, "start_time"), "end_time" := Get(d, "end_time"),
      "taxi_km" := Get(d, "taxi_km"), "paid_km" := Get(d, "paid_km"), "trips" := Get(d, "trips"),
      "drosk_nr" := Get(d, "drosk_nr"), "report_nr" := Get(d, "report_nr"),
      "bom_avbest" := Get(d, "bom_avbest"), "total_income" := Get(d, "total_income"),
      "lonegr_ex_moms" := if lonegr.Undefined? then N(0.0) else Num(ToNumber(lonegr)),
      "cash" := Or(Get(d, "cash"), N(0.0)), "to_report" := Or(Get(d, "to_report"), N(0.0)),
      "total_credit" := Get(d, "total_credit")])
  }

  function HeadShape(): seq<(string, Zod.Kind)> {
    [("org_nr", Zod.Text), ("reg_nr", Zod.Text), ("driver_id", Zod.Text),
     ("start_time", Zod.Text), ("end_time", Zod.Text), ("taxi_km", Zod.Numeric),
     ("paid_km", Zod.Numeric), ("trips", Zod.Numeric), ("drosk_nr", Zod.Numeric),
     ("report_nr", Zod.Text), ("bom_avbest", Zod.Numeric), ("total_income", Zod.Numeric)]
  }

  function TailShape(): seq<(string, Zod.Kind)> {
    [("lonegr_ex_moms", Zod.Numeric), ("cash", Zod.Numeric), ("to_report", Zod.Numeric),
     ("total_credit", Zod.Numeric)]
  }

  predicate IsNumber(v: Value) { v.Num? && v.num.Finite? }

  /** The failing paths of one VAT entry, `vat_details.<i>.<field>`. */
  function EntryIssues(e: VatEntry, i: nat): (r: seq<string>)
    ensures r == [] <==> e.rate.Finite? && IsNumber(e.gross) && IsNumber(e.net) && IsNumber(e.vat)
  {
    var p := "vat_details." + NatToDecimal(i) + ".";
    (if e.rate.Finite? then [] else [p + "rate"]) +
    (if IsNumber(e.gross) then [] else [p + "gross"]) +
    (if IsNumber(e.net) then [] else [p + "net"]) +
    (if IsNumber(e.vat) then [] else [p + "vat"])
  }

  function VatIssues(entries: seq<VatEntry>, from: nat): (r: seq<string>)
    ensures r == [] <==> forall i :: 0 <= i < |entries| ==> EntryIssues(entries[i], from + i) == []
  {
    if entries == [] then []
    else
      assert forall i :: 1 <= i < |entries| ==> entries[1..][i - 1] == entries[i];
      EntryIssues(entries[0], from) + VatIssues(entries[1..], from + 1)
  }

  /** Every failing path, in the order of the schema's keys. */
  function SchemaIssues(c: Collected): seq<string> {
    var rec := ToParse(c);
    Zod.Issues(rec, HeadShape()) + VatIssues(c.vatDetails, 0) + Zod.Issues(rec, TailShape())
  }

  function RowOf(e: VatEntry): VatRow {
    VatRow(if e.rate.Finite? then e.rate.val else 0.0,
           Zod.NumberOf(e.gross), Zod.NumberOf(e.net), Zod.NumberOf(e.vat))
  }

  function RecordOf(c: Collected): ReceiptData {
    var rec := ToParse(c);
    ReceiptData(
      Zod.TextOf(Get(rec, "org_nr")), Zod.TextOf(Get(rec, "reg_nr")), Zod.TextOf(Get(rec, "driver_id")),
      Zod.TextOf(Get(rec, "start_time")), Zod.TextOf(Get(rec, "end_time")),
      Zod.NumberOf(Get(rec, "taxi_km")), Zod.NumberOf(Get(rec, "paid_km")), Zod.NumberOf(Get(rec, "trips")),
      Zod.NumberOf(Get(rec, "drosk_nr")), Zod.TextOf(Get(rec, "report_nr")),
      Zod.NumberOf(Get(rec, "bom_avbest")), Zod.NumberOf(Get(rec, "total_income")),
      seq(|c.vatDetails|, i requires 0 <= i < |c.vatDetails| => RowOf(c.vatDetails[i])),
      Zod.NumberOf(Get(rec, "lonegr_ex_moms")), Zod.NumberOf(Get(rec, "cash")),
      Zod.NumberOf(Get(rec, "to_report")), Zod.NumberOf(Get(rec, "total_credit")))
  }

  /** The schema step: the record, or an error naming every failing path. */
  function Finish(c: Collected): (r: Completion<ReceiptData>)
    ensures r.Throws? <==> SchemaIssues(c) != []
    ensures r.Throws? ==> r.message == "Missing or invalid fields: " + Join(SchemaIssues(c), ", ")
  {
    var issues := SchemaIssues(c);
    if issues != [] then Throws("Missing or invalid fields: " + Join(issues, ", "))
    else Returns(RecordOf(c))
  }

  /** What `parseReceipt` returns or throws. */
  function ReceiptOf(text: string): Completion<ReceiptData> {
    Finish(Scan(Split(text, '\n')))
  }

  /** `parseReceipt`: the forEach over the lines fills the record and the VAT
      entries, then the schema decides. */
  method ParseReceipt(text: string) returns (r: Completion<ReceiptData>)
    ensures r == ReceiptOf(text)
  {
    var lines := Split(text, '\n');
    var data: map<string, Value> := map[];
    var vatDetails: seq<VatEntry> := [];
    for i := 0 to |lines|
      invariant Collected(data, vatDetails) == Scan(lines[..i])
    {
      ScanOneMore(lines, i);
      var trimmedLine := Trim(lines[i]);
      if trimmedLine == "" {
        continue;
      }
      if IsVatLine(trimmedLine) {
        VatLineHasColon(trimmedLine);
        vatDetails := vatDetails + [VatEntryOf(trimmedLine)];
        continue;
      }
      var parts := Split(trimmedLine, ':');
      var key := parts[0];
      if key == "" || |parts| == 1 {
        continue;
      }
      var value := Trim(Join(parts[1..], ":"));
      data := data[NormalizeKey(key) := FieldValue(value)];
    }
    assert lines[..|lines|] == lines;
    r := Finish(Collected(data, vatDetails));
  }

  // ---------------------------------------------------------------------------
  // Properties of the line loop

  /** A blank or white-space-only line changes nothing. */
  lemma BlankLineSkipped(acc: Collected, line: string)
    requires Trim(line) == ""
    ensures Step(acc, line) == acc
  {
  }

  /** A line without ':' is neither a VAT line nor a key-value line. */
  lemma NoColonLineSkipped(acc: Collected, line: string)
    requires ':' !in line
    ensures Step(acc, line) == acc
  {
    var t := Trim(line);
    TrimKeepsOut(line, ':');
    if t != "" {
      if IsVatLine(t) {
        VatLineHasColon(t);
      }
      SplitNone(t, ':');
    }
  }

  /** The lines that are not blank, in order. */
  function NonBlank(lines: seq<string>): seq<string> {
    if lines == [] then []
    else
      var last := lines[|lines| - 1];
      NonBlank(lines[..|lines| - 1]) + (if Trim(last) == "" then [] else [last])
  }

  /** Removing the blank lines does not change what is collected. */
  lemma {:induction false} BlankLinesIgnored(lines: seq<string>)
    ensures Scan(NonBlank(lines)) == Scan(lines)
  {
    if lines != [] {
      var init := lines[..|lines| - 1];
      var last := lines[|lines| - 1];
      BlankLinesIgnored(init);
      if Trim(last) == "" {
        assert NonBlank(lines) == NonBlank(init) + [];
        assert NonBlank(init) + [] == NonBlank(init);
      } else {
        var nb := NonBlank(init) + [last];
        assert nb[..|nb| - 1] == NonBlank(init);
      }
    }
  }

  // ---------------------------------------------------------------------------
  // VAT lines

  /** Three space-free amounts separated by single spaces split into three. */
  lemma SplitThree(g: string, n: string, v: string)
    requires ' ' !in g && ' ' !in n && ' ' !in v
    ensures Split(g + " " + n + " " + v, ' ') == [g, n, v]
  {
    assert g + " " + n + " " + v == g + [' '] + (n + [' '] + v);
    SplitCons(g, n + [' '] + v, ' ');
    SplitCons(n, v, ' ');
    SplitNone(v, ' ');
  }

  lemma Suffix(p: string, q: string)
    ensures (p + q)[|p|..] == q
  {
  }

  /** A rate written as digits, a dot and digits, followed by ':', makes a VAT line. */
  lemma RateLine(d: string, f: string, rest: string)
    requires d != [] && f != [] && AllDigits(d) && AllDigits(f)
    ensures IsVatLine(d + "." + f + ":" + rest)
  {
    var t := d + "." + f + ":" + rest;
    assert t == d + ("." + f + ":" + rest);
    DigitPrefixOf(d, "." + f + ":" + rest);
    assert t == (d + ".") + (f + (":" + rest));
    Suffix(d + ".", f + (":" + rest));
    DigitPrefixOf(f, ":" + rest);
    assert t[|d| + 1 + |f|] == ':';
  }

  /** The rate text reads as its decimal value. */
  lemma RateValue(d: string, f: string)
    requires d != [] && f != [] && AllDigits(d) && AllDigits(f)
    ensures ParseFloat(Trim(d + "." + f)) == Finite(DigitsValue(d) as real + FracValue(f))
  {
    DecimalTrimmed(d, f);
    ParseFloatDecimal(d, f);
  }


  lemma NoColonInRate(d: string, f: string)
    requires AllDigits(d) && AllDigits(f)
    ensures ':' !in d + "." + f
  {
    var r := d + "." + f;
    forall i | 0 <= i < |r|
      ensures r[i] != ':'
    {
      if i < |d| { assert r[i] == d[i]; }
      else if i > |d| { assert r[i] == f[i - |d| - 1]; }
    }
  }

  /** A line with exactly one ':' splits into the text before and after it. */
  lemma SplitOnce(a: string, b: string)
    requires ':' !in a && ':' !in b
    ensures Split(a + ":" + b, ':') == [a, b]
  {
    assert a + ":" + b == a + [':'] + b;
    SplitCons(a, b, ':');
    SplitNone(b, ':');
  }

  lemma ColonFreeAmounts(g: string, n: string, v: string)
    requires ':' !in g && ':' !in n && ':' !in v
    ensures ':' !in " " + g + " " + n + " " + v
  {
    assert ':' !in " " + g;
    assert ':' !in " " + g + " " + n;
  }

  /** The amounts of a VAT line, after ": ", split into three. */
  lemma AmountsPart(g: string, n: string, v: string)
    requires g != [] && n != [] && v != []
    requires NoSpace(g) && NoSpace(n) && NoSpace(v)
    ensures Split(Trim(" " + g + " " + n + " " + v), ' ') == [g, n, v]
  {
    var amounts := g + " " + n + " " + v;
    assert IsTrimmed(amounts) by {
      assert amounts[0] == g[0] && amounts[|amounts| - 1] == v[|v| - 1];
    }
    assert " " + g + " " + n + " " + v == " " + amounts;
    TrimLeadingSpace(amounts);
    assert ' ' !in g && ' ' !in n && ' ' !in v;
    SplitThree(g, n, v);
  }

  /** "6.00: 1916.00 1807.55 108.45": a VAT line written as a rate, ": " and
      three amounts separated by single spaces gives one entry holding the
      rate and the three amounts as `parseFloat` reads them. */
  lemma VatLineEntry(d: string, f: string, g: string, n: string, v: string)
    requires d != [] && f != [] && AllDigits(d) && AllDigits(f)
    requires g != [] && n != [] && v != []
    requires NoSpace(g) && NoSpace(n) && NoSpace(v)
    requires ':' !in g && ':' !in n && ':' !in v
    ensures var t := d + "." + f + ": " + g + " " + n + " " + v;
      IsVatLine(t) && VatEntryOf(t) ==
        VatEntry(Finite(DigitsValue(d) as real + FracValue(f)),
                 Num(ParseFloat(g)), Num(ParseFloat(n)), Num(ParseFloat(v)))
  {
    var rate := d + "." + f;
    var after := " " + g + " " + n + " " + v;
    VatLineShape(d, f, g, n, v);
    RateLine(d, f, after);
    RateValue(d, f);
    NoColonInRate(d, f);
    ColonFreeAmounts(g, n, v);
    EntryOfParts(rate, after);
    AmountsPart(g, n, v);
  }

  lemma VatLineShape(d: string, f: string, g: string, n: string, v: string)
    ensures d + "." + f + ": " + g + " " + n + " " + v == (d + "." + f) + ":" + (" " + g + " " + n + " " + v)
  {
  }

  /** A line with one ':' reads its rate before it and its amounts after it. */
  lemma EntryOfParts(rate: string, after: string)
    requires ':' !in rate && ':' !in after
    ensures var amounts := Split(Trim(after), ' ');
      ':' in rate + ":" + after &&
      VatEntryOf(rate + ":" + after) ==
        VatEntry(ParseFloat(Trim(rate)), AmountAt(amounts, 0), AmountAt(amounts, 1), AmountAt(amounts, 2))
  {
    SplitOnce(rate, after);
    assert (rate + ":" + after)[|rate|] == ':';
  }

  // ---------------------------------------------------------------------------
  // Key-value lines

  /** A "key: value" line stores the trimmed value, with any further ':' kept
      (times keep their colons), under the normalised key. */
  lemma KeyValueLine(acc: Collected, key: string, value: string)
    requires key != [] && ':' !in key
    requires var t := key + ":" + value; IsTrimmed(t) && !IsVatLine(t)
    ensures Step(acc, key + ":" + value).data == acc.data[NormalizeKey(key) := FieldValue(Trim(value))]
    ensures Step(acc, key + ":" + value).vatDetails == acc.vatDetails
  {
    var t := key + ":" + value;
    assert Trim(t) == t;
    KeyValueParts(key, value);
    var parts := Split(t, ':');
    assert Trim(Join(parts[1..], ":")) == Trim(value);
    assert Step(acc, t) == acc.(data := acc.data[NormalizeKey(parts[0]) := FieldValue(Trim(Join(parts[1..], ":")))]);
  }

  lemma KeyValueParts(key: string, value: string)
    requires ':' !in key
    ensures var parts := Split(key + ":" + value, ':');
      |parts| > 1 && parts[0] == key && Join(parts[1..], ":") == value
  {
    assert key + ":" + value == key + [':'] + value;
    SplitCons(key, value, ':');
    JoinSplit(value, ':');
  }

  // ---------------------------------------------------------------------------
  // Amounts

  lemma KeepDigits(a: string, keep: char -> bool)
    requires AllDigits(a) && forall c :: IsDigit(c) ==> keep(c)
    ensures Keep(a, keep) == a
  {
    KeepAll(a, keep);
  }

  /** "12,50 kr" reads as 12.5: digits, a decimal comma, digits and " kr". */
  lemma CommaAmount(a: string, b: string)
    requires a != [] && b != [] && AllDigits(a) && AllDigits(b)
    ensures IsAmountText(a + "," + b + " kr")
    ensures AmountValue(a + "," + b + " kr") == Finite(DigitsValue(a) as real + FracValue(b))
  {
    CommaAmountText(a, b);
    CommaAmountKept(a, b);
    CommaToDot(a, b);
    ParseFloatDecimal(a, b);
  }

  lemma CommaAmountText(a: string, b: string)
    requires a != [] && b != [] && AllDigits(a) && AllDigits(b)
    ensures IsAmountText(a + "," + b + " kr")
  {
    assert a + "," + b + " kr" == a + [','] + b + " kr";
    KrTail();
    FractionAmountText(a, ',', b, " kr");
  }

  /** Digits, a decimal mark, digits and a tail that trims to nothing or "kr". */
  lemma FractionAmountText(a: string, m: char, b: string, tail: string)
    requires a != [] && b != [] && AllDigits(a) && AllDigits(b)
    requires m == '.' || m == ','
    requires tail == [] || !IsDigit(tail[0])
    requires TrimStart(tail) == [] || ToLower(TrimStart(tail)) == "kr"
    ensures IsAmountText(a + [m] + b + tail)
  {
    var rest := [m] + b + tail;
    MarkedPieces(a, m, b, tail);
    DigitPrefixOf(a, rest);
    DigitPrefixOf(b, tail);
  }

  lemma MarkedPieces(a: string, m: char, b: string, tail: string)
    requires a != [] && AllDigits(a)
    ensures var rest := [m] + b + tail;
      && a + [m] + b + tail == a + rest && (a + rest)[0] != '-' && (a + rest)[|a|..] == rest
      && rest[0] == m && rest[1..] == b + tail && rest[1 + |b|..] == tail
  {
  }

  lemma KrTail()
    ensures TrimStart(" kr") == "kr" && ToLower("kr") == "kr"
  {
    TrimStartOne("kr");
  }

  lemma CommaAmountKept(a: string, b: string)
    requires AllDigits(a) && AllDigits(b)
    ensures Keep(a + "," + b + " kr", IsAmountChar) == a + "," + b
  {
    assert a + "," + b + " kr" == a + [','] + b + " kr";
    assert forall i :: 0 <= i < |" kr"| ==> !IsAmountChar(" kr"[i]);
    KeptAroundMark(a, ',', b, " kr", IsAmountChar);
  }

  /** Keeping digits around one kept mark drops a tail of dropped characters. */
  lemma KeptAroundMark(a: string, m: char, b: string, tail: string, keep: char -> bool)
    requires AllDigits(a) && AllDigits(b) && forall c :: IsDigit(c) ==> keep(c)
    requires keep(m) && forall i :: 0 <= i < |tail| ==> !keep(tail[i])
    ensures Keep(a + [m] + b + tail, keep) == a + [m] + b
  {
    var am := a + [m];
    KeepDigits(a, keep);
    KeepDigits(b, keep);
    KeepAll([m], keep);
    KeepConcat(a, [m], keep);
    assert Keep(am, keep) == am;
    KeepConcat(am, b, keep);
    assert Keep(am + b, keep) == am + b;
    KeepNone(tail, keep);
    KeepConcat(am + b, tail, keep);
  }

  lemma TrimStartOne(x: string)
    requires x != [] && !IsSpace(x[0])
    ensures TrimStart(" " + x) == x
  {
    assert (" " + x)[1..] == x;
  }

  lemma {:induction false} KeepNone(s: string, keep: char -> bool)
    requires forall i :: 0 <= i < |s| ==> !keep(s[i])
    ensures Keep(s, keep) == []
  {
    if s != [] {
      KeepNone(s[1..], keep);
    }
  }

  lemma CommaToDot(a: string, b: string)
    requires AllDigits(a)
    ensures ReplaceFirst(a + "," + b, ",", ".") == a + "." + b
  {
    assert ',' !in a;
    assert a + "," + b == a + ("," + b);
    ReplaceFirstSkip(a, "," + b, ",", ".");
    ReplaceFirstHead(b, ",", ".");
    assert a + ("." + b) == a + "." + b;
  }

  /** "12.50" reads as 1250: the dot is removed before the number is read. */
  lemma DotAmount(a: string, b: string)
    requires a != [] && b != [] && AllDigits(a) && AllDigits(b)
    ensures AllDigits(a + b)
    ensures IsAmountText(a + "." + b)
    ensures AmountValue(a + "." + b) == Finite(DigitsValue(a + b) as real)
  {
    DotAmountText(a, b);
    DotAmountKept(a, b);
    assert ',' !in a + b;
    CharOccurs(a + b, ',');
    ReplaceFirstAbsent(a + b, ",", ".");
    ParseFloatDecimal(a + b, "");
  }

  lemma DotAmountText(a: string, b: string)
    requires a != [] && b != [] && AllDigits(a) && AllDigits(b)
    ensures IsAmountText(a + "." + b)
  {
    var s := a + "." + b;
    assert s == a + ("." + b);
    DigitPrefixOf(a, "." + b);
    assert s[|a|..] == "." + b;
    assert ("." + b)[1..] == b;
    FullDigitPrefix(b);
    assert b[|b|..] == [];
  }

  lemma DotAmountKept(a: string, b: string)
    requires AllDigits(a) && AllDigits(b)
    ensures AllDigits(a + b)
    ensures Keep(a + "." + b, IsAmountChar) == a + b
  {
    var s := a + "." + b;
    assert s == a + ("." + b);
    KeepConcat(a, "." + b, IsAmountChar);
    KeepConcat(".", b, IsAmountChar);
    KeepDigits(a, IsAmountChar);
    KeepDigits(b, IsAmountChar);
    assert Keep(".", IsAmountChar) == [];
  }

  // ---------------------------------------------------------------------------
  // Defaults and the schema

  /** A missing `lonegr_ex_moms` becomes 0, and a falsy `cash` or `to_report`
      becomes 0. */
  lemma Defaults(c: Collected)
    ensures "lonegr_ex_moms" !in c.data ==> Get(ToParse(c), "lonegr_ex_moms") == N(0.0)
    ensures !Truthy(Get(Obj(c.data), "cash")) ==> Get(ToParse(c), "cash") == N(0.0)
    ensures !Truthy(Get(Obj(c.data), "to_report")) ==> Get(ToParse(c), "to_report") == N(0.0)
  {
  }

  /** A field of the schema's first part that fails makes the parse throw,
      and its path is in the message's list. */
  lemma FailingFieldReported(c: Collected, i: nat)
    requires i < |HeadShape()| && !Zod.Accepts(HeadShape()[i].1, Get(ToParse(c), HeadShape()[i].0))
    ensures Finish(c).Throws? && HeadShape()[i].0 in SchemaIssues(c)
  {
  }

  /** A VAT entry with an unreadable amount makes the parse throw. */
  lemma FailingEntryReported(c: Collected, i: nat)
    requires i < |c.vatDetails| && EntryIssues(c.vatDetails[i], i) != []
    ensures Finish(c).Throws?
  {
    assert VatIssues(c.vatDetails, 0) != [];
  }

  /** On success the VAT rows are the entries' own numbers, one row per VAT line. */
  lemma ParsedRows(c: Collected)
    requires Finish(c).Returns?
    ensures var r := Finish(c).value;
      && |r.vat_details| == |c.vatDetails|
      && forall i :: 0 <= i < |c.vatDetails| ==>
           && c.vatDetails[i].rate == Finite(r.vat_details[i].rate)
           && c.vatDetails[i].gross == N(r.vat_details[i].gross)
           && c.vatDetails[i].net == N(r.vat_details[i].net)
           && c.vatDetails[i].vat == N(r.vat_details[i].vat)
  {
    var rows := Finish(c).value.vat_details;
    assert VatIssues(c.vatDetails, 0) == [];
    assert rows == RecordOf(c).vat_details;
    forall i | 0 <= i < |c.vatDetails|
      ensures && c.vatDetails[i].rate == Finite(rows[i].rate)
              && c.vatDetails[i].gross == N(rows[i].gross)
              && c.vatDetails[i].net == N(rows[i].net)
              && c.vatDetails[i].vat == N(rows[i].vat)
    {
      assert EntryIssues(c.vatDetails[i], 0 + i) == [];
      RowOfValid(c.vatDetails[i]);
    }
  }

  lemma RowOfValid(e: VatEntry)
    requires e.rate.Finite? && IsNumber(e.gross) && IsNumber(e.net) && IsNumber(e.vat)
    ensures var row := RowOf(e);
      e.rate == Finite(row.rate) && e.gross == N(row.gross) && e.net == N(row.net) && e.vat == N(row.vat)
  {
  }
}
