/** src/services/shiftService.ts: a parsed receipt saved as a shift. The
    company is looked up by organisation number; a shift with the same car,
    driver, times and report number is refused; the car and driver are looked
    up within the company; the shift row is inserted and then, one section at
    a time, the VAT rows of the cash and credit sections, the "total inkört"
    rows and the BOM rows, each keeping only the details with a positive gross
    or net amount. Every request goes to the store on its own, so a failure
    after the shift row was written leaves that row (and any earlier batch)
    behind. */
module ShiftService {
  import opened Js
  import opened Store
  import DateTime
  import Vat

  const DUPLICATE := "Ett skift med samma information finns redan registrerat"

  function CompanyMissing(orgNr: Value): string { "Företag med org.nr " + ToStr(orgNr) + " hittades inte" }
  function CarMissing(regnr: Value): string { "Bil med reg.nr " + ToStr(regnr) + " hittades inte" }
  function DriverMissing(forarid: Value): string { "Förare med ID " + ToStr(forarid) + " hittades inte" }

  function CompanyKeys(data: Value): seq<(string, Value)> { [("org_nr", Get(data, "org_nr"))] }
  function CarKeys(data: Value, companyId: Value): seq<(string, Value)> {
    [("regnr", Get(data, "regnr")), ("company_id", companyId)]
  }
  function DriverKeys(data: Value, companyId: Value): seq<(string, Value)> {
    [("forarid", Get(data, "forarid")), ("company_id", companyId)]
  }
  /** The columns that identify a shift as already registered. */
  function ShiftKeys(data: Value, car: Row, driver: Row, start: string, end: string): seq<(string, Value)> {
    [("car_id", RowId(car)), ("driver_id", RowId(driver)), ("start_time", Str(start)), ("end_time", Str(end)),
     ("report_nr", Get(data, "rapportnr"))]
  }

  // ---------------------------------------------------------------------------
  // checkShiftExists

  datatype Existing = Existing(ops: seq<Op>, found: bool)

  /** The shift query of `checkShiftExists`, once the car and driver are
      found: no request when a time cannot be formatted, and a failing query
      reads as "no such shift". A shift is reported exactly when both times
      format and the store holds one matching the car, the driver, both
      formatted times and the report number. */
  function ShiftQuery(tables: map<Table, seq<Row>>, failing: set<Table>, data: Value, car: Row, driver: Row): (e: Existing)
    ensures NoWrites(e.ops)
    ensures e.found ==>
      (Shifts !in failing && exists row :: row in RowsIn(tables, Shifts) && Eq(row, "report_nr", Get(data, "rapportnr")))
    ensures e.found <==>
      var start := DateTime.FormatValueForDB(Get(data, "start_time"));
      var end := DateTime.FormatValueForDB(Get(data, "end_time"));
      && start.Returns? && end.Returns? && Shifts !in failing
      && exists row :: row in RowsIn(tables, Shifts) && Matches(row, ShiftKeys(data, car, driver, start.value, end.value))
  {
    var start := DateTime.FormatValueForDB(Get(data, "start_time"));
    var end := DateTime.FormatValueForDB(Get(data, "end_time"));
    if start.Throws? || end.Throws? then Existing([], false)
    else
      var keys := ShiftKeys(data, car, driver, start.value, end.value);
      var found := Shifts !in failing && Select(RowsIn(tables, Shifts), keys) != [];
      if found then
        var row := Select(RowsIn(tables, Shifts), keys)[0];
        assert Matches(row, keys) && keys[4] == ("report_nr", Get(data, "rapportnr"));
        Existing([Read(Shifts)], true)
      else Existing([Read(Shifts)], false)
  }

  /** `checkShiftExists`: both lookups run; when either finds nothing, when a
      time cannot be formatted or when the shift query fails the answer is
      "no such shift", so a failure lets the save go on. A shift is reported
      exactly when the car and driver are found within the company, both
      times format and the store holds a shift matching all five keys. */
  function CheckExists(tables: map<Table, seq<Row>>, failing: set<Table>, data: Value, companyId: Value): (e: Existing)
    ensures NoWrites(e.ops)
    ensures e.found ==>
      (Shifts !in failing && exists row :: row in RowsIn(tables, Shifts) && Eq(row, "report_nr", Get(data, "rapportnr")))
    ensures e.found <==>
      var car := Lookup(tables, failing, Cars, CarKeys(data, companyId));
      var driver := Lookup(tables, failing, Drivers, DriverKeys(data, companyId));
      var start := DateTime.FormatValueForDB(Get(data, "start_time"));
      var end := DateTime.FormatValueForDB(Get(data, "end_time"));
      && car.Some? && driver.Some? && start.Returns? && end.Returns? && Shifts !in failing
      && exists row :: row in RowsIn(tables, Shifts) && Matches(row, ShiftKeys(data, car.value, driver.value, start.value, end.value))
  {
    var car := Lookup(tables, failing, Cars, CarKeys(data, companyId));
    var driver := Lookup(tables, failing, Drivers, DriverKeys(data, companyId));
    var ops := [Read(Cars), Read(Drivers)];
    if car.None? || driver.None? then Existing(ops, false)
    else
      var query := ShiftQuery(tables, failing, data, car.value, driver.value);
      NoWritesConcat(ops, query.ops);
      Existing(ops + query.ops, query.found)
  }

  /** A stored shift with the same car, driver, times and report number is
      found whenever its car and driver are found and both times format. */
  lemma DuplicateFound(tables: map<Table, seq<Row>>, failing: set<Table>, data: Value, companyId: Value,
                       car: Row, driver: Row, start: string, end: string, row: Row)
    requires Lookup(tables, failing, Cars, CarKeys(data, companyId)) == Some(car)
    requires Lookup(tables, failing, Drivers, DriverKeys(data, companyId)) == Some(driver)
    requires DateTime.FormatValueForDB(Get(data, "start_time")) == Returns(start)
    requires DateTime.FormatValueForDB(Get(data, "end_time")) == Returns(end)
    requires Shifts !in failing && row in RowsIn(tables, Shifts) && Matches(row, ShiftKeys(data, car, driver, start, end))
    ensures CheckExists(tables, failing, data, companyId).found
  {
    assert row in Select(RowsIn(tables, Shifts), ShiftKeys(data, car, driver, start, end));
  }

  /** The check fails open: when any of its requests fails, no duplicate is
      reported. */
  lemma FailOpen(tables: map<Table, seq<Row>>, failing: set<Table>, data: Value, companyId: Value)
    requires Shifts in failing || Cars in failing || Drivers in failing
    ensures !CheckExists(tables, failing, data, companyId).found
  {
  }

  // ---------------------------------------------------------------------------
  // The detail sections

  /** `section?.moms_details` */
  function Details(section: Value): Value {
    if section.Null? || section.Undefined? then Undefined else Get(section, "moms_details")
  }

  predicate Missing(v: Value) { v.Null? || v.Undefined? }

  /** The first null or undefined element, whose property read stops the map. */
  function FirstMissing(items: seq<Value>): (r: Option<Value>)
    ensures r.None? <==> forall i :: 0 <= i < |items| ==> !Missing(items[i])
    ensures r.Some? ==> Missing(r.value) && r.value in items
  {
    if items == [] then None
    else if Missing(items[0]) then Some(items[0])
    else
      assert forall i :: 1 <= i < |items| ==> items[1..][i - 1] == items[i];
      FirstMissing(items[1..])
  }

  /** `detail.brutto > 0 || detail.netto > 0` */
  predicate Kept(d: Value) { Positive(Get(d, "brutto")) || Positive(Get(d, "netto")) }

  /** `filterValidVatDetails` over the elements of an array: the details with
      a positive gross or net amount, in order; the first null or undefined
      element stops the filter with the error of reading its `brutto`. */
  function FilterValid(items: seq<Value>): (r: Completion<seq<Value>>)
    ensures r.Throws? <==> exists i :: 0 <= i < |items| && Missing(items[i])
    ensures r.Throws? ==>
      exists i :: 0 <= i < |items| && Missing(items[i]) && r.message == ReadError(items[i], "brutto") &&
        forall j :: 0 <= j < i ==> !Missing(items[j])
    ensures r.Returns? ==> |r.value| <= |items| && forall d :: d in r.value <==> d in items && Kept(d)
  {
    if items == [] then Returns([])
    else if Missing(items[0]) then Throws(ReadError(items[0], "brutto"))
    else
      var rest := FilterValid(items[1..]);
      assert forall j :: 1 <= j < |items| ==> items[1..][j - 1] == items[j];
      if rest.Throws? then
        assert forall i :: 0 <= i < |items[1..]| ==> items[1..][i] == items[i + 1];
        rest
      else Returns((if Kept(items[0]) then [items[0]] else []) + rest.value)
  }

  /** The filter keeps order and repeats: filtering two runs one after the
      other gives the two filtered runs one after the other. */
  lemma {:induction false} FilterValidConcat(a: seq<Value>, b: seq<Value>)
    requires FilterValid(a).Returns? && FilterValid(b).Returns?
    ensures FilterValid(a + b) == Returns(FilterValid(a).value + FilterValid(b).value)
    decreases |a|
  {
    if a == [] {
      assert a + b == b;
      assert FilterValid(a).value == [];
      assert FilterValid(a).value + FilterValid(b).value == FilterValid(b).value;
    } else {
      assert (a + b)[0] == a[0];
      assert (a + b)[1..] == a[1..] + b;
      assert !Missing(a[0]);
      assert FilterValid(a[1..]).Returns?;
      FilterValidConcat(a[1..], b);
      var x, y := FilterValid(a[1..]).value, FilterValid(b).value;
      FilterValidCons(a);
      FilterValidCons(a + b);
      var head := if Kept(a[0]) then [a[0]] else [];
      ConcatAssoc(head, x, y);
    }
  }

  /** Over details none of which is null or undefined, the filter is the
      plain order-keeping filter by `Kept`. */
  lemma {:induction false} FilterValidIsFilter(items: seq<Value>)
    requires forall i :: 0 <= i < |items| ==> !Missing(items[i])
    ensures FilterValid(items) == Returns(Vat.Filter(items, Kept))
  {
    if items == [] {
      assert Vat.Filter(items, Kept) == [];
    } else {
      assert forall i :: 0 <= i < |items[1..]| ==> items[1..][i] == items[i + 1];
      FilterValidIsFilter(items[1..]);
      FilterValidCons(items);
      var rest := Vat.Filter(items[1..], Kept);
      if Kept(items[0]) {
        assert Vat.Filter(items, Kept) == [items[0]] + rest;
      } else {
        assert Vat.Filter(items, Kept) == rest;
        assert [] + rest == rest;
      }
    }
  }

  lemma ConcatAssoc<T>(h: seq<T>, x: seq<T>, y: seq<T>)
    ensures h + (x + y) == (h + x) + y
  {
  }

  /** One step of the filter over a present first detail whose rest passes. */
  lemma FilterValidCons(items: seq<Value>)
    requires items != [] && !Missing(items[0]) && FilterValid(items[1..]).Returns?
    ensures FilterValid(items) == Returns((if Kept(items[0]) then [items[0]] else []) + FilterValid(items[1..]).value)
  {
  }

  /** One present detail is kept exactly when its gross or net amount is positive. */
  lemma FilterValidOne(d: Value)
    requires !Missing(d)
    ensures FilterValid([d]) == Returns(if Kept(d) then [d] else [])
  {
    assert [d][1..] == [];
    assert FilterValid([]) == Returns([]);
    var head: seq<Value> := if Kept(d) then [d] else [];
    assert FilterValid([d]) == Returns(head + []);
    assert head + [] == head;
  }

  /** The four sections and the table each is written to. */
  datatype Section = Kontant | Kredit | TotalInkort(total: Value) | Bom

  function TableOf(s: Section): Table {
    match s
    case Kontant => VatDetails
    case Kredit => VatDetails
    case TotalInkort(_) => TotalInkortDetails
    case Bom => BomDetails
  }

  /** `Number(detail[key])` */
  function NumberAt(d: Value, key: string): Value { Num(ToNumber(Get(d, key))) }

  /** The row a kept detail becomes in its section's table. */
  function DetailRow(shiftId: Value, s: Section, d: Value): (r: Row)
    ensures "shift_id" in r && r["shift_id"] == shiftId
  {
    match s
    case Kontant =>
      map["shift_id" := shiftId, "vat_rate" := NumberAt(d, "moms_percentage"), "gross_income" := NumberAt(d, "brutto"),
          "net_income" := NumberAt(d, "netto"), "vat_amount" := NumberAt(d, "moms_kr"), "type" := Str("kontant")]
    case Kredit =>
      map["shift_id" := shiftId, "vat_rate" := NumberAt(d, "moms_percentage"), "gross_income" := NumberAt(d, "brutto"),
          "net_income" := NumberAt(d, "netto"), "vat_amount" := NumberAt(d, "moms_kr"), "type" := Str("kredit")]
    case TotalInkort(total) =>
      map["shift_id" := shiftId, "total_inkort" := Num(ToNumber(total)), "moms_percentage" := NumberAt(d, "moms_percentage"),
          "brutto" := NumberAt(d, "brutto"), "netto" := NumberAt(d, "netto"), "moms_kr" := NumberAt(d, "moms_kr")]
    case Bom =>
      map["shift_id" := shiftId, "moms_percentage" := NumberAt(d, "moms_percentage"),
          "brutto" := NumberAt(d, "brutto"), "netto" := NumberAt(d, "netto"), "moms_kr" := NumberAt(d, "moms_kr")]
  }

  function DetailRows(shiftId: Value, s: Section, kept: seq<Value>): (r: seq<Row>)
    ensures |r| == |kept|
    ensures forall i :: 0 <= i < |r| ==> "shift_id" in r[i] && r[i]["shift_id"] == shiftId
  {
    seq(|kept|, i requires 0 <= i < |kept| => DetailRow(shiftId, s, kept[i]))
  }

  /** Every row of a batch refers to the shift. */
  predicate Tagged(b: Batch, shiftId: Value) {
    forall i :: 0 <= i < |b.rows| ==> "shift_id" in b.rows[i] && b.rows[i]["shift_id"] == shiftId
  }

  /** One section: nothing unless `details?.length > 0`; an error when the
      details have no `filter`; nothing when no detail is kept; otherwise one
      batch of rows, all referring to the shift, in the section's table. */
  function SectionStep(shiftId: Value, s: Section, details: Value): (r: Step)
    ensures !Positive(LengthOf(details)) ==> r == Returns(None)
    ensures r.Returns? && r.value.Some? ==>
      && details.Arr?
      && r.value.value.table == TableOf(s)
      && r.value.value.onError == StoreError(TableOf(s))
      && 0 < |r.value.value.rows| <= |details.items|
      && Tagged(r.value.value, shiftId)
  {
    if !Positive(LengthOf(details)) then Returns(None)
    else if !details.Arr? then Throws("details.filter is not a function")
    else match FilterValid(details.items)
      case Throws(m) => Throws(m)
      case Returns(kept) =>
        if kept == [] then Returns(None)
        else Returns(Some(Batch(TableOf(s), DetailRows(shiftId, s, kept), StoreError(TableOf(s)))))
  }

  /** The steps after the shift row, in the order the source takes them. */
  function Steps(shiftId: Value, data: Value): (r: seq<Step>)
    ensures |r| == 4
    ensures forall i :: 0 <= i < 4 && r[i].Returns? && r[i].value.Some? ==> Tagged(r[i].value.value, shiftId)
  {
    var total := Get(data, "total_inkort_details");
    [SectionStep(shiftId, Kontant, Details(Get(data, "kontant_details"))),
     SectionStep(shiftId, Kredit, Details(Get(data, "kredit_details"))),
     SectionStep(shiftId, TotalInkort(Get(total, "total_inkort")), Details(total)),
     SectionStep(shiftId, Bom, Details(Get(data, "varav_bom_avbest_details")))]
  }

  /** Nothing is kept of details that all have zero (or negative) gross and
      net amounts. */
  lemma {:induction false} NothingKept(items: seq<Value>)
    requires forall i :: 0 <= i < |items| ==> !Missing(items[i]) && !Kept(items[i])
    ensures FilterValid(items) == Returns([])
  {
    if items != [] {
      NothingKept(items[1..]);
    }
  }

  /** A section whose details all have zero (or negative) gross and net
      amounts writes nothing. */
  lemma ZeroDetailsSkipped(shiftId: Value, s: Section, details: Value)
    requires details.Arr?
    requires forall i :: 0 <= i < |details.items| ==> !Missing(details.items[i]) && !Kept(details.items[i])
    ensures SectionStep(shiftId, s, details) == Returns(None)
  {
    NothingKept(details.items);
  }

  // ---------------------------------------------------------------------------
  // The shift row

  /** The shift row before the store gives it an id: the ids of the car and
      driver found, the formatted times, the report number as given and the
      amounts as `Number(x) || 0`, which is never NaN. */
  datatype ShiftRow = ShiftRow(
    car_id: Value, driver_id: Value, start_time: string, end_time: string,
    taxi_km: real, paid_km: real, trips: real, report_nr: Value, cash: real, to_report: real,
    total_credit: real, drikskredit: real, lonegr_ex_moms: real)

  function RootRow(data: Value, car: Row, driver: Row, start: string, end: string): ShiftRow {
    ShiftRow(RowId(car), RowId(driver), start, end,
      NumberOrZero(Get(data, "taxitrafik_km")), NumberOrZero(Get(data, "betalda_km")), NumberOrZero(Get(data, "turer")),
      Get(data, "rapportnr"), NumberOrZero(Get(data, "kontant")), NumberOrZero(Get(data, "att_redovisa")),
      NumberOrZero(Get(data, "total_kredit")), NumberOrZero(Get(data, "drikskredit")), NumberOrZero(Get(data, "lonegr_ex_moms")))
  }

  /** The columns of the shift row. */
  function Columns(root: ShiftRow): Row {
    map["car_id" := root.car_id, "driver_id" := root.driver_id, "start_time" := Str(root.start_time),
        "end_time" := Str(root.end_time), "taxi_km" := N(root.taxi_km), "paid_km" := N(root.paid_km),
        "trips" := N(root.trips), "report_nr" := root.report_nr, "cash" := N(root.cash), "to_report" := N(root.to_report),
        "total_credit" := N(root.total_credit), "drikskredit" := N(root.drikskredit),
        "lonegr_ex_moms" := N(root.lonegr_ex_moms)]
  }

  /** The row the store keeps: the columns and the id it gave the shift. */
  function Stored(root: ShiftRow, id: string): (r: Row)
    ensures "id" in r && r["id"] == Str(id)
  {
    Columns(root)["id" := Str(id)]
  }

  // ---------------------------------------------------------------------------
  // saveShiftData

  /** The shift insert, then the sections while nothing fails. */
  function Insert(failing: set<Table>, nextId: nat, data: Value, root: ShiftRow): (s: Saved)
    ensures s.lookups == [] && s.stored == Some(Stored(root, IdOf(nextId)))
    ensures s.steps == Steps(RowId(Stored(root, IdOf(nextId))), data)
  {
    var shift := Stored(root, IdOf(nextId));
    Finish(failing, shift, Steps(RowId(shift), data), StoreError(Shifts))
  }

  /** The times of the shift, then the insert. */
  function Schedule(failing: set<Table>, nextId: nat, data: Value, car: Row, driver: Row): (s: Saved)
    ensures s.lookups == []
    ensures s.stored.Some? ==> "id" in s.stored.value && s.stored.value["id"] == Str(IdOf(nextId))
  {
    match DateTime.FormatValueForDB(Get(data, "start_time"))
    case Throws(m) => Stopped([], m)
    case Returns(start) =>
      match DateTime.FormatValueForDB(Get(data, "end_time"))
      case Throws(m) => Stopped([], m)
      case Returns(end) => Insert(failing, nextId, data, RootRow(data, car, driver, start, end))
  }

  /** The lookups of the car and the driver within the company, then the
      times and the insert. */
  function Prepare(tables: map<Table, seq<Row>>, failing: set<Table>, nextId: nat, data: Value, companyId: Value): (s: Saved)
    ensures s.stored.Some? ==> "id" in s.stored.value && s.stored.value["id"] == Str(IdOf(nextId))
  {
    var car := Lookup(tables, failing, Cars, CarKeys(data, companyId));
    if car.None? then Stopped([Read(Cars)], CarMissing(Get(data, "regnr")))
    else
      var driver := Lookup(tables, failing, Drivers, DriverKeys(data, companyId));
      if driver.None? then Stopped([Read(Cars), Read(Drivers)], DriverMissing(Get(data, "forarid")))
      else After([Read(Cars), Read(Drivers)], Schedule(failing, nextId, data, car.value, driver.value))
  }

  /** The duplicate check within the company, then the rest. */
  function Registered(tables: map<Table, seq<Row>>, failing: set<Table>, nextId: nat, data: Value, companyId: Value): (s: Saved)
    ensures s.stored.Some? ==> "id" in s.stored.value && s.stored.value["id"] == Str(IdOf(nextId))
  {
    var check := CheckExists(tables, failing, data, companyId);
    if check.found then Stopped(check.ops, DUPLICATE)
    else
      After(check.ops, Prepare(tables, failing, nextId, data, companyId))
  }

  /** What `saveShiftData` does against the store. */
  function Save(tables: map<Table, seq<Row>>, failing: set<Table>, nextId: nat, data: Value): (s: Saved)
    ensures s.stored.Some? ==> "id" in s.stored.value && s.stored.value["id"] == Str(IdOf(nextId))
    ensures Missing(data) ==> s == Stopped([], ReadError(data, "org_nr"))
    ensures !Missing(data) ==> |s.lookups| > 0 && s.lookups[0] == Read(Companies)
  {
    if Missing(data) then Stopped([], ReadError(data, "org_nr"))
    else
      var company := Lookup(tables, failing, Companies, CompanyKeys(data));
      if company.None? then Stopped([Read(Companies)], CompanyMissing(Get(data, "org_nr")))
      else
        After([Read(Companies)], Registered(tables, failing, nextId, data, RowId(company.value)))
  }

  /** `checkShiftExists` against the store. */
  method CheckShiftExists(db: Database, data: Value, companyId: Value) returns (found: bool)
    requires db.Valid()
    modifies db`log
    ensures db.Valid()
    ensures db.log == old(db.log) + CheckExists(db.tables, db.failing, data, companyId).ops
    ensures found == CheckExists(db.tables, db.failing, data, companyId).found
  {
    ghost var tables := db.tables;
    var car := db.QuerySingle(Cars, CarKeys(data, companyId));
    var driver := db.QuerySingle(Drivers, DriverKeys(data, companyId));
    if car.None? || driver.None? {
      CheckMissing(tables, db.failing, data, companyId);
      return false;
    }
    assert db.log == old(db.log) + [Read(Cars), Read(Drivers)];
    CheckFound(tables, db.failing, data, companyId, car.value, driver.value, old(db.log));
    found := QueryShift(db, data, car.value, driver.value);
  }

  /** Without the car or the driver, nothing is found after the two lookups. */
  lemma CheckMissing(tables: map<Table, seq<Row>>, failing: set<Table>, data: Value, companyId: Value)
    requires Lookup(tables, failing, Cars, CarKeys(data, companyId)).None?
      || Lookup(tables, failing, Drivers, DriverKeys(data, companyId)).None?
    ensures CheckExists(tables, failing, data, companyId) == Existing([Read(Cars), Read(Drivers)], false)
  {
  }

  /** With both found, the check is the shift query after the two lookups. */
  lemma CheckFound(tables: map<Table, seq<Row>>, failing: set<Table>, data: Value, companyId: Value,
                   car: Row, driver: Row, log: seq<Op>)
    requires Lookup(tables, failing, Cars, CarKeys(data, companyId)) == Some(car)
    requires Lookup(tables, failing, Drivers, DriverKeys(data, companyId)) == Some(driver)
    ensures var c, q := CheckExists(tables, failing, data, companyId), ShiftQuery(tables, failing, data, car, driver);
      (log + [Read(Cars), Read(Drivers)]) + q.ops == log + c.ops && c.found == q.found
  {
  }

  /** The shift query, once the car and driver are found. */
  method QueryShift(db: Database, data: Value, car: Row, driver: Row) returns (found: bool)
    requires db.Valid()
    modifies db`log
    ensures db.Valid()
    ensures db.log == old(db.log) + ShiftQuery(db.tables, db.failing, data, car, driver).ops
    ensures found == ShiftQuery(db.tables, db.failing, data, car, driver).found
  {
    var start := DateTime.FormatValueForDB(Get(data, "start_time"));
    var end := DateTime.FormatValueForDB(Get(data, "end_time"));
    if start.Throws? || end.Throws? {
      return false;
    }
    var shifts := db.Query(Shifts, ShiftKeys(data, car, driver, start.value, end.value));
    found := shifts.Some? && |shifts.value| > 0;
  }

  /** The shift insert and the sections. */
  method InsertShift(db: Database, data: Value, root: ShiftRow) returns (r: Completion<Row>)
    requires db.Valid()
    modifies db`tables, db`log, db`nextId
    ensures db.Valid()
    ensures var s := Insert(db.failing, old(db.nextId), data, root);
      db.log == old(db.log) + s.Ops() && r == s.result && db.nextId == old(db.nextId) + 1
  {
    ghost var stored := Stored(root, IdOf(db.nextId));
    ghost var steps := Steps(RowId(stored), data);
    assert Insert(db.failing, db.nextId, data, root) == Finish(db.failing, stored, steps, StoreError(Shifts));
    FinishLog(db.log, db.failing, stored, steps, StoreError(Shifts));
    var shift := db.InsertShift(Columns(root));
    if shift.None? {
      r := Throws(StoreError(Shifts));
    } else {
      assert shift.value == stored;
      var error := db.RunAll(Steps(RowId(shift.value), data));
      r := if error.Some? then Throws(error.value) else Returns(shift.value);
    }
  }

  /** The times of the shift and the insert. */
  method ScheduleShift(db: Database, data: Value, car: Row, driver: Row) returns (r: Completion<Row>)
    requires db.Valid()
    modifies db`tables, db`log, db`nextId
    ensures db.Valid()
    ensures var s := Schedule(db.failing, old(db.nextId), data, car, driver);
      && db.log == old(db.log) + s.Ops() && r == s.result
      && db.nextId == old(db.nextId) + (if s.stored.Some? then 1 else 0)
  {
    var start := DateTime.FormatValueForDB(Get(data, "start_time"));
    if start.Throws? {
      return Throws(start.message);
    }
    var end := DateTime.FormatValueForDB(Get(data, "end_time"));
    if end.Throws? {
      return Throws(end.message);
    }
    r := InsertShift(db, data, RootRow(data, car, driver, start.value, end.value));
  }

  /** The car and driver lookups, then the rest. */
  method PrepareShift(db: Database, data: Value, companyId: Value) returns (r: Completion<Row>)
    requires db.Valid()
    modifies db`tables, db`log, db`nextId
    ensures db.Valid()
    ensures var s := Prepare(old(db.tables), db.failing, old(db.nextId), data, companyId);
      && db.log == old(db.log) + s.Ops() && r == s.result
      && db.nextId == old(db.nextId) + (if s.stored.Some? then 1 else 0)
  {
    ghost var tables := db.tables;
    var car := db.QuerySingle(Cars, CarKeys(data, companyId));
    if car.None? {
      CarNotFound(tables, db.failing, db.nextId, data, companyId);
      return Throws(CarMissing(Get(data, "regnr")));
    }
    var driver := db.QuerySingle(Drivers, DriverKeys(data, companyId));
    if driver.None? {
      DriverNotFound(tables, db.failing, db.nextId, data, companyId);
      return Throws(DriverMissing(Get(data, "forarid")));
    }
    assert db.log == old(db.log) + [Read(Cars), Read(Drivers)];
    BothFound(tables, db.failing, db.nextId, data, companyId, car.value, driver.value, old(db.log));
    r := ScheduleShift(db, data, car.value, driver.value);
  }

  /** Without the car, the save stops after its lookup, storing nothing. */
  lemma CarNotFound(tables: map<Table, seq<Row>>, failing: set<Table>, nextId: nat, data: Value, companyId: Value)
    requires Lookup(tables, failing, Cars, CarKeys(data, companyId)).None?
    ensures var p := Prepare(tables, failing, nextId, data, companyId);
      p.Ops() == [Read(Cars)] && p.result == Throws(CarMissing(Get(data, "regnr"))) && p.stored.None?
  {
  }

  /** Without the driver, the save stops after both lookups, storing nothing. */
  lemma DriverNotFound(tables: map<Table, seq<Row>>, failing: set<Table>, nextId: nat, data: Value, companyId: Value)
    requires Lookup(tables, failing, Cars, CarKeys(data, companyId)).Some?
    requires Lookup(tables, failing, Drivers, DriverKeys(data, companyId)).None?
    ensures var p := Prepare(tables, failing, nextId, data, companyId);
      p.Ops() == [Read(Cars), Read(Drivers)] && p.result == Throws(DriverMissing(Get(data, "forarid"))) && p.stored.None?
  {
  }

  /** With the car and the driver found, the save goes on with the schedule. */
  lemma BothFound(tables: map<Table, seq<Row>>, failing: set<Table>, nextId: nat, data: Value, companyId: Value,
                  car: Row, driver: Row, log: seq<Op>)
    requires Lookup(tables, failing, Cars, CarKeys(data, companyId)) == Some(car)
    requires Lookup(tables, failing, Drivers, DriverKeys(data, companyId)) == Some(driver)
    ensures var p, s := Prepare(tables, failing, nextId, data, companyId), Schedule(failing, nextId, data, car, driver);
      && (log + [Read(Cars), Read(Drivers)]) + s.Ops() == log + p.Ops()
      && p.result == s.result && p.stored == s.stored
  {
    LogAfter(log, [Read(Cars), Read(Drivers)], Schedule(failing, nextId, data, car, driver));
  }

  /** The duplicate check within the company, then the rest. */
  method RegisterShift(db: Database, data: Value, companyId: Value) returns (r: Completion<Row>)
    requires db.Valid()
    modifies db`tables, db`log, db`nextId
    ensures db.Valid()
    ensures var s := Registered(old(db.tables), db.failing, old(db.nextId), data, companyId);
      && db.log == old(db.log) + s.Ops() && r == s.result
      && db.nextId == old(db.nextId) + (if s.stored.Some? then 1 else 0)
  {
    ghost var tables := db.tables;
    var found := CheckShiftExists(db, data, companyId);
    if found {
      DuplicateStops(tables, db.failing, db.nextId, data, companyId);
      r := Throws(DUPLICATE);
    } else {
      NoDuplicateGoesOn(tables, db.failing, db.nextId, data, companyId, old(db.log));
      r := PrepareShift(db, data, companyId);
    }
  }

  /** A duplicate stops the save after the check, storing nothing. */
  lemma DuplicateStops(tables: map<Table, seq<Row>>, failing: set<Table>, nextId: nat, data: Value, companyId: Value)
    requires CheckExists(tables, failing, data, companyId).found
    ensures var g := Registered(tables, failing, nextId, data, companyId);
      g.Ops() == CheckExists(tables, failing, data, companyId).ops && g.result == Throws(DUPLICATE) && g.stored.None?
  {
  }

  /** Without a duplicate the save goes on with the lookups. */
  lemma NoDuplicateGoesOn(tables: map<Table, seq<Row>>, failing: set<Table>, nextId: nat, data: Value, companyId: Value,
                          log: seq<Op>)
    requires !CheckExists(tables, failing, data, companyId).found
    ensures var c, g := CheckExists(tables, failing, data, companyId), Registered(tables, failing, nextId, data, companyId);
      var p := Prepare(tables, failing, nextId, data, companyId);
      (log + c.ops) + p.Ops() == log + g.Ops() && g.result == p.result && g.stored == p.stored
  {
    LogAfter(log, CheckExists(tables, failing, data, companyId).ops, Prepare(tables, failing, nextId, data, companyId));
  }

  /** `saveShiftData`: the requests in order, each against the store as the
      earlier ones left it. */
  method SaveShiftData(db: Database, data: Value) returns (r: Completion<Row>)
    requires db.Valid()
    modifies db`tables, db`log, db`nextId
    ensures db.Valid()
    ensures var s := Save(old(db.tables), db.failing, old(db.nextId), data);
      && db.log == old(db.log) + s.Ops()
      && r == s.result
      && db.tables == Replay(old(db.tables), s.Ops())
      && db.nextId == old(db.nextId) + (if s.stored.Some? then 1 else 0)
  {
    ghost var tables := db.tables;
    if Missing(data) {
      r := Throws(ReadError(data, "org_nr"));
    } else {
      var company := db.QuerySingle(Companies, CompanyKeys(data));
      if company.None? {
        r := Throws(CompanyMissing(Get(data, "org_nr")));
      } else {
        ghost var registered := Registered(tables, db.failing, db.nextId, data, RowId(company.value));
        assert Save(tables, db.failing, db.nextId, data) == After([Read(Companies)], registered);
        ghost var log := db.log;
        LogAfter(old(db.log), [Read(Companies)], registered);
        r := RegisterShift(db, data, RowId(company.value));
        assert db.log == log + registered.Ops() && r == registered.result;
      }
    }
    ReplayConcat(db.initial, old(db.log), db.log[|old(db.log)|..]);
    assert old(db.log) + db.log[|old(db.log)|..] == db.log;
  }

  // ---------------------------------------------------------------------------
  // Properties

  /** What the layers promise of a save, stated once: the generic shape, and
      a shift row stored under the next id and followed by its sections. */
  predicate Promised(s: Saved, failing: set<Table>, nextId: nat, data: Value) {
    && WellFormed(s, failing)
    && (s.stored.Some? ==>
          && "id" in s.stored.value && s.stored.value["id"] == Str(IdOf(nextId))
          && s.steps == Steps(RowId(s.stored.value), data))
  }

  lemma ScheduleWellFormed(failing: set<Table>, nextId: nat, data: Value, car: Row, driver: Row)
    ensures Promised(Schedule(failing, nextId, data, car, driver), failing, nextId, data)
  {
    match DateTime.FormatValueForDB(Get(data, "start_time"))
    case Throws(m) =>
    case Returns(start) =>
      match DateTime.FormatValueForDB(Get(data, "end_time"))
      case Throws(m) =>
      case Returns(end) =>
        var root := RootRow(data, car, driver, start, end);
        var shift := Stored(root, IdOf(nextId));
        FinishWellFormed(failing, shift, Steps(RowId(shift), data), StoreError(Shifts));
  }

  lemma PrepareWellFormed(tables: map<Table, seq<Row>>, failing: set<Table>, nextId: nat, data: Value, companyId: Value)
    ensures Promised(Prepare(tables, failing, nextId, data, companyId), failing, nextId, data)
  {
    var car := Lookup(tables, failing, Cars, CarKeys(data, companyId));
    var driver := Lookup(tables, failing, Drivers, DriverKeys(data, companyId));
    if car.Some? && driver.Some? {
      ScheduleWellFormed(failing, nextId, data, car.value, driver.value);
      AfterWellFormed([Read(Cars), Read(Drivers)], Schedule(failing, nextId, data, car.value, driver.value), failing);
    }
  }

  lemma RegisteredWellFormed(tables: map<Table, seq<Row>>, failing: set<Table>, nextId: nat, data: Value, companyId: Value)
    ensures Promised(Registered(tables, failing, nextId, data, companyId), failing, nextId, data)
  {
    var check := CheckExists(tables, failing, data, companyId);
    if !check.found {
      PrepareWellFormed(tables, failing, nextId, data, companyId);
      AfterWellFormed(check.ops, Prepare(tables, failing, nextId, data, companyId), failing);
    }
  }

  /** Every save has the generic shape, and a shift row it stores carries the
      next id and is followed by its own sections. */
  lemma SaveWellFormed(tables: map<Table, seq<Row>>, failing: set<Table>, nextId: nat, data: Value)
    ensures Promised(Save(tables, failing, nextId, data), failing, nextId, data)
  {
    if !Missing(data) {
      var company := Lookup(tables, failing, Companies, CompanyKeys(data));
      if company.Some? {
        RegisteredWellFormed(tables, failing, nextId, data, RowId(company.value));
        AfterWellFormed([Read(Companies)], Registered(tables, failing, nextId, data, RowId(company.value)), failing);
      }
    }
  }

  /** A save that stops before the shift insert leaves the store as it was. */
  lemma StoppedWritesNothing(tables: map<Table, seq<Row>>, failing: set<Table>, nextId: nat, data: Value)
    requires Save(tables, failing, nextId, data).stored.None?
    ensures Save(tables, failing, nextId, data).result.Throws?
    ensures Replay(tables, Save(tables, failing, nextId, data).Ops()) == tables
  {
    SaveWellFormed(tables, failing, nextId, data);
    StoppedKeepsStore(tables, Save(tables, failing, nextId, data), failing);
  }

  /** A registered duplicate is refused before anything is written. */
  lemma DuplicateRefused(tables: map<Table, seq<Row>>, failing: set<Table>, nextId: nat, data: Value, company: Row)
    requires !Missing(data)
    requires Lookup(tables, failing, Companies, CompanyKeys(data)) == Some(company)
    requires CheckExists(tables, failing, data, RowId(company)).found
    ensures Save(tables, failing, nextId, data).result == Throws(DUPLICATE)
    ensures Replay(tables, Save(tables, failing, nextId, data).Ops()) == tables
  {
    StoppedWritesNothing(tables, failing, nextId, data);
  }

  /** A successful save stores the shift row under a fresh id, then every
      batch of its sections. */
  lemma SavedWritesEverything(tables: map<Table, seq<Row>>, failing: set<Table>, nextId: nat, data: Value)
    requires Save(tables, failing, nextId, data).result.Returns?
    ensures var s := Save(tables, failing, nextId, data);
      var shift := s.result.value;
      && s.stored == Some(shift)
      && "id" in shift && shift["id"] == Str(IdOf(nextId))
      && Replay(tables, s.Ops()) ==
         Replay(tables[Shifts := RowsIn(tables, Shifts) + [shift]], Written(Steps(RowId(shift), data)))
  {
    SaveWellFormed(tables, failing, nextId, data);
    SucceededWritesAll(tables, Save(tables, failing, nextId, data), failing);
  }

  /** The save is not atomic: once the shift row is inserted it stays in the
      store, whatever later section fails. */
  lemma SaveKeepsShiftRow(tables: map<Table, seq<Row>>, failing: set<Table>, nextId: nat, data: Value)
    requires Save(tables, failing, nextId, data).stored.Some? && Shifts !in failing
    ensures var s := Save(tables, failing, nextId, data);
      s.stored.value in RowsIn(Replay(tables, s.Ops()), Shifts)
  {
    SaveWellFormed(tables, failing, nextId, data);
    ShiftRowKept(tables, Save(tables, failing, nextId, data), failing);
  }
}
