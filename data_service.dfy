/** src/services/dataService.ts: the oldest shift save. The company, the car
    (by `reg_nr`) and the driver (by `driver_id`) are looked up one after the
    other, none within the company found; there is no duplicate check; the
    shift row copies the fields of the data as they are, except that the wage
    column is read from the misspelt key `longegr_ex_moms`; then the VAT rows
    are written, untyped, when there are any. A failure after the shift row was
    written leaves that row behind. */
module DataService {
  import opened Js
  import opened Store
  import opened ShiftService

  const COMPANY_NOT_FOUND := "Company not found"
  const CAR_NOT_FOUND := "Car not found"
  const DRIVER_NOT_FOUND := "Driver not found"

  function CarFilter(data: Value): seq<(string, Value)> { [("reg_nr", Get(data, "reg_nr"))] }
  function DriverFilter(data: Value): seq<(string, Value)> { [("driver_id", Get(data, "driver_id"))] }

  /** The row a VAT detail becomes: its four fields as they are, and no type. */
  function VatRow(shiftId: Value, d: Value): (r: Row)
    ensures "shift_id" in r && r["shift_id"] == shiftId
  {
    map["shift_id" := shiftId, "vat_rate" := Get(d, "vat_rate"), "gross_income" := Get(d, "gross_income"),
        "net_income" := Get(d, "net_income"), "vat_amount" := Get(d, "vat_amount")]
  }

  function VatRows(shiftId: Value, items: seq<Value>): (r: seq<Row>)
    ensures |r| == |items|
    ensures forall i :: 0 <= i < |r| ==> "shift_id" in r[i] && r[i]["shift_id"] == shiftId
  {
    seq(|items|, i requires 0 <= i < |items| => VatRow(shiftId, items[i]))
  }

  /** The VAT rows: nothing unless `vat_details && vat_details.length > 0`;
      an error when they cannot be mapped; otherwise one batch with a row for
      every detail, in order. */
  function VatStep(shiftId: Value, details: Value): (r: Step)
    ensures !(Truthy(details) && Positive(LengthOf(details))) ==> r == Returns(None)
    ensures r.Returns? && r.value.Some? ==>
      && details.Arr?
      && r.value.value.table == VatDetails
      && r.value.value.onError == StoreError(VatDetails)
      && r.value.value.rows == VatRows(shiftId, details.items)
      && |details.items| > 0
  {
    if !(Truthy(details) && Positive(LengthOf(details))) then Returns(None)
    else if !details.Arr? then Throws("data.vat_details.map is not a function")
    else match FirstMissing(details.items)
      case Some(d) => Throws(ReadError(d, "vat_rate"))
      case None =>
        assert details.items != [] by {
          if details.items == [] {
            PositiveNumber(0.0);
          }
        }
        Returns(Some(Batch(VatDetails, VatRows(shiftId, details.items), StoreError(VatDetails))))
  }

  /** The only step after the shift row. */
  function Steps(shiftId: Value, data: Value): seq<Step> { [VatStep(shiftId, Get(data, "vat_details"))] }

  /** The shift row sent: the ids of the car and driver found and the fields
      of the data as they are, the wage read from `longegr_ex_moms`. */
  function ShiftColumns(data: Value, car: Row, driver: Row): Row {
    var copied := map["start_time" := Get(data, "start_time"), "end_time" := Get(data, "end_time"),
        "taxi_km" := Get(data, "taxi_km"), "paid_km" := Get(data, "paid_km"), "trips" := Get(data, "trips"),
        "report_nr" := Get(data, "report_nr"), "bom_avbest" := Get(data, "bom_avbest"),
        "total_income" := Get(data, "total_income"), "cash" := Get(data, "cash"),
        "to_report" := Get(data, "to_report"), "total_credit" := Get(data, "total_credit")];
    copied["lonegr_ex_moms" := Get(data, "longegr_ex_moms")]["driver_id" := RowId(driver)]["car_id" := RowId(car)]
  }

  /** The row the store keeps: the columns and the id it gave the shift. */
  function StoredShift(data: Value, car: Row, driver: Row, id: string): (r: Row)
    ensures "id" in r && r["id"] == Str(id)
  {
    ShiftColumns(data, car, driver)["id" := Str(id)]
  }

  /** The shift insert, then the VAT rows if it succeeded. */
  function Insert(failing: set<Table>, nextId: nat, data: Value, car: Row, driver: Row): (s: Saved)
    ensures s.lookups == [] && s.stored == Some(StoredShift(data, car, driver, IdOf(nextId)))
    ensures s.steps == Steps(RowId(StoredShift(data, car, driver, IdOf(nextId))), data)
  {
    var shift := StoredShift(data, car, driver, IdOf(nextId));
    Finish(failing, shift, Steps(RowId(shift), data), StoreError(Shifts))
  }

  /** The driver lookup, then the insert. */
  function WithCar(tables: map<Table, seq<Row>>, failing: set<Table>, nextId: nat, data: Value, car: Row): Saved {
    var driver := Lookup(tables, failing, Drivers, DriverFilter(data));
    if driver.None? then Stopped([Read(Drivers)], DRIVER_NOT_FOUND)
    else After([Read(Drivers)], Insert(failing, nextId, data, car, driver.value))
  }

  /** The car lookup, then the rest. */
  function Resolve(tables: map<Table, seq<Row>>, failing: set<Table>, nextId: nat, data: Value): Saved {
    var car := Lookup(tables, failing, Cars, CarFilter(data));
    if car.None? then Stopped([Read(Cars)], CAR_NOT_FOUND)
    else After([Read(Cars)], WithCar(tables, failing, nextId, data, car.value))
  }

  /** What `saveShiftData` does against the store. */
  function Save(tables: map<Table, seq<Row>>, failing: set<Table>, nextId: nat, data: Value): Saved {
    if Missing(data) then Stopped([], ReadError(data, "org_nr"))
    else if Lookup(tables, failing, Companies, CompanyKeys(data)).None? then Stopped([Read(Companies)], COMPANY_NOT_FOUND)
    else After([Read(Companies)], Resolve(tables, failing, nextId, data))
  }

  /** The shift insert and the VAT rows. */
  method InsertShift(db: Database, data: Value, car: Row, driver: Row) returns (r: Completion<Row>)
    requires db.Valid()
    modifies db`tables, db`log, db`nextId
    ensures db.Valid()
    ensures var s := Insert(db.failing, old(db.nextId), data, car, driver);
      db.log == old(db.log) + s.Ops() && r == s.result && db.nextId == old(db.nextId) + 1
  {
    ghost var stored := StoredShift(data, car, driver, IdOf(db.nextId));
    ghost var steps := Steps(RowId(stored), data);
    assert Insert(db.failing, db.nextId, data, car, driver) == Finish(db.failing, stored, steps, StoreError(Shifts));
    FinishLog(db.log, db.failing, stored, steps, StoreError(Shifts));
    var shift := db.InsertShift(ShiftColumns(data, car, driver));
    if shift.None? {
      r := Throws(StoreError(Shifts));
    } else {
      assert shift.value == stored;
      var error := db.RunAll(Steps(RowId(shift.value), data));
      r := if error.Some? then Throws(error.value) else Returns(shift.value);
    }
  }

  /** The driver lookup, then the insert. */
  method FindDriver(db: Database, data: Value, car: Row) returns (r: Completion<Row>)
    requires db.Valid()
    modifies db`tables, db`log, db`nextId
    ensures db.Valid()
    ensures var s := WithCar(old(db.tables), db.failing, old(db.nextId), data, car);
      && db.log == old(db.log) + s.Ops() && r == s.result
      && db.nextId == old(db.nextId) + (if s.stored.Some? then 1 else 0)
  {
    ghost var tables := db.tables;
    var driver := db.QuerySingle(Drivers, DriverFilter(data));
    if driver.None? {
      return Throws(DRIVER_NOT_FOUND);
    }
    ghost var inserted := Insert(db.failing, db.nextId, data, car, driver.value);
    assert WithCar(tables, db.failing, db.nextId, data, car) == After([Read(Drivers)], inserted);
    ghost var log := db.log;
    LogAfter(old(db.log), [Read(Drivers)], inserted);
    r := InsertShift(db, data, car, driver.value);
    assert db.log == log + inserted.Ops() && r == inserted.result;
  }

  /** The car lookup, then the rest. */
  method ResolveShift(db: Database, data: Value) returns (r: Completion<Row>)
    requires db.Valid()
    modifies db`tables, db`log, db`nextId
    ensures db.Valid()
    ensures var s := Resolve(old(db.tables), db.failing, old(db.nextId), data);
      && db.log == old(db.log) + s.Ops() && r == s.result
      && db.nextId == old(db.nextId) + (if s.stored.Some? then 1 else 0)
  {
    ghost var tables := db.tables;
    var car := db.QuerySingle(Cars, CarFilter(data));
    if car.None? {
      return Throws(CAR_NOT_FOUND);
    }
    ghost var rest := WithCar(tables, db.failing, db.nextId, data, car.value);
    assert Resolve(tables, db.failing, db.nextId, data) == After([Read(Cars)], rest);
    ghost var log := db.log;
    LogAfter(old(db.log), [Read(Cars)], rest);
    r := FindDriver(db, data, car.value);
    assert db.log == log + rest.Ops() && r == rest.result;
  }

  /** `saveShiftData`: the requests in order, each against the store as the
      earlier ones left it. */
  method SaveShiftData(db: Database, data: Value) returns (r: Completion<Row>)
    requires db.Valid()
    modifies db`tables, db`log, db`nextId
    ensures db.Valid()
    ensures var s := Save(old(db.tables), db.failing, old(db.nextId), data);
      && db.log == old(db.log) + s.Ops()
      && r == s.result
      && db.tables == Replay(old(db.tables), s.Ops())
      && db.nextId == old(db.nextId) + (if s.stored.Some? then 1 else 0)
  {
    ghost var tables := db.tables;
    if Missing(data) {
      r := Throws(ReadError(data, "org_nr"));
    } else {
      var company := db.QuerySingle(Companies, CompanyKeys(data));
      if company.None? {
        r := Throws(COMPANY_NOT_FOUND);
      } else {
        ghost var resolved := Resolve(tables, db.failing, db.nextId, data);
        assert Save(tables, db.failing, db.nextId, data) == After([Read(Companies)], resolved);
        ghost var log := db.log;
        LogAfter(old(db.log), [Read(Companies)], resolved);
        r := ResolveShift(db, data);
        assert db.log == log + resolved.Ops() && r == resolved.result;
      }
    }
    ReplayConcat(db.initial, old(db.log), db.log[|old(db.log)|..]);
    assert old(db.log) + db.log[|old(db.log)|..] == db.log;
  }

  // ---------------------------------------------------------------------------
  // Properties

  /** What a save promises, stated once: the generic shape, and a shift row
      stored under the next id and followed by its own VAT rows. */
  predicate Promised(s: Saved, failing: set<Table>, nextId: nat, data: Value) {
    && WellFormed(s, failing)
    && (s.stored.Some? ==>
          && "id" in s.stored.value && s.stored.value["id"] == Str(IdOf(nextId))
          && s.steps == Steps(RowId(s.stored.value), data))
  }

  lemma WithCarWellFormed(tables: map<Table, seq<Row>>, failing: set<Table>, nextId: nat, data: Value, car: Row)
    ensures Promised(WithCar(tables, failing, nextId, data, car), failing, nextId, data)
  {
    var driver := Lookup(tables, failing, Drivers, DriverFilter(data));
    if driver.Some? {
      var shift := StoredShift(data, car, driver.value, IdOf(nextId));
      FinishWellFormed(failing, shift, Steps(RowId(shift), data), StoreError(Shifts));
      AfterWellFormed([Read(Drivers)], Insert(failing, nextId, data, car, driver.value), failing);
    }
  }

  lemma ResolveWellFormed(tables: map<Table, seq<Row>>, failing: set<Table>, nextId: nat, data: Value)
    ensures Promised(Resolve(tables, failing, nextId, data), failing, nextId, data)
  {
    var car := Lookup(tables, failing, Cars, CarFilter(data));
    if car.Some? {
      WithCarWellFormed(tables, failing, nextId, data, car.value);
      AfterWellFormed([Read(Cars)], WithCar(tables, failing, nextId, data, car.value), failing);
    }
  }

  /** Every save has the generic shape, and a shift row it stores carries the
      next id and is followed by its own VAT rows. */
  lemma SaveWellFormed(tables: map<Table, seq<Row>>, failing: set<Table>, nextId: nat, data: Value)
    ensures Promised(Save(tables, failing, nextId, data), failing, nextId, data)
  {
    if !Missing(data) && Lookup(tables, failing, Companies, CompanyKeys(data)).Some? {
      ResolveWellFormed(tables, failing, nextId, data);
      AfterWellFormed([Read(Companies)], Resolve(tables, failing, nextId, data), failing);
    }
  }

  /** The shift row refers to the car and the driver found. */
  lemma StoredIds(data: Value, car: Row, driver: Row, id: string)
    ensures var shift := StoredShift(data, car, driver, id);
      "car_id" in shift && shift["car_id"] == RowId(car) && "driver_id" in shift && shift["driver_id"] == RowId(driver)
  {
  }

  /** The car and driver are found by their own numbers alone, and the shift
      row is inserted without a duplicate check: Shifts is never read. */
  lemma UnscopedNoDuplicateCheck(tables: map<Table, seq<Row>>, failing: set<Table>, nextId: nat, data: Value, car: Row, driver: Row)
    requires !Missing(data) && Lookup(tables, failing, Companies, CompanyKeys(data)).Some?
    requires Lookup(tables, failing, Cars, CarFilter(data)) == Some(car)
    requires Lookup(tables, failing, Drivers, DriverFilter(data)) == Some(driver)
    requires Shifts !in failing
    ensures var s := Save(tables, failing, nextId, data);
      && s.lookups == [Read(Companies), Read(Cars), Read(Drivers)]
      && s.stored == Some(StoredShift(data, car, driver, IdOf(nextId)))
      && s.stored.value["car_id"] == RowId(car) && s.stored.value["driver_id"] == RowId(driver)
      && s.stored.value in RowsIn(Replay(tables, s.Ops()), Shifts)
  {
    var inserted := Insert(failing, nextId, data, car, driver);
    assert WithCar(tables, failing, nextId, data, car) == After([Read(Drivers)], inserted);
    assert Resolve(tables, failing, nextId, data) == After([Read(Cars)], After([Read(Drivers)], inserted));
    StoredIds(data, car, driver, IdOf(nextId));
    SaveKeepsShiftRow(tables, failing, nextId, data);
  }

  /** The wage column is read from `longegr_ex_moms`: the `lonegr_ex_moms`
      field of the data never reaches the shift row. */
  lemma WageReadFromMisspeltKey(data: Value, car: Row, driver: Row, id: string)
    ensures StoredShift(data, car, driver, id)["lonegr_ex_moms"] == Get(data, "longegr_ex_moms")
    ensures data.Obj? && "lonegr_ex_moms" in data.fields && "longegr_ex_moms" !in data.fields ==>
      StoredShift(data, car, driver, id)["lonegr_ex_moms"] == Undefined
  {
    var copied := ShiftColumns(data, car, driver);
    assert copied["lonegr_ex_moms"] == Get(data, "longegr_ex_moms");
  }

  /** The VAT rows carry the detail's four fields as they are and no type. */
  lemma VatRowUntyped(shiftId: Value, d: Value)
    ensures "type" !in VatRow(shiftId, d)
    ensures VatRow(shiftId, d).Keys == {"shift_id", "vat_rate", "gross_income", "net_income", "vat_amount"}
  {
  }

  /** A save that stops before the shift insert leaves the store as it was. */
  lemma StoppedWritesNothing(tables: map<Table, seq<Row>>, failing: set<Table>, nextId: nat, data: Value)
    requires Save(tables, failing, nextId, data).stored.None?
    ensures Save(tables, failing, nextId, data).result.Throws?
    ensures Replay(tables, Save(tables, failing, nextId, data).Ops()) == tables
  {
    SaveWellFormed(tables, failing, nextId, data);
    StoppedKeepsStore(tables, Save(tables, failing, nextId, data), failing);
  }

  /** A successful save stores the shift row under a fresh id, then its VAT
      rows, if any. */
  lemma SavedWritesEverything(tables: map<Table, seq<Row>>, failing: set<Table>, nextId: nat, data: Value)
    requires Save(tables, failing, nextId, data).result.Returns?
    ensures var s := Save(tables, failing, nextId, data);
      var shift := s.result.value;
      && s.stored == Some(shift)
      && "id" in shift && shift["id"] == Str(IdOf(nextId))
      && Replay(tables, s.Ops()) ==
         Replay(tables[Shifts := RowsIn(tables, Shifts) + [shift]], Written(Steps(RowId(shift), data)))
  {
    SaveWellFormed(tables, failing, nextId, data);
    SucceededWritesAll(tables, Save(tables, failing, nextId, data), failing);
  }

  /** The save is not atomic: a failing VAT insert leaves the shift row in
      the store. */
  lemma SaveKeepsShiftRow(tables: map<Table, seq<Row>>, failing: set<Table>, nextId: nat, data: Value)
    requires Save(tables, failing, nextId, data).stored.Some? && Shifts !in failing
    ensures var s := Save(tables, failing, nextId, data);
      s.stored.value in RowsIn(Replay(tables, s.Ops()), Shifts)
  {
    SaveWellFormed(tables, failing, nextId, data);
    ShiftRowKept(tables, Save(tables, failing, nextId, data), failing);
  }
}
