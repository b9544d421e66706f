/** src/services/shifts/saveShift.ts: a shift saved straight from the raw
    data. The company, the car (by registration and cab number) and the driver
    are looked up one after the other, none of them within the company found;
    there is no duplicate check; the times are stored as given; the amounts
    become `Number(x) || 0`; then every detail of each section is written,
    none filtered out, with its numbers as `Number(x)`. A failure after the
    shift row was written leaves that row behind. */
module SaveShift {
  import opened Js
  import opened Store
  import opened ShiftService

  function CompanyNotFound(orgNr: Value): string { "Company with org number " + ToStr(orgNr) + " not found" }
  function CarNotFound(regnr: Value, drosknr: Value): string {
    "Car with registration " + ToStr(regnr) + " and drosk number " + ToStr(drosknr) + " not found"
  }
  function DriverNotFound(forarid: Value): string { "Driver with ID " + ToStr(forarid) + " not found" }

  /** The car is looked up by registration and cab number only. */
  function CarFilter(raw: Value): seq<(string, Value)> {
    [("regnr", Get(raw, "regnr")), ("drosknr", Get(raw, "drosknr"))]
  }
  /** The driver is looked up by driver number only. */
  function DriverFilter(raw: Value): seq<(string, Value)> { [("forarid", Get(raw, "forarid"))] }

  /** The key of a section in the raw data. */
  function SectionKey(s: Section): string {
    match s
    case Kontant => "kontant_details"
    case Kredit => "kredit_details"
    case TotalInkort(_) => "total_inkort_details"
    case Bom => "varav_bom_avbest_details"
  }

  /** One section: nothing unless `section?.moms_details?.length > 0`; an
      error when the details cannot be mapped; otherwise one batch with a row
      for every detail, in order, each referring to the shift. */
  function SectionStep(shiftId: Value, s: Section, section: Value): (r: Step)
    ensures !Positive(LengthOf(Details(section))) ==> r == Returns(None)
    ensures r.Returns? && r.value.Some? ==>
      && Details(section).Arr?
      && r.value.value.table == TableOf(s)
      && r.value.value.onError == StoreError(TableOf(s))
      && r.value.value.rows == DetailRows(shiftId, s, Details(section).items)
      && |r.value.value.rows| == |Details(section).items| > 0
      && Tagged(r.value.value, shiftId)
  {
    var details := Details(section);
    if !Positive(LengthOf(details)) then Returns(None)
    else if !details.Arr? then Throws("rawData." + SectionKey(s) + ".moms_details.map is not a function")
    else match FirstMissing(details.items)
      case Some(d) => Throws(ReadError(d, "moms_percentage"))
      case None =>
        assert details.items != [] by {
          if details.items == [] {
            PositiveNumber(0.0);
          }
        }
        Returns(Some(Batch(TableOf(s), DetailRows(shiftId, s, details.items), StoreError(TableOf(s)))))
  }

  /** The steps after the shift row: cash, credit, total driven, BOM. */
  function Steps(shiftId: Value, raw: Value): (r: seq<Step>)
    ensures |r| == 4
    ensures forall i :: 0 <= i < 4 && r[i].Returns? && r[i].value.Some? ==> Tagged(r[i].value.value, shiftId)
  {
    var total := Get(raw, "total_inkort_details");
    [SectionStep(shiftId, Kontant, Get(raw, "kontant_details")),
     SectionStep(shiftId, Kredit, Get(raw, "kredit_details")),
     SectionStep(shiftId, TotalInkort(Get(total, "total_inkort")), total),
     SectionStep(shiftId, Bom, Get(raw, "varav_bom_avbest_details"))]
  }

  /** The shift row sent: the ids of the car and driver found, the times as
      given, the report number as given and every amount as `Number(x) || 0`. */
  function ShiftColumns(raw: Value, car: Row, driver: Row): Row {
    var amounts := map["taxi_km" := N(NumberOrZero(Get(raw, "taxitrafik_km"))), "paid_km" := N(NumberOrZero(Get(raw, "betalda_km"))),
        "trips" := N(NumberOrZero(Get(raw, "turer"))), "report_nr" := Get(raw, "rapportnr"),
        "cash" := N(NumberOrZero(Get(raw, "kontant"))), "to_report" := N(NumberOrZero(Get(raw, "att_redovisa"))),
        "total_credit" := N(NumberOrZero(Get(raw, "total_kredit"))), "drikskredit" := N(NumberOrZero(Get(raw, "drikskredit"))),
        "lonegr_ex_moms" := N(NumberOrZero(Get(raw, "lonegr_ex_moms")))];
    amounts["start_time" := Get(raw, "starttid")]["end_time" := Get(raw, "sluttid")]
      ["driver_id" := RowId(driver)]["car_id" := RowId(car)]
  }

  /** The row the store keeps: the columns and the id it gave the shift. */
  function StoredShift(raw: Value, car: Row, driver: Row, id: string): (r: Row)
    ensures "id" in r && r["id"] == Str(id)
  {
    ShiftColumns(raw, car, driver)["id" := Str(id)]
  }

  /** The shift insert, then the sections while nothing fails. */
  function Insert(failing: set<Table>, nextId: nat, raw: Value, car: Row, driver: Row): (s: Saved)
    ensures s.lookups == [] && s.stored == Some(StoredShift(raw, car, driver, IdOf(nextId)))
    ensures s.steps == Steps(RowId(StoredShift(raw, car, driver, IdOf(nextId))), raw)
  {
    var shift := StoredShift(raw, car, driver, IdOf(nextId));
    Finish(failing, shift, Steps(RowId(shift), raw), StoreError(Shifts))
  }

  /** The driver lookup, then the insert. */
  function WithCar(tables: map<Table, seq<Row>>, failing: set<Table>, nextId: nat, raw: Value, car: Row): (s: Saved)
  {
    var driver := Lookup(tables, failing, Drivers, DriverFilter(raw));
    if driver.None? then Stopped([Read(Drivers)], DriverNotFound(Get(raw, "forarid")))
    else After([Read(Drivers)], Insert(failing, nextId, raw, car, driver.value))
  }

  /** The car lookup, then the rest. */
  function Resolve(tables: map<Table, seq<Row>>, failing: set<Table>, nextId: nat, raw: Value): (s: Saved)
  {
    var car := Lookup(tables, failing, Cars, CarFilter(raw));
    if car.None? then Stopped([Read(Cars)], CarNotFound(Get(raw, "regnr"), Get(raw, "drosknr")))
    else After([Read(Cars)], WithCar(tables, failing, nextId, raw, car.value))
  }

  /** What `saveShift` does against the store. */
  function Save(tables: map<Table, seq<Row>>, failing: set<Table>, nextId: nat, raw: Value): (s: Saved)
  {
    if Missing(raw) then Stopped([], ReadError(raw, "org_nr"))
    else if Lookup(tables, failing, Companies, CompanyKeys(raw)).None? then
      Stopped([Read(Companies)], CompanyNotFound(Get(raw, "org_nr")))
    else After([Read(Companies)], Resolve(tables, failing, nextId, raw))
  }

  /** The shift insert and the sections. */
  method InsertShift(db: Database, raw: Value, car: Row, driver: Row) returns (r: Completion<Row>)
    requires db.Valid()
    modifies db`tables, db`log, db`nextId
    ensures db.Valid()
    ensures var s := Insert(db.failing, old(db.nextId), raw, car, driver);
      db.log == old(db.log) + s.Ops() && r == s.result && db.nextId == old(db.nextId) + 1
  {
    ghost var stored := StoredShift(raw, car, driver, IdOf(db.nextId));
    ghost var steps := Steps(RowId(stored), raw);
    assert Insert(db.failing, db.nextId, raw, car, driver) == Finish(db.failing, stored, steps, StoreError(Shifts));
    FinishLog(db.log, db.failing, stored, steps, StoreError(Shifts));
    var shift := db.InsertShift(ShiftColumns(raw, car, driver));
    if shift.None? {
      r := Throws(StoreError(Shifts));
    } else {
      assert shift.value == stored;
      var error := db.RunAll(Steps(RowId(shift.value), raw));
      r := if error.Some? then Throws(error.value) else Returns(shift.value);
    }
  }

  /** The driver lookup, then the insert. */
  method FindDriver(db: Database, raw: Value, car: Row) returns (r: Completion<Row>)
    requires db.Valid()
    modifies db`tables, db`log, db`nextId
    ensures db.Valid()
    ensures var s := WithCar(old(db.tables), db.failing, old(db.nextId), raw, car);
      && db.log == old(db.log) + s.Ops() && r == s.result
      && db.nextId == old(db.nextId) + (if s.stored.Some? then 1 else 0)
  {
    ghost var tables := db.tables;
    var driver := db.QuerySingle(Drivers, DriverFilter(raw));
    if driver.None? {
      return Throws(DriverNotFound(Get(raw, "forarid")));
    }
    DriverFound(tables, db.failing, db.nextId, raw, car, driver.value, old(db.log));
    r := InsertShift(db, raw, car, driver.value);
  }

  /** With the driver found, the save goes on with the insert. */
  lemma DriverFound(tables: map<Table, seq<Row>>, failing: set<Table>, nextId: nat, raw: Value, car: Row, driver: Row, log: seq<Op>)
    requires Lookup(tables, failing, Drivers, DriverFilter(raw)) == Some(driver)
    ensures var s, i := WithCar(tables, failing, nextId, raw, car), Insert(failing, nextId, raw, car, driver);
      && (log + [Read(Drivers)]) + i.Ops() == log + s.Ops()
      && s.result == i.result && s.stored == i.stored
  {
    LogAfter(log, [Read(Drivers)], Insert(failing, nextId, raw, car, driver));
  }

  /** The car lookup, then the rest. */
  method ResolveShift(db: Database, raw: Value) returns (r: Completion<Row>)
    requires db.Valid()
    modifies db`tables, db`log, db`nextId
    ensures db.Valid()
    ensures var s := Resolve(old(db.tables), db.failing, old(db.nextId), raw);
      && db.log == old(db.log) + s.Ops() && r == s.result
      && db.nextId == old(db.nextId) + (if s.stored.Some? then 1 else 0)
  {
    ghost var tables := db.tables;
    var car := db.QuerySingle(Cars, CarFilter(raw));
    if car.None? {
      return Throws(CarNotFound(Get(raw, "regnr"), Get(raw, "drosknr")));
    }
    ghost var rest := WithCar(tables, db.failing, db.nextId, raw, car.value);
    assert Resolve(tables, db.failing, db.nextId, raw) == After([Read(Cars)], rest);
    ghost var log := db.log;
    LogAfter(old(db.log), [Read(Cars)], rest);
    r := FindDriver(db, raw, car.value);
    assert db.log == log + rest.Ops() && r == rest.result;
  }

  /** `saveShift`: the requests in order, each against the store as the
      earlier ones left it. */
  method SaveShiftData(db: Database, raw: Value) returns (r: Completion<Row>)
    requires db.Valid()
    modifies db`tables, db`log, db`nextId
    ensures db.Valid()
    ensures var s := Save(old(db.tables), db.failing, old(db.nextId), raw);
      && db.log == old(db.log) + s.Ops()
      && r == s.result
      && db.tables == Replay(old(db.tables), s.Ops())
      && db.nextId == old(db.nextId) + (if s.stored.Some? then 1 else 0)
  {
    ghost var tables := db.tables;
    if Missing(raw) {
      r := Throws(ReadError(raw, "org_nr"));
    } else {
      var company := db.QuerySingle(Companies, CompanyKeys(raw));
      if company.None? {
        r := Throws(CompanyNotFound(Get(raw, "org_nr")));
      } else {
        ghost var resolved := Resolve(tables, db.failing, db.nextId, raw);
        assert Save(tables, db.failing, db.nextId, raw) == After([Read(Companies)], resolved);
        ghost var log := db.log;
        LogAfter(old(db.log), [Read(Companies)], resolved);
        r := ResolveShift(db, raw);
        assert db.log == log + resolved.Ops() && r == resolved.result;
      }
    }
    ReplayConcat(db.initial, old(db.log), db.log[|old(db.log)|..]);
    assert old(db.log) + db.log[|old(db.log)|..] == db.log;
  }

  // ---------------------------------------------------------------------------
  // Properties

  /** What a save promises, stated once: the generic shape, and a shift row
      stored under the next id and followed by its own sections. */
  predicate Promised(s: Saved, failing: set<Table>, nextId: nat, raw: Value) {
    && WellFormed(s, failing)
    && (s.stored.Some? ==>
          && "id" in s.stored.value && s.stored.value["id"] == Str(IdOf(nextId))
          && s.steps == Steps(RowId(s.stored.value), raw))
  }

  lemma WithCarWellFormed(tables: map<Table, seq<Row>>, failing: set<Table>, nextId: nat, raw: Value, car: Row)
    ensures Promised(WithCar(tables, failing, nextId, raw, car), failing, nextId, raw)
  {
    var driver := Lookup(tables, failing, Drivers, DriverFilter(raw));
    if driver.Some? {
      var shift := StoredShift(raw, car, driver.value, IdOf(nextId));
      FinishWellFormed(failing, shift, Steps(RowId(shift), raw), StoreError(Shifts));
      AfterWellFormed([Read(Drivers)], Insert(failing, nextId, raw, car, driver.value), failing);
    }
  }

  lemma ResolveWellFormed(tables: map<Table, seq<Row>>, failing: set<Table>, nextId: nat, raw: Value)
    ensures Promised(Resolve(tables, failing, nextId, raw), failing, nextId, raw)
  {
    var car := Lookup(tables, failing, Cars, CarFilter(raw));
    if car.Some? {
      WithCarWellFormed(tables, failing, nextId, raw, car.value);
      AfterWellFormed([Read(Cars)], WithCar(tables, failing, nextId, raw, car.value), failing);
    }
  }

  /** Every save has the generic shape, and a shift row it stores carries the
      next id and is followed by its own sections. */
  lemma SaveWellFormed(tables: map<Table, seq<Row>>, failing: set<Table>, nextId: nat, raw: Value)
    ensures Promised(Save(tables, failing, nextId, raw), failing, nextId, raw)
  {
    if !Missing(raw) && Lookup(tables, failing, Companies, CompanyKeys(raw)).Some? {
      ResolveWellFormed(tables, failing, nextId, raw);
      AfterWellFormed([Read(Companies)], Resolve(tables, failing, nextId, raw), failing);
    }
  }

  /** The shift row refers to the car and the driver found. */
  lemma StoredIds(raw: Value, car: Row, driver: Row, id: string)
    ensures var shift := StoredShift(raw, car, driver, id);
      "car_id" in shift && shift["car_id"] == RowId(car) && "driver_id" in shift && shift["driver_id"] == RowId(driver)
  {
  }

  /** There is no duplicate check: the save never reads the Shifts table, and
      once the company, car and driver are found the shift row is inserted
      whatever Shifts already holds. The car and driver are the ones found by
      their own numbers alone, whichever company they belong to. */
  lemma NoDuplicateCheck(tables: map<Table, seq<Row>>, failing: set<Table>, nextId: nat, raw: Value, car: Row, driver: Row)
    requires !Missing(raw) && Lookup(tables, failing, Companies, CompanyKeys(raw)).Some?
    requires Lookup(tables, failing, Cars, CarFilter(raw)) == Some(car)
    requires Lookup(tables, failing, Drivers, DriverFilter(raw)) == Some(driver)
    requires Shifts !in failing
    ensures var s := Save(tables, failing, nextId, raw);
      && s.lookups == [Read(Companies), Read(Cars), Read(Drivers)]
      && s.stored == Some(StoredShift(raw, car, driver, IdOf(nextId)))
      && s.stored.value["car_id"] == RowId(car) && s.stored.value["driver_id"] == RowId(driver)
      && s.stored.value in RowsIn(Replay(tables, s.Ops()), Shifts)
  {
    AllFound(tables, failing, nextId, raw, car, driver);
    StoredIds(raw, car, driver, IdOf(nextId));
    SaveKeepsShiftRow(tables, failing, nextId, raw);
  }

  /** With the company, the car and the driver found, the save sends the three
      lookups and then inserts. */
  lemma AllFound(tables: map<Table, seq<Row>>, failing: set<Table>, nextId: nat, raw: Value, car: Row, driver: Row)
    requires !Missing(raw) && Lookup(tables, failing, Companies, CompanyKeys(raw)).Some?
    requires Lookup(tables, failing, Cars, CarFilter(raw)) == Some(car)
    requires Lookup(tables, failing, Drivers, DriverFilter(raw)) == Some(driver)
    ensures var s := Save(tables, failing, nextId, raw);
      s.lookups == [Read(Companies), Read(Cars), Read(Drivers)] && s.stored == Some(StoredShift(raw, car, driver, IdOf(nextId)))
  {
    var inserted := Insert(failing, nextId, raw, car, driver);
    assert WithCar(tables, failing, nextId, raw, car) == After([Read(Drivers)], inserted);
    assert Resolve(tables, failing, nextId, raw) == After([Read(Cars)], After([Read(Drivers)], inserted));
  }

  /** A save that stops before the shift insert leaves the store as it was. */
  lemma StoppedWritesNothing(tables: map<Table, seq<Row>>, failing: set<Table>, nextId: nat, raw: Value)
    requires Save(tables, failing, nextId, raw).stored.None?
    ensures Save(tables, failing, nextId, raw).result.Throws?
    ensures Replay(tables, Save(tables, failing, nextId, raw).Ops()) == tables
  {
    SaveWellFormed(tables, failing, nextId, raw);
    StoppedKeepsStore(tables, Save(tables, failing, nextId, raw), failing);
  }

  /** Details are not filtered: a section whose details all have zero
      amounts is written all the same, one row per detail. */
  lemma ZeroDetailsWritten(shiftId: Value, s: Section, section: Value)
    requires Details(section).Arr? && Details(section).items != []
    requires forall i :: 0 <= i < |Details(section).items| ==> !Missing(Details(section).items[i])
    ensures SectionStep(shiftId, s, section) ==
      Returns(Some(Batch(TableOf(s), DetailRows(shiftId, s, Details(section).items), StoreError(TableOf(s)))))
  {
    PositiveNumber(|Details(section).items| as real);
  }

  /** A successful save stores the shift row under a fresh id, then every
      batch of its sections. */
  lemma SavedWritesEverything(tables: map<Table, seq<Row>>, failing: set<Table>, nextId: nat, raw: Value)
    requires Save(tables, failing, nextId, raw).result.Returns?
    ensures var s := Save(tables, failing, nextId, raw);
      var shift := s.result.value;
      && s.stored == Some(shift)
      && "id" in shift && shift["id"] == Str(IdOf(nextId))
      && Replay(tables, s.Ops()) ==
         Replay(tables[Shifts := RowsIn(tables, Shifts) + [shift]], Written(Steps(RowId(shift), raw)))
  {
    SaveWellFormed(tables, failing, nextId, raw);
    SucceededWritesAll(tables, Save(tables, failing, nextId, raw), failing);
  }

  /** The save is not atomic: once the shift row is inserted it stays in the
      store, whatever later section fails. */
  lemma SaveKeepsShiftRow(tables: map<Table, seq<Row>>, failing: set<Table>, nextId: nat, raw: Value)
    requires Save(tables, failing, nextId, raw).stored.Some? && Shifts !in failing
    ensures var s := Save(tables, failing, nextId, raw);
      s.stored.value in RowsIn(Replay(tables, s.Ops()), Shifts)
  {
    SaveWellFormed(tables, failing, nextId, raw);
    ShiftRowKept(tables, Save(tables, failing, nextId, raw), failing);
  }
}
