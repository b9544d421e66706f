/** src/services/shifts/index.ts with the store helpers of
    src/services/shifts/database.ts: a shift saved from data whose VAT sections
    are first pruned by `prepareVatDetailsForSave`. The car and driver ids come
    with the data; the times are formatted before any request; a shift with the
    same car, driver, report number and times is refused (a failing check
    counts as "no such shift"); the shift row is inserted with its amounts as
    `Number(x) || 0`; then the rows of each section that is left are written
    as they are, one table insert per section. A failure after the shift row
    was written leaves that row behind. */
module ShiftsIndex {
  import opened Js
  import opened Store
  import opened Vat
  import DateTime
  import VatParser
  import VatProcessor
  import opened ShiftService

  const SHIFT_FAILED := "Failed to insert shift: "

  /** The error a failed section insert is rethrown with. */
  function SectionFailed(s: Section): string {
    match s
    case Kontant => "Failed to insert VAT details: " + StoreError(VatDetails)
    case Kredit => "Failed to insert VAT details: " + StoreError(VatDetails)
    case TotalInkort(_) => "Failed to insert total inkört details: " + StoreError(TotalInkortDetails)
    case Bom => "Failed to insert BOM details: " + StoreError(BomDetails)
  }

  /** The key of a section in the shift data. */
  function SectionKey(s: Section): string {
    match s
    case Kontant => "kontant_details"
    case Kredit => "kredit_details"
    case TotalInkort(_) => "total_inkort_details"
    case Bom => "varav_bom_avbest_details"
  }

  /** `parseNumber(v)` as a JSON number. */
  function Parsed(v: Value): Value { Num(VatParser.ParseNumber(v)) }

  // ---------------------------------------------------------------------------
  // The sections

  /** The row a detail becomes in its section's table. */
  function SectionRow(shiftId: Value, s: Section, d: Value): (r: Row)
    ensures "shift_id" in r && r["shift_id"] == shiftId
  {
    match s
    case Kontant =>
      map["shift_id" := shiftId, "vat_rate" := Parsed(Get(d, "moms_percentage")), "gross_income" := Parsed(Get(d, "brutto")),
          "net_income" := Parsed(Get(d, "netto")), "vat_amount" := Parsed(Get(d, "moms_kr")), "type" := Str("kontant")]
    case Kredit =>
      map["shift_id" := shiftId, "vat_rate" := Parsed(Get(d, "moms_percentage")), "gross_income" := Parsed(Get(d, "brutto")),
          "net_income" := Parsed(Get(d, "netto")), "vat_amount" := Parsed(Get(d, "moms_kr")), "type" := Str("kredit")]
    case TotalInkort(total) =>
      map["shift_id" := shiftId, "total_inkort" := Parsed(total), "moms_percentage" := Parsed(Get(d, "moms_percentage")),
          "brutto" := Parsed(Get(d, "brutto")), "netto" := Parsed(Get(d, "netto")), "moms_kr" := Parsed(Get(d, "moms_kr"))]
    case Bom =>
      map["shift_id" := shiftId, "moms_percentage" := Parsed(Get(d, "moms_percentage")),
          "brutto" := Parsed(Get(d, "brutto")), "netto" := Parsed(Get(d, "netto")), "moms_kr" := Parsed(Get(d, "moms_kr"))]
  }

  function SectionRows(shiftId: Value, s: Section, items: seq<Value>): (r: seq<Row>)
    ensures |r| == |items|
    ensures forall i :: 0 <= i < |r| ==> "shift_id" in r[i] && r[i]["shift_id"] == shiftId
  {
    seq(|items|, i requires 0 <= i < |items| => SectionRow(shiftId, s, items[i]))
  }

  /** One section: nothing unless `section?.moms_details?.length > 0`; an
      error when the details cannot be mapped; otherwise one batch with a row
      per detail, none dropped, all referring to the shift. */
  function SectionStep(shiftId: Value, s: Section, section: Value): (r: Step)
    ensures !Positive(LengthOf(Details(section))) ==> r == Returns(None)
    ensures r.Returns? && r.value.Some? ==>
      && Details(section).Arr?
      && r.value.value.table == TableOf(s)
      && r.value.value.onError == SectionFailed(s)
      && |r.value.value.rows| == |Details(section).items| > 0
      && Tagged(r.value.value, shiftId)
  {
    var details := Details(section);
    if !Positive(LengthOf(details)) then Returns(None)
    else if !details.Arr? then Throws("processedData." + SectionKey(s) + ".moms_details.map is not a function")
    else match FirstMissing(details.items)
      case Some(d) => Throws(ReadError(d, "moms_percentage"))
      case None =>
        assert details.items != [] by {
          if details.items == [] {
            PositiveNumber(0.0);
          }
        }
        Returns(Some(Batch(TableOf(s), SectionRows(shiftId, s, details.items), SectionFailed(s))))
  }

  /** The steps after the shift row, in the order the source takes them:
      cash, credit, total driven, BOM. */
  function Steps(shiftId: Value, p: Value): (r: seq<Step>)
    ensures |r| == 4
    ensures forall i :: 0 <= i < 4 && r[i].Returns? && r[i].value.Some? ==> Tagged(r[i].value.value, shiftId)
  {
    var total := Get(p, "total_inkort_details");
    [SectionStep(shiftId, Kontant, Get(p, "kontant_details")),
     SectionStep(shiftId, Kredit, Get(p, "kredit_details")),
     SectionStep(shiftId, TotalInkort(Get(total, "total_inkort")), total),
     SectionStep(shiftId, Bom, Get(p, "varav_bom_avbest_details"))]
  }

  // ---------------------------------------------------------------------------
  // The shift row and the duplicate check

  /** The shift row `insertShift` sends: the ids as given, the formatted
      times, and each amount as `Number(parseNumber(x)) || 0`. The cash and
      credit amounts are read from the pruned sections. The cab number is
      not sent. */
  function Draft(p: Value, start: string, end: string): ShiftRow {
    ShiftRow(Get(p, "car_id"), Get(p, "driver_id"), start, end,
      NumberOrZero(Parsed(Get(p, "taxitrafik_km"))), NumberOrZero(Parsed(Get(p, "betalda_km"))),
      NumberOrZero(Parsed(Get(p, "turer"))), Get(p, "rapportnr"),
      NumberOrZero(Parsed(Get(Get(p, "kontant_details"), "kontant"))), NumberOrZero(Parsed(Get(p, "att_redovisa"))),
      NumberOrZero(Parsed(Get(Get(p, "kredit_details"), "kredit"))), NumberOrZero(Parsed(Get(p, "drikskredit"))),
      NumberOrZero(Parsed(Get(p, "lonegr_ex_moms"))))
  }

  /** The columns `checkShiftExists` compares. */
  function CheckKeys(p: Value, start: string, end: string): seq<(string, Value)> {
    [("car_id", Get(p, "car_id")), ("driver_id", Get(p, "driver_id")), ("report_nr", Get(p, "rapportnr")),
     ("start_time", Str(start)), ("end_time", Str(end))]
  }

  /** `checkShiftExists`: a stored shift matches all the keys; a failing
      query answers "no". */
  function Exists(tables: map<Table, seq<Row>>, failing: set<Table>, keys: seq<(string, Value)>): (found: bool)
    ensures found ==> Shifts !in failing && exists row :: row in RowsIn(tables, Shifts) && Matches(row, keys)
    ensures Shifts !in failing && (exists row :: row in RowsIn(tables, Shifts) && Matches(row, keys)) ==> found
  {
    var rows := Select(RowsIn(tables, Shifts), keys);
    if Shifts !in failing && rows != [] then
      assert rows[0] in rows;
      true
    else false
  }

  // ---------------------------------------------------------------------------
  // saveShiftData

  /** The shift insert, then the sections while nothing fails. */
  function Insert(failing: set<Table>, nextId: nat, p: Value, root: ShiftRow): (s: Saved)
    ensures s.lookups == [] && s.stored == Some(Stored(root, IdOf(nextId)))
    ensures s.steps == Steps(RowId(Stored(root, IdOf(nextId))), p)
  {
    var shift := Stored(root, IdOf(nextId));
    Finish(failing, shift, Steps(RowId(shift), p), SHIFT_FAILED + StoreError(Shifts))
  }

  /** The duplicate check, then the insert. */
  function Checked(tables: map<Table, seq<Row>>, failing: set<Table>, nextId: nat, p: Value, start: string, end: string): (s: Saved)
    ensures |s.lookups| > 0 && s.lookups[0] == Read(Shifts)
  {
    if Exists(tables, failing, CheckKeys(p, start, end)) then Stopped([Read(Shifts)], DUPLICATE)
    else After([Read(Shifts)], Insert(failing, nextId, p, Draft(p, start, end)))
  }

  /** What `saveShiftData` does against the store with the raw data. */
  function Save(tables: map<Table, seq<Row>>, failing: set<Table>, nextId: nat, raw: Value): (s: Saved)
  {
    var p := Obj(VatProcessor.PreparedForSave(raw));
    match DateTime.FormatValueForDB(Get(p, "start_time"))
    case Throws(m) => Stopped([], m)
    case Returns(start) =>
      match DateTime.FormatValueForDB(Get(p, "end_time"))
      case Throws(m) => Stopped([], m)
      case Returns(end) => Checked(tables, failing, nextId, p, start, end)
  }

  /** `checkShiftExists` against the store. */
  method CheckShiftExists(db: Database, keys: seq<(string, Value)>) returns (found: bool)
    requires db.Valid()
    modifies db`log
    ensures db.Valid()
    ensures db.log == old(db.log) + [Read(Shifts)]
    ensures found == Exists(db.tables, db.failing, keys)
  {
    var rows := db.Query(Shifts, keys);
    found := rows.Some? && |rows.value| > 0;
  }

  /** `insertShift`, then the sections. */
  method InsertShift(db: Database, p: Value, root: ShiftRow) returns (r: Completion<Row>)
    requires db.Valid()
    modifies db`tables, db`log, db`nextId
    ensures db.Valid()
    ensures var s := Insert(db.failing, old(db.nextId), p, root);
      db.log == old(db.log) + s.Ops() && r == s.result && db.nextId == old(db.nextId) + 1
  {
    ghost var stored := Stored(root, IdOf(db.nextId));
    ghost var steps := Steps(RowId(stored), p);
    assert Insert(db.failing, db.nextId, p, root) == Finish(db.failing, stored, steps, SHIFT_FAILED + StoreError(Shifts));
    FinishLog(db.log, db.failing, stored, steps, SHIFT_FAILED + StoreError(Shifts));
    var shift := db.InsertShift(Columns(root));
    if shift.None? {
      r := Throws(SHIFT_FAILED + StoreError(Shifts));
    } else {
      assert shift.value == stored;
      var error := db.RunAll(Steps(RowId(shift.value), p));
      r := if error.Some? then Throws(error.value) else Returns(shift.value);
    }
  }

  /** The duplicate check and the insert. */
  method CheckAndInsert(db: Database, p: Value, start: string, end: string) returns (r: Completion<Row>)
    requires db.Valid()
    modifies db`tables, db`log, db`nextId
    ensures db.Valid()
    ensures var s := Checked(old(db.tables), db.failing, old(db.nextId), p, start, end);
      && db.log == old(db.log) + s.Ops() && r == s.result
      && db.nextId == old(db.nextId) + (if s.stored.Some? then 1 else 0)
  {
    ghost var tables := db.tables;
    var found := CheckShiftExists(db, CheckKeys(p, start, end));
    if found {
      r := Throws(DUPLICATE);
    } else {
      ghost var inserted := Insert(db.failing, db.nextId, p, Draft(p, start, end));
      assert Checked(tables, db.failing, db.nextId, p, start, end) == After([Read(Shifts)], inserted);
      ghost var log := db.log;
      LogAfter(old(db.log), [Read(Shifts)], inserted);
      r := InsertShift(db, p, Draft(p, start, end));
      assert db.log == log + inserted.Ops() && r == inserted.result;
    }
  }

  /** `saveShiftData`: the data prepared, then the requests in order, each
      against the store as the earlier ones left it. */
  method SaveShiftData(db: Database, raw: Value) returns (r: Completion<Row>)
    requires db.Valid()
    modifies db`tables, db`log, db`nextId
    ensures db.Valid()
    ensures var s := Save(old(db.tables), db.failing, old(db.nextId), raw);
      && db.log == old(db.log) + s.Ops()
      && r == s.result
      && db.tables == Replay(old(db.tables), s.Ops())
      && db.nextId == old(db.nextId) + (if s.stored.Some? then 1 else 0)
  {
    var prepared := VatProcessor.PrepareVatDetailsForSave(raw);
    var p := Obj(prepared);
    var start := DateTime.FormatValueForDB(Get(p, "start_time"));
    if start.Throws? {
      r := Throws(start.message);
    } else {
      var end := DateTime.FormatValueForDB(Get(p, "end_time"));
      if end.Throws? {
        r := Throws(end.message);
      } else {
        r := CheckAndInsert(db, p, start.value, end.value);
      }
    }
    ReplayConcat(db.initial, old(db.log), db.log[|old(db.log)|..]);
    assert old(db.log) + db.log[|old(db.log)|..] == db.log;
  }

  // ---------------------------------------------------------------------------
  // Properties

  /** What a save promises, stated once: the generic shape, and a shift row
      stored under the next id and followed by its own sections. */
  predicate Promised(s: Saved, failing: set<Table>, nextId: nat, p: Value) {
    && WellFormed(s, failing)
    && (s.stored.Some? ==>
          && "id" in s.stored.value && s.stored.value["id"] == Str(IdOf(nextId))
          && s.steps == Steps(RowId(s.stored.value), p))
  }

  lemma CheckedWellFormed(tables: map<Table, seq<Row>>, failing: set<Table>, nextId: nat, p: Value, start: string, end: string)
    ensures Promised(Checked(tables, failing, nextId, p, start, end), failing, nextId, p)
  {
    if !Exists(tables, failing, CheckKeys(p, start, end)) {
      var root := Draft(p, start, end);
      var shift := Stored(root, IdOf(nextId));
      FinishWellFormed(failing, shift, Steps(RowId(shift), p), SHIFT_FAILED + StoreError(Shifts));
      AfterWellFormed([Read(Shifts)], Insert(failing, nextId, p, root), failing);
    }
  }

  /** Every save has the generic shape, and a shift row it stores carries the
      next id and is followed by the sections of the prepared data. */
  lemma SaveWellFormed(tables: map<Table, seq<Row>>, failing: set<Table>, nextId: nat, raw: Value)
    ensures Promised(Save(tables, failing, nextId, raw), failing, nextId, Obj(VatProcessor.PreparedForSave(raw)))
  {
    var p := Obj(VatProcessor.PreparedForSave(raw));
    var start := DateTime.FormatValueForDB(Get(p, "start_time"));
    var end := DateTime.FormatValueForDB(Get(p, "end_time"));
    if start.Returns? && end.Returns? {
      CheckedWellFormed(tables, failing, nextId, p, start.value, end.value);
    }
  }

  /** A time that cannot be formatted stops the save before any request. */
  lemma BadTimeSendsNothing(tables: map<Table, seq<Row>>, failing: set<Table>, nextId: nat, raw: Value)
    requires var p := Obj(VatProcessor.PreparedForSave(raw));
      DateTime.FormatValueForDB(Get(p, "start_time")).Throws? || DateTime.FormatValueForDB(Get(p, "end_time")).Throws?
    ensures Save(tables, failing, nextId, raw).result.Throws?
    ensures Save(tables, failing, nextId, raw).Ops() == []
  {
  }

  /** A registered duplicate is refused with nothing written. */
  lemma DuplicateRefused(tables: map<Table, seq<Row>>, failing: set<Table>, nextId: nat, raw: Value,
                         start: string, end: string, row: Row)
    requires var p := Obj(VatProcessor.PreparedForSave(raw));
      && DateTime.FormatValueForDB(Get(p, "start_time")) == Returns(start)
      && DateTime.FormatValueForDB(Get(p, "end_time")) == Returns(end)
      && Shifts !in failing && row in RowsIn(tables, Shifts) && Matches(row, CheckKeys(p, start, end))
    ensures Save(tables, failing, nextId, raw).result == Throws(DUPLICATE)
    ensures Replay(tables, Save(tables, failing, nextId, raw).Ops()) == tables
  {
    SaveWellFormed(tables, failing, nextId, raw);
    StoppedKeepsStore(tables, Save(tables, failing, nextId, raw), failing);
  }

  /** A successful save stores the shift row under a fresh id, then every
      batch of the prepared sections. */
  lemma SavedWritesEverything(tables: map<Table, seq<Row>>, failing: set<Table>, nextId: nat, raw: Value)
    requires Save(tables, failing, nextId, raw).result.Returns?
    ensures var s := Save(tables, failing, nextId, raw);
      var shift := s.result.value;
      && s.stored == Some(shift)
      && "id" in shift && shift["id"] == Str(IdOf(nextId))
      && Replay(tables, s.Ops()) ==
         Replay(tables[Shifts := RowsIn(tables, Shifts) + [shift]],
                Written(Steps(RowId(shift), Obj(VatProcessor.PreparedForSave(raw)))))
  {
    SaveWellFormed(tables, failing, nextId, raw);
    SucceededWritesAll(tables, Save(tables, failing, nextId, raw), failing);
  }

  /** The save is not atomic: once the shift row is inserted it stays in the
      store, whatever later section fails. */
  lemma SaveKeepsShiftRow(tables: map<Table, seq<Row>>, failing: set<Table>, nextId: nat, raw: Value)
    requires Save(tables, failing, nextId, raw).stored.Some? && Shifts !in failing
    ensures var s := Save(tables, failing, nextId, raw);
      s.stored.value in RowsIn(Replay(tables, s.Ops()), Shifts)
  {
    SaveWellFormed(tables, failing, nextId, raw);
    ShiftRowKept(tables, Save(tables, failing, nextId, raw), failing);
  }

  /** The pruned sections keep only their VAT rows, so the cash and credit
      amounts of the shift row are always 0. */
  lemma CashNeverRecorded(raw: Value, start: string, end: string)
    ensures var root := Draft(Obj(VatProcessor.PreparedForSave(raw)), start, end);
      root.cash == 0.0 && root.total_credit == 0.0
  {
    SectionAmountDropped(raw, "kontant_details", "kontant");
    SectionAmountDropped(raw, "kredit_details", "kredit");
    assert NumberOrZero(Parsed(Undefined)) == 0.0;
  }

  /** A pruned VAT section keeps only its details: any other field of it
      reads as undefined. */
  lemma SectionAmountDropped(raw: Value, k: string, key: string)
    requires k in VAT_SECTIONS && k != "total_inkort_details" && key != "moms_details"
    ensures Get(Get(Obj(VatProcessor.PreparedForSave(raw)), k), key) == Undefined
  {
    VatProcessor.PreparedSection(raw, k);
  }

  /** A pruned section (its valid rows, at least one) becomes one batch in
      its table with a row per valid row, in order. */
  lemma PrunedSectionWritten(shiftId: Value, s: Section, section: Value, rows: seq<VatDetail>)
    requires Get(section, "moms_details") == Arr(ToValues(rows)) && rows != []
    ensures SectionStep(shiftId, s, section) ==
      Returns(Some(Batch(TableOf(s), SectionRows(shiftId, s, ToValues(rows)), SectionFailed(s))))
  {
    PositiveNumber(|rows| as real);
    assert FirstMissing(ToValues(rows)) == None;
  }

  /** The numbers of a typed VAT row reach its table as they are. */
  lemma RowKeepsNumbers(shiftId: Value, s: Section, d: VatDetail)
    ensures var r := SectionRow(shiftId, s, ToValue(d));
      if s.Kontant? || s.Kredit? then
        && r["vat_rate"] == Num(d.rate) && r["gross_income"] == Num(d.brutto)
        && r["net_income"] == Num(d.netto) && r["vat_amount"] == Num(d.momsKr)
      else
        && r["moms_percentage"] == Num(d.rate) && r["brutto"] == Num(d.brutto)
        && r["netto"] == Num(d.netto) && r["moms_kr"] == Num(d.momsKr)
  {
    var v := ToValue(d);
    assert Get(v, "moms_percentage") == Num(d.rate) && Get(v, "brutto") == Num(d.brutto);
    assert Get(v, "netto") == Num(d.netto) && Get(v, "moms_kr") == Num(d.momsKr);
  }

  /** On prepared data the step of one section does not throw, and it writes
      exactly when the section survived the pruning. */
  lemma PreparedStepSucceeds(shiftId: Value, raw: Value, s: Section)
    requires SectionKey(s) in VAT_SECTIONS
    ensures var m := VatProcessor.PreparedForSave(raw);
      var step := SectionStep(shiftId, s, Get(Obj(m), SectionKey(s)));
      step.Returns? && (step.value.Some? <==> SectionKey(s) in m)
  {
    var m := VatProcessor.PreparedForSave(raw);
    var k := SectionKey(s);
    VatProcessor.PreparedSection(raw, k);
    if k in m {
      PrunedSectionWritten(shiftId, s, m[k], VatParser.FilterValidVatDetails(Get(Get(raw, k), "moms_details")));
    } else {
      assert Get(Obj(m), k) == Undefined;
    }
  }

  /** On prepared data no section step throws, and a section is written
      exactly when it survived the pruning. */
  lemma PreparedStepsSucceed(shiftId: Value, raw: Value)
    ensures var steps := Steps(shiftId, Obj(VatProcessor.PreparedForSave(raw)));
      forall i :: 0 <= i < 4 ==>
        steps[i].Returns? && (steps[i].value.Some? <==> VAT_SECTIONS[i] in VatProcessor.PreparedForSave(raw))
  {
    var m := VatProcessor.PreparedForSave(raw);
    var p := Obj(m);
    var steps := Steps(shiftId, p);
    forall i | 0 <= i < 4
      ensures steps[i].Returns? && (steps[i].value.Some? <==> VAT_SECTIONS[i] in m)
    {
      var s := if i == 0 then Kontant else if i == 1 then Kredit
               else if i == 2 then TotalInkort(Get(Get(p, "total_inkort_details"), "total_inkort")) else Bom;
      assert SectionKey(s) == VAT_SECTIONS[i];
      assert steps[i] == SectionStep(shiftId, s, Get(p, SectionKey(s)));
      PreparedStepSucceeds(shiftId, raw, s);
    }
  }
}
