/** The database the services talk to, as an in-memory store. Each table is a
    sequence of rows (a row maps column names to values). A request is either
    a read with equality filters or the insert of a batch of rows. The
    environment decides which tables fail during a run (`failing`); a failed
    insert writes nothing, because one request is one transaction. Every
    request is appended to `log`, and nothing is ever deleted, so the store's
    contents are always its initial contents plus every successful write of
    the log. */
module Store {
  import opened Js

  datatype Table = Companies | Cars | Drivers | Shifts | VatDetails | TotalInkortDetails | BomDetails

  type Row = map<string, Value>

  /** One request: a read of a table, or a batch insert and whether it succeeded. */
  datatype Op = Read(table: Table) | Write(table: Table, rows: seq<Row>, ok: bool)

  function TableName(t: Table): string {
    match t
    case Companies => "Companies"
    case Cars => "Cars"
    case Drivers => "Drivers"
    case Shifts => "Shifts"
    case VatDetails => "VAT_Details"
    case TotalInkortDetails => "Total_Inkort_Details"
    case BomDetails => "BOM_Details"
  }

  /** The message of the error object a failing request returns; its wording
      comes from the database and is not modelled. */
  function StoreError(t: Table): string { "request to " + TableName(t) + " failed" }

  /** The id the store gives the `n`-th inserted shift. */
  function IdOf(n: nat): string { "shift-" + NatToDecimal(n) }

  // ---------------------------------------------------------------------------
  // Queries

  /** `.eq(column, v)`: the value travels as text, so it matches a row whose
      column prints the same; a NULL column matches nothing. */
  predicate Eq(row: Row, column: string, v: Value) {
    column in row && !row[column].Null? && !row[column].Undefined? && ToStr(row[column]) == ToStr(v)
  }

  /** All the `.eq` filters of a query hold. */
  predicate Matches(row: Row, filter: seq<(string, Value)>) {
    forall i :: 0 <= i < |filter| ==> Eq(row, filter[i].0, filter[i].1)
  }

  /** The rows a query returns, in table order. */
  function Select(rows: seq<Row>, filter: seq<(string, Value)>): (r: seq<Row>)
    ensures |r| <= |rows|
    ensures forall x :: x in r ==> x in rows && Matches(x, filter)
    ensures forall x :: x in rows && Matches(x, filter) ==> x in r
  {
    if rows == [] then []
    else (if Matches(rows[0], filter) then [rows[0]] else []) + Select(rows[1..], filter)
  }

  /** `.single()`: the one matching row; no match, or more than one, is an error. */
  function Single(rows: seq<Row>, filter: seq<(string, Value)>): (r: Option<Row>)
    ensures r.Some? <==> |Select(rows, filter)| == 1
    ensures r.Some? ==> r.value in rows && Matches(r.value, filter)
  {
    var found := Select(rows, filter);
    if |found| == 1 then Some(found[0]) else None
  }

  /** A query finds nothing when one of its filters matches no row. */
  lemma {:induction false} SelectNone(rows: seq<Row>, filter: seq<(string, Value)>, i: nat)
    requires i < |filter| && forall row :: row in rows ==> !Eq(row, filter[i].0, filter[i].1)
    ensures Select(rows, filter) == []
    decreases |rows|
  {
    if rows != [] {
      assert !Eq(rows[0], filter[i].0, filter[i].1);
      SelectNone(rows[1..], filter, i);
    }
  }

  // ---------------------------------------------------------------------------
  // Contents

  function RowsIn(tables: map<Table, seq<Row>>, t: Table): seq<Row> {
    if t in tables then tables[t] else []
  }

  /** The tables after the successful writes of `ops`, in order. */
  function Replay(tables: map<Table, seq<Row>>, ops: seq<Op>): map<Table, seq<Row>>
    decreases |ops|
  {
    if ops == [] then tables
    else
      var next := if ops[0].Write? && ops[0].ok then tables[ops[0].table := RowsIn(tables, ops[0].table) + ops[0].rows]
                  else tables;
      Replay(next, ops[1..])
  }

  lemma {:induction false} ReplayConcat(tables: map<Table, seq<Row>>, a: seq<Op>, b: seq<Op>)
    ensures Replay(tables, a + b) == Replay(Replay(tables, a), b)
    decreases |a|
  {
    if a == [] {
      assert a + b == b;
    } else {
      assert (a + b)[0] == a[0];
      assert (a + b)[1..] == a[1..] + b;
      var next := if a[0].Write? && a[0].ok then tables[a[0].table := RowsIn(tables, a[0].table) + a[0].rows]
                  else tables;
      ReplayConcat(next, a[1..], b);
    }
  }

  /** Requests only ever append: every table keeps its rows as a prefix. */
  lemma {:induction false} ReplayOnlyAppends(tables: map<Table, seq<Row>>, ops: seq<Op>, t: Table)
    ensures RowsIn(tables, t) <= RowsIn(Replay(tables, ops), t)
    decreases |ops|
  {
    if ops != [] {
      var next := if ops[0].Write? && ops[0].ok then tables[ops[0].table := RowsIn(tables, ops[0].table) + ops[0].rows]
                  else tables;
      assert RowsIn(tables, t) <= RowsIn(next, t);
      ReplayOnlyAppends(next, ops[1..], t);
    }
  }

  /** Reads and failed writes change nothing. */
  predicate NoWrites(ops: seq<Op>) { forall i :: 0 <= i < |ops| ==> !(ops[i].Write? && ops[i].ok) }

  lemma NoWritesConcat(a: seq<Op>, b: seq<Op>)
    requires NoWrites(a) && NoWrites(b)
    ensures NoWrites(a + b)
  {
    forall i | 0 <= i < |a + b| ensures !((a + b)[i].Write? && (a + b)[i].ok) {
      if i >= |a| {
        assert (a + b)[i] == b[i - |a|];
      }
    }
  }

  lemma {:induction false} ReplayNoWrites(tables: map<Table, seq<Row>>, ops: seq<Op>)
    requires NoWrites(ops)
    ensures Replay(tables, ops) == tables
    decreases |ops|
  {
    if ops != [] {
      assert !(ops[0].Write? && ops[0].ok);
      assert NoWrites(ops[1..]) by {
        forall i | 0 <= i < |ops[1..]| ensures !(ops[1..][i].Write? && ops[1..][i].ok) {
          assert ops[1..][i] == ops[i + 1];
        }
      }
      ReplayNoWrites(tables, ops[1..]);
    }
  }

  // ---------------------------------------------------------------------------
  // Batches written after the root row

  /** A batch insert and the message its failure is rethrown with. */
  datatype Batch = Batch(table: Table, rows: seq<Row>, onError: string)

  /** One step after the root insert: an exception while the rows are
      prepared, nothing to write, or one batch. */
  type Step = Completion<Option<Batch>>

  datatype Run = Run(ops: seq<Op>, error: Option<string>)

  /** The steps in order until the first exception or failed insert. */
  function RunSteps(steps: seq<Step>, failing: set<Table>): (r: Run)
    decreases |steps|
  {
    if steps == [] then Run([], None)
    else match steps[0]
      case Throws(m) => Run([], Some(m))
      case Returns(None) => RunSteps(steps[1..], failing)
      case Returns(Some(b)) =>
        if b.table in failing then Run([Write(b.table, b.rows, false)], Some(b.onError))
        else
          var rest := RunSteps(steps[1..], failing);
          Run([Write(b.table, b.rows, true)] + rest.ops, rest.error)
  }

  /** The successful writes of the first `k` steps. */
  function Written(steps: seq<Step>): seq<Op>
    decreases |steps|
  {
    if steps == [] then []
    else match steps[0]
      case Returns(Some(b)) => [Write(b.table, b.rows, true)] + Written(steps[1..])
      case _ => Written(steps[1..])
  }

  /** The index of the step at which the run stops: the first exception or
      failed insert, or the number of steps when none fails. */
  function StopAt(steps: seq<Step>, failing: set<Table>): (k: nat)
    ensures k <= |steps|
    decreases |steps|
  {
    if steps == [] then 0
    else match steps[0]
      case Throws(_) => 0
      case Returns(None) => 1 + StopAt(steps[1..], failing)
      case Returns(Some(b)) => if b.table in failing then 0 else 1 + StopAt(steps[1..], failing)
  }

  /** The steps run until they stop, and exactly the batches of the steps
      before the stopping point are written: a later failure does not undo
      them. Without a failure every batch is written. */
  lemma {:induction false} RunStepsWrites(tables: map<Table, seq<Row>>, steps: seq<Step>, failing: set<Table>)
    ensures var r, k := RunSteps(steps, failing), StopAt(steps, failing);
      && Replay(tables, r.ops) == Replay(tables, Written(steps[..k]))
      && (r.error.None? <==> k == |steps|)
      && (r.error.Some? ==> !steps[k].Returns? || steps[k].value.Some?)
    decreases |steps|
  {
    if steps == [] {
      assert steps[..0] == [];
    } else {
      var k := StopAt(steps, failing);
      match steps[0]
      case Throws(m) =>
        assert steps[..0] == [];
      case Returns(None) =>
        RunStepsWrites(tables, steps[1..], failing);
        WrittenCons(steps, k - 1);
        assert Written(steps[..k]) == Written(steps[1..][..k - 1]);
      case Returns(Some(b)) =>
        if b.table in failing {
          assert steps[..0] == [];
          ReplayOne(tables, Write(b.table, b.rows, false), []);
        } else {
          var w := Write(b.table, b.rows, true);
          var next := tables[b.table := RowsIn(tables, b.table) + b.rows];
          RunStepsWrites(next, steps[1..], failing);
          WrittenCons(steps, k - 1);
          ReplayOne(tables, w, RunSteps(steps[1..], failing).ops);
          ReplayOne(tables, w, Written(steps[1..][..k - 1]));
        }
    }
  }

  /** The first `k + 1` steps write what the first step writes, then what the
      next `k` write. */
  lemma WrittenCons(steps: seq<Step>, k: nat)
    requires k < |steps|
    ensures Written(steps[..k + 1]) ==
      (if steps[0].Returns? && steps[0].value.Some?
       then [Write(steps[0].value.value.table, steps[0].value.value.rows, true)] else [])
      + Written(steps[1..][..k])
    ensures k + 1 < |steps| ==> steps[k + 1] == steps[1..][k]
  {
    assert steps[..k + 1][1..] == steps[1..][..k];
  }

  lemma ReplayOne(tables: map<Table, seq<Row>>, op: Op, rest: seq<Op>)
    ensures Replay(tables, [op] + rest) ==
      Replay(if op.Write? && op.ok then tables[op.table := RowsIn(tables, op.table) + op.rows] else tables, rest)
  {
    assert ([op] + rest)[1..] == rest;
  }


  /** `RunSteps` from step `i`, one step unfolded. */
  lemma StepUnfold(steps: seq<Step>, i: nat, failing: set<Table>)
    requires i < |steps|
    ensures steps[i].Throws? ==> RunSteps(steps[i..], failing) == Run([], Some(steps[i].message))
    ensures steps[i] == Returns(None) ==> RunSteps(steps[i..], failing) == RunSteps(steps[i + 1..], failing)
    ensures steps[i].Returns? && steps[i].value.Some? ==>
      var b := steps[i].value.value;
      RunSteps(steps[i..], failing) ==
        if b.table in failing then Run([Write(b.table, b.rows, false)], Some(b.onError))
        else Run([Write(b.table, b.rows, true)] + RunSteps(steps[i + 1..], failing).ops, RunSteps(steps[i + 1..], failing).error)
  {
    assert steps[i..][0] == steps[i];
    assert steps[i..][1..] == steps[i + 1..];
  }

  // ---------------------------------------------------------------------------
  // Lookups

  /** A `.single()` lookup: the one matching row, or nothing when the request
      fails or does not find exactly one row. */
  function Lookup(tables: map<Table, seq<Row>>, failing: set<Table>, t: Table, filter: seq<(string, Value)>): (r: Option<Row>)
    ensures r.Some? <==> t !in failing && |Select(RowsIn(tables, t), filter)| == 1
    ensures r.Some? ==> r.value in RowsIn(tables, t) && Matches(r.value, filter)
  {
    if t in failing then None else Single(RowsIn(tables, t), filter)
  }

  /** `row.id` */
  function RowId(row: Row): Value { Get(Obj(row), "id") }

  // ---------------------------------------------------------------------------
  // A save: lookups, then the shift row, then the batches that refer to it

  /** The requests of a save, split into the reads before the shift insert
      and the writes from it on; the outcome (the stored shift row, or the
      error rethrown); the shift row, once its insert was sent; and the steps
      that follow that insert. */
  datatype Saved = Saved(lookups: seq<Op>, writes: seq<Op>, result: Completion<Row>, stored: Option<Row>, steps: seq<Step>) {
    function Ops(): seq<Op> { lookups + writes }
  }

  /** A save that stops before the shift insert. */
  function Stopped(lookups: seq<Op>, message: string): Saved { Saved(lookups, [], Throws(message), None, []) }

  /** `lookups` sent first, then the save `s`. */
  function After(lookups: seq<Op>, s: Saved): Saved { Saved(lookups + s.lookups, s.writes, s.result, s.stored, s.steps) }

  /** A log that grew by `lookups` and then by the requests of `s` grew by the
      requests of `After(lookups, s)`. */
  lemma LogAfter(log: seq<Op>, lookups: seq<Op>, s: Saved)
    ensures (log + lookups) + s.Ops() == log + After(lookups, s).Ops()
  {
  }

  /** The shift insert of `shift`, rethrown as `rootError` when it fails, and
      then `steps` until one fails. */
  function Finish(failing: set<Table>, shift: Row, steps: seq<Step>, rootError: string): (s: Saved)
    ensures s.lookups == [] && s.stored == Some(shift) && s.steps == steps
  {
    if Shifts in failing then Saved([], [Write(Shifts, [shift], false)], Throws(rootError), Some(shift), steps)
    else
      var run := RunSteps(steps, failing);
      Saved([], [Write(Shifts, [shift], true)] + run.ops,
            if run.error.Some? then Throws(run.error.value) else Returns(shift), Some(shift), steps)
  }

  /** The shape of every save: reads only until the shift insert; a save that
      stops before it throws; from it on, the insert and then the steps while
      the insert succeeded. */
  predicate WellFormed(s: Saved, failing: set<Table>) {
    && NoWrites(s.lookups)
    && (s.stored.None? ==> s.writes == [] && s.result.Throws?)
    && (s.stored.Some? ==>
          var shift := s.stored.value;
          var run := RunSteps(s.steps, failing);
          && s.writes == [Write(Shifts, [shift], Shifts !in failing)] + (if Shifts in failing then [] else run.ops)
          && (Shifts in failing ==> s.result.Throws?)
          && (Shifts !in failing ==> s.result == if run.error.Some? then Throws(run.error.value) else Returns(shift)))
  }

  /** The log of a shift insert followed by its steps is the log `Finish`
      describes, and so is the outcome. */
  lemma FinishLog(log: seq<Op>, failing: set<Table>, shift: Row, steps: seq<Step>, rootError: string)
    ensures var s := Finish(failing, shift, steps, rootError);
      && (Shifts in failing ==> log + [Write(Shifts, [shift], false)] == log + s.Ops() && s.result == Throws(rootError))
      && (Shifts !in failing ==>
            var run := RunSteps(steps, failing);
            && (log + [Write(Shifts, [shift], true)]) + run.ops == log + s.Ops()
            && s.result == if run.error.Some? then Throws(run.error.value) else Returns(shift))
  {
    var s := Finish(failing, shift, steps, rootError);
    if Shifts !in failing {
      var run := RunSteps(steps, failing);
      assert s.Ops() == [Write(Shifts, [shift], true)] + run.ops;
    }
  }

  lemma FinishWellFormed(failing: set<Table>, shift: Row, steps: seq<Step>, rootError: string)
    ensures WellFormed(Finish(failing, shift, steps, rootError), failing)
  {
  }

  lemma StoppedWellFormed(lookups: seq<Op>, message: string, failing: set<Table>)
    requires NoWrites(lookups)
    ensures WellFormed(Stopped(lookups, message), failing)
  {
  }

  lemma AfterWellFormed(lookups: seq<Op>, s: Saved, failing: set<Table>)
    requires NoWrites(lookups) && WellFormed(s, failing)
    ensures WellFormed(After(lookups, s), failing)
  {
    NoWritesConcat(lookups, s.lookups);
  }

  /** A save that stops before the shift insert leaves the store as it was. */
  lemma StoppedKeepsStore(tables: map<Table, seq<Row>>, s: Saved, failing: set<Table>)
    requires WellFormed(s, failing) && s.stored.None?
    ensures s.result.Throws? && Replay(tables, s.Ops()) == tables
  {
    assert s.Ops() == s.lookups;
    ReplayNoWrites(tables, s.lookups);
  }

  /** The store after a save that reached a successful shift insert: the
      shift row appended to Shifts, then the batches its steps wrote. */
  lemma {:induction false} AfterInsert(tables: map<Table, seq<Row>>, s: Saved, failing: set<Table>)
    requires WellFormed(s, failing) && s.stored.Some? && Shifts !in failing
    ensures Replay(tables, s.Ops()) ==
      Replay(tables[Shifts := RowsIn(tables, Shifts) + [s.stored.value]], RunSteps(s.steps, failing).ops)
  {
    var rest := RunSteps(s.steps, failing).ops;
    var w := Write(Shifts, [s.stored.value], true);
    ReplayNoWrites(tables, s.lookups);
    ReplayConcat(tables, s.lookups, s.writes);
    assert s.writes == [w] + rest;
    ReplayConcat(tables, [w], rest);
  }

  /** A save that succeeds wrote its shift row and every batch of its steps. */
  lemma {:induction false} SucceededWritesAll(tables: map<Table, seq<Row>>, s: Saved, failing: set<Table>)
    requires WellFormed(s, failing) && s.result.Returns?
    ensures s.stored == Some(s.result.value) && Shifts !in failing
    ensures Replay(tables, s.Ops()) == Replay(tables[Shifts := RowsIn(tables, Shifts) + [s.result.value]], Written(s.steps))
  {
    var next := tables[Shifts := RowsIn(tables, Shifts) + [s.stored.value]];
    AfterInsert(tables, s, failing);
    RunStepsWrites(next, s.steps, failing);
    assert s.steps[..StopAt(s.steps, failing)] == s.steps;
  }

  /** A save is not atomic: once the shift row is inserted it stays in the
      store, whatever later step fails. */
  lemma ShiftRowKept(tables: map<Table, seq<Row>>, s: Saved, failing: set<Table>)
    requires WellFormed(s, failing) && s.stored.Some? && Shifts !in failing
    ensures s.stored.value in RowsIn(Replay(tables, s.Ops()), Shifts)
  {
    var next := tables[Shifts := RowsIn(tables, Shifts) + [s.stored.value]];
    AfterInsert(tables, s, failing);
    ReplayOnlyAppends(next, RunSteps(s.steps, failing).ops, Shifts);
    assert s.stored.value in RowsIn(next, Shifts);
  }

  // ---------------------------------------------------------------------------
  // The store

  class Database {
    var tables: map<Table, seq<Row>>
    /** The tables whose requests fail during this run. */
    var failing: set<Table>
    var log: seq<Op>
    var nextId: nat
    ghost var initial: map<Table, seq<Row>>

    /** The contents are the initial contents plus every successful write. */
    ghost predicate Valid()
      reads this
    {
      tables == Replay(initial, log)
    }

    function Rows(t: Table): seq<Row>
      reads this
    {
      RowsIn(tables, t)
    }

    constructor(contents: map<Table, seq<Row>>, faults: set<Table>)
      ensures Valid() && tables == contents && failing == faults && log == [] && nextId == 0
    {
      tables := contents;
      failing := faults;
      log := [];
      nextId := 0;
      initial := contents;
    }

    lemma Appended(op: Op)
      requires Valid()
      ensures Replay(initial, log + [op]) == Replay(tables, [op])
    {
      ReplayConcat(initial, log, [op]);
    }

    /** A read returning every matching row, or the request's error. */
    method Query(t: Table, filter: seq<(string, Value)>) returns (r: Option<seq<Row>>)
      requires Valid()
      modifies this`log
      ensures Valid()
      ensures log == old(log) + [Read(t)]
      ensures r == if t in failing then None else Some(Select(Rows(t), filter))
    {
      Appended(Read(t));
      log := log + [Read(t)];
      r := if t in failing then None else Some(Select(Rows(t), filter));
    }

    /** A read with `.single()`: nothing on an error, on no match and on
        several matches. */
    method QuerySingle(t: Table, filter: seq<(string, Value)>) returns (r: Option<Row>)
      requires Valid()
      modifies this`log
      ensures Valid()
      ensures log == old(log) + [Read(t)]
      ensures r == Lookup(tables, failing, t, filter)
    {
      var found := Query(t, filter);
      r := if found.None? then None else Single(Rows(t), filter);
    }

    /** A batch insert: all rows or, on an error, none. */
    method Insert(t: Table, rows: seq<Row>) returns (ok: bool)
      requires Valid()
      modifies this`tables, this`log
      ensures Valid()
      ensures ok == (t !in failing)
      ensures log == old(log) + [Write(t, rows, ok)]
      ensures tables == if ok then old(tables)[t := old(Rows(t)) + rows] else old(tables)
    {
      ok := t !in failing;
      Appended(Write(t, rows, ok));
      log := log + [Write(t, rows, ok)];
      if ok {
        tables := tables[t := Rows(t) + rows];
      }
    }

    /** `insert(row).select().single()` on Shifts: the stored row, with the
        id the store gave it. */
    method InsertShift(row: Row) returns (r: Option<Row>)
      requires Valid()
      modifies this`tables, this`log, this`nextId
      ensures Valid()
      ensures var stored := row["id" := Str(IdOf(old(nextId)))];
        && r == (if Shifts in failing then None else Some(stored))
        && log == old(log) + [Write(Shifts, [stored], r.Some?)]
        && tables == (if r.Some? then old(tables)[Shifts := old(Rows(Shifts)) + [stored]] else old(tables))
        && nextId == old(nextId) + 1
    {
      var stored := row["id" := Str(IdOf(nextId))];
      nextId := nextId + 1;
      var ok := Insert(Shifts, [stored]);
      r := if ok then Some(stored) else None;
    }

    /** The steps after the root insert, one at a time, until one throws or
        its insert fails. */
    method RunAll(steps: seq<Step>) returns (error: Option<string>)
      requires Valid()
      modifies this`tables, this`log
      ensures Valid()
      ensures log == old(log) + RunSteps(steps, failing).ops
      ensures error == RunSteps(steps, failing).error
      ensures tables == Replay(old(tables), RunSteps(steps, failing).ops)
    {
      error := None;
      var i := 0;
      ghost var done: seq<Op> := [];
      assert steps[0..] == steps;
      while i < |steps| && error.None?
        invariant 0 <= i <= |steps|
        invariant Valid()
        invariant log == old(log) + done
        invariant tables == Replay(old(tables), done)
        invariant error.None? ==> RunSteps(steps, failing) == Run(done + RunSteps(steps[i..], failing).ops, RunSteps(steps[i..], failing).error)
        invariant error.Some? ==> RunSteps(steps, failing) == Run(done, error)
        decreases |steps| - i
      {
        StepUnfold(steps, i, failing);
        if steps[i].Throws? {
          error := Some(steps[i].message);
        } else if steps[i].value.Some? {
          var b := steps[i].value.value;
          var ok := Insert(b.table, b.rows);
          ReplayConcat(old(tables), done, [Write(b.table, b.rows, ok)]);
          done := done + [Write(b.table, b.rows, ok)];
          if !ok {
            error := Some(b.onError);
          }
        }
        i := i + 1;
      }
      if error.None? {
        assert steps[i..] == [];
        assert done + RunSteps(steps[i..], failing).ops == done;
      }
      assert RunSteps(steps, failing).ops == done;
    }
  }
}
