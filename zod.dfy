/** The part of zod's object parsing the schemas of the receipt pipeline rely
    on: each key of a shape is checked in order, every failing key is reported
    (not just the first), `z.number()` refuses NaN, unknown keys are stripped,
    and an array schema checks every element. A failing path is written with
    '.' between its parts ("moms_details.0.brutto"); the top-level object is
    the empty path. */
module Zod {
  import opened Js
  import TripsValidation

  /** The field schemas the pipeline uses. */
  datatype Kind =
    | Text          // z.string()
    | NonEmptyText  // z.string().min(1)
    | UuidText      // z.string().uuid()
    | Numeric       // z.number()
    | NonNegative   // z.number().nonnegative()
    | TripCount     // z.number().refine(validateTrips)

  predicate IsHex(c: char) { '0' <= c <= '9' || 'a' <= c <= 'f' || 'A' <= c <= 'F' }

  /** The shape zod's uuid check accepts: 8-4-4-4-12 hexadecimal digits. */
  predicate IsUuid(s: string) {
    |s| == 36 && UuidFrom(s, 0)
  }

  /** Every position from `i` on holds a '-' at 8, 13, 18 and 23 and a
      hexadecimal digit elsewhere. */
  predicate UuidFrom(s: string, i: nat)
    decreases |s| - i
  {
    i >= |s| ||
    ((if i == 8 || i == 13 || i == 18 || i == 23 then s[i] == '-' else IsHex(s[i])) && UuidFrom(s, i + 1))
  }

  predicate Accepts(kind: Kind, v: Value) {
    match kind
    case Text => v.Str?
    case NonEmptyText => v.Str? && |v.s| >= 1
    case UuidText => v.Str? && IsUuid(v.s)
    case Numeric => v.Num? && v.num.Finite?
    case NonNegative => v.Num? && v.num.Finite? && v.num.val >= 0.0
    case TripCount => v.Num? && v.num.Finite? && TripsValidation.ValidateTrips(v.num)
  }

  /** The paths of the keys of `shape` whose value in `rec` fails, in shape order. */
  function Issues(rec: Value, shape: seq<(string, Kind)>): (r: seq<string>)
    ensures |r| <= |shape|
    ensures r == [] <==> forall i :: 0 <= i < |shape| ==> Accepts(shape[i].1, Get(rec, shape[i].0))
    ensures forall i :: 0 <= i < |shape| && !Accepts(shape[i].1, Get(rec, shape[i].0)) ==> shape[i].0 in r
    ensures forall p :: p in r ==> exists i :: 0 <= i < |shape| && shape[i].0 == p && !Accepts(shape[i].1, Get(rec, p))
  {
    if shape == [] then []
    else
      var rest := Issues(rec, shape[1..]);
      assert forall i :: 1 <= i < |shape| ==> shape[1..][i - 1] == shape[i];
      (if Accepts(shape[0].1, Get(rec, shape[0].0)) then [] else [shape[0].0]) + rest
  }

  /** A field of the shape that fails is reported. */
  lemma FieldReported(rec: Value, shape: seq<(string, Kind)>, i: nat)
    requires i < |shape| && !Accepts(shape[i].1, Get(rec, shape[i].0))
    ensures shape[i].0 in Issues(rec, shape)
  {
  }

  /** When nothing is reported, every field of the shape passes. */
  lemma FieldAccepted(rec: Value, shape: seq<(string, Kind)>, i: nat)
    requires i < |shape| && Issues(rec, shape) == []
    ensures Accepts(shape[i].1, Get(rec, shape[i].0))
  {
  }

  /** `path` followed by `key`. */
  function Sub(path: string, key: string): string {
    if path == "" then key else path + "." + key
  }

  /** The paths under `path`. */
  function Prefixed(path: string, paths: seq<string>): (r: seq<string>)
    ensures |r| == |paths|
  {
    seq(|paths|, i requires 0 <= i < |paths| => Sub(path, paths[i]))
  }

  /** `v` passes `z.object(shape)`. */
  predicate Conforms(v: Value, shape: seq<(string, Kind)>) {
    v.Obj? && forall i :: 0 <= i < |shape| ==> Accepts(shape[i].1, Get(v, shape[i].0))
  }

  /** `z.object(shape)` at `path`: a value that is not a plain object fails as
      a whole (arrays included), otherwise every failing key is reported. */
  function ObjectIssues(path: string, v: Value, shape: seq<(string, Kind)>): (r: seq<string>)
    ensures r == [] <==> Conforms(v, shape)
  {
    if !v.Obj? then [path] else Prefixed(path, Issues(v, shape))
  }

  /** The elements of `z.array(z.object(shape))` at `path`, from index `from` on. */
  function ElementIssues(path: string, items: seq<Value>, shape: seq<(string, Kind)>, from: nat): (r: seq<string>)
    ensures r == [] <==> forall i :: 0 <= i < |items| ==> Conforms(items[i], shape)
  {
    if items == [] then []
    else
      assert forall i :: 1 <= i < |items| ==> items[1..][i - 1] == items[i];
      ObjectIssues(Sub(path, NatToDecimal(from)), items[0], shape) + ElementIssues(path, items[1..], shape, from + 1)
  }

  /** `z.array(z.object(shape))` at `path`. */
  function ArrayIssues(path: string, v: Value, shape: seq<(string, Kind)>): (r: seq<string>)
    ensures r == [] <==> v.Arr? && forall i :: 0 <= i < |v.items| ==> Conforms(v.items[i], shape)
  {
    if !v.Arr? then [path] else ElementIssues(path, v.items, shape, 0)
  }

  function Keys(shape: seq<(string, Kind)>): set<string> {
    set i | 0 <= i < |shape| :: shape[i].0
  }

  /** The fields `v` keeps after parsing: only the keys of `shape`. */
  function Stripped(v: Value, shape: seq<(string, Kind)>): (r: map<string, Value>)
    ensures forall k :: k in r <==> k in Spread(v) && k in Keys(shape)
  {
    map k | k in Spread(v) && k in Keys(shape) :: Spread(v)[k]
  }

  /** The VAT-detail object several schemas repeat: four non-negative numbers. */
  function MomsDetailShape(): seq<(string, Kind)> {
    [("moms_percentage", NonNegative), ("brutto", NonNegative), ("netto", NonNegative), ("moms_kr", NonNegative)]
  }

  /** A VAT detail after a successful parse of `MomsDetailShape()`. */
  datatype MomsDetail = MomsDetail(moms_percentage: real, brutto: real, netto: real, moms_kr: real)

  /** The fields of an object (none for anything else). */
  function Fields(v: Value): map<string, Value> { if v.Obj? then v.fields else map[] }

  /** The typed detail a conforming value parses to. */
  function DetailOf(v: Value): (r: MomsDetail)
    ensures Conforms(v, MomsDetailShape()) ==> DetailNonNegative(r)
  {
    ConformsDetail(v);
    MomsDetail(NumberOf(Get(v, "moms_percentage")), NumberOf(Get(v, "brutto")),
               NumberOf(Get(v, "netto")), NumberOf(Get(v, "moms_kr")))
  }

  /** The JSON object that carries a detail. */
  function DetailValue(d: MomsDetail): Value {
    Obj(map["moms_percentage" := N(d.moms_percentage), "brutto" := N(d.brutto),
            "netto" := N(d.netto), "moms_kr" := N(d.moms_kr)])
  }

  predicate DetailNonNegative(d: MomsDetail) {
    d.moms_percentage >= 0.0 && d.brutto >= 0.0 && d.netto >= 0.0 && d.moms_kr >= 0.0
  }

  /** A detail passes the schema exactly when its amounts are non-negative, and
      parsing its JSON object gives it back. */
  lemma DetailRoundTrip(d: MomsDetail)
    ensures Conforms(DetailValue(d), MomsDetailShape()) <==> DetailNonNegative(d)
    ensures DetailOf(DetailValue(d)) == d
  {
    var v := DetailValue(d);
    assert Get(v, "moms_percentage") == N(d.moms_percentage);
    assert Get(v, "brutto") == N(d.brutto);
    assert Get(v, "netto") == N(d.netto);
    assert Get(v, "moms_kr") == N(d.moms_kr);
    ConformsDetail(v);
  }

  /** The four fields of a VAT detail, one by one. */
  lemma ConformsDetail(v: Value)
    ensures Conforms(v, MomsDetailShape()) <==>
      (v.Obj? && Accepts(NonNegative, Get(v, "moms_percentage")) && Accepts(NonNegative, Get(v, "brutto")) &&
       Accepts(NonNegative, Get(v, "netto")) && Accepts(NonNegative, Get(v, "moms_kr")))
  {
    var shape := MomsDetailShape();
    assert shape[0] == ("moms_percentage", NonNegative) && shape[1] == ("brutto", NonNegative);
    assert shape[2] == ("netto", NonNegative) && shape[3] == ("moms_kr", NonNegative);
  }

  /** The result of a schema parse: the parsed value, zod's rejection with the
      failing paths, or another exception with its message. */
  datatype Outcome<T> = Valid(value: T) | Rejected(paths: seq<string>) | Thrown(message: string)

  /** The string a passing `z.string()` field holds. */
  function TextOf(v: Value): string { if v.Str? then v.s else "" }

  /** The number a passing `z.number()` field holds. */
  function NumberOf(v: Value): real { if v.Num? && v.num.Finite? then v.num.val else 0.0 }

  /** `items.map(parse)`: every result in order, or the outcome of the first
      element that does not pass (its exception propagates out of `map`). */
  function MapAll<T>(items: seq<Value>, parse: Value -> Outcome<T>): (r: Outcome<seq<T>>)
    ensures r.Valid? <==> forall i :: 0 <= i < |items| ==> parse(items[i]).Valid?
    ensures r.Valid? ==> (|r.value| == |items| &&
      forall i :: 0 <= i < |items| ==> r.value[i] == parse(items[i]).value)
  {
    if items == [] then Valid([])
    else
      var rest := MapAll(items[1..], parse);
      assert forall i :: 1 <= i < |items| ==> items[1..][i - 1] == items[i];
      match parse(items[0])
      case Thrown(m) => Thrown(m)
      case Rejected(p) => Rejected(p)
      case Valid(t) => if rest.Valid? then Valid([t] + rest.value) else rest
  }

  /** `r` is the failure of element `i`, and every element before it passed. */
  predicate FailedAt<T>(r: Outcome<seq<T>>, items: seq<Value>, parse: Value -> Outcome<T>, i: nat)
    requires i < |items|
  {
    (forall j :: 0 <= j < i ==> parse(items[j]).Valid?) &&
    match parse(items[i])
    case Valid(_) => false
    case Thrown(m) => r == Thrown(m)
    case Rejected(p) => r == Rejected(p)
  }

  /** `map` stops at the first element that fails, with that element's outcome. */
  lemma {:induction false} FirstFailure<T>(items: seq<Value>, parse: Value -> Outcome<T>)
    requires !MapAll(items, parse).Valid?
    ensures exists i :: 0 <= i < |items| && FailedAt(MapAll(items, parse), items, parse, i)
  {
    var r := MapAll(items, parse);
    assert items != [];
    assert forall i :: 1 <= i < |items| ==> items[1..][i - 1] == items[i];
    if parse(items[0]).Valid? {
      FirstFailure(items[1..], parse);
      var j :| 0 <= j < |items[1..]| && FailedAt(MapAll(items[1..], parse), items[1..], parse, j);
      assert FailedAt(r, items, parse, j + 1);
    } else {
      assert FailedAt(r, items, parse, 0);
    }
  }
}
