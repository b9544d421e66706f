/** src/services/receiptValidationService.ts: a receipt's record checked
    against the kilometre and trip rules and looked up in the store. The
    company, car and driver lookups all run, whatever the earlier checks
    gave; a malformed document or a failing request is rethrown. The parsed
    document is a parameter (the result of `JSON.parse`). */
module ReceiptValidationService {
  import opened Js
  import opened Store
  import ReceiptValidation
  import TripsValidation

  datatype ValidationResult = ValidationResult(
    isValid: bool, carExists: bool, driverExists: bool, companyExists: bool, kmValid: bool, tripsValid: bool,
    company: Option<Row>, car: Option<Row>, driver: Option<Row>)

  /** `validateKilometers(data.taxitrafik_km, data.betalda_km).isValid` on the
      raw values: invalid only when `taxitrafik_km < betalda_km`. */
  predicate KmValid(data: Value) { !LooseLess(Get(data, "taxitrafik_km"), Get(data, "betalda_km")) }

  /** `Number(data.turer) || 0` */
  function Trips(data: Value): real { NumberOrZero(Get(data, "turer")) }

  predicate TripsValid(data: Value) { TripsValidation.ValidateTrips(Finite(Trips(data))) }

  function CompanyFilter(data: Value): seq<(string, Value)> { [("org_nr", Get(data, "org_nr"))] }
  function CarFilter(data: Value): seq<(string, Value)> { [("regnr", Get(data, "regnr")), ("drosknr", Get(data, "drosknr"))] }
  function DriverFilter(data: Value): seq<(string, Value)> { [("forarid", Get(data, "forarid"))] }

  function TypeOf(v: Value): string {
    match v
    case Bool(_) => "boolean"
    case Num(_) => "number"
    case Str(_) => "string"
    case _ => "object"
  }

  /** `data.turer = normalizeTrips(trips)` when the trips are out of range. An
      object gets the field; an array gets it as a named property, which the
      arrays of this model do not hold; a primitive refuses it in strict mode. */
  function Normalized(data: Value): (r: Completion<Value>)
    requires !data.Null? && !data.Undefined?
    ensures TripsValid(data) ==> r == Returns(data)
    ensures r.Returns? && r.value.Obj? && !TripsValid(data) ==>
      Get(r.value, "turer") == Num(TripsValidation.NormalizeTrips(Finite(Trips(data))))
  {
    if TripsValid(data) then Returns(data)
    else match data
      case Obj(m) => Returns(Obj(m["turer" := Num(TripsValidation.NormalizeTrips(Finite(Trips(data))))]))
      case Arr(_) => Returns(data)
      case _ => Throws("Cannot create property 'turer' on " + TypeOf(data) + " '" + ToStr(data) + "'")
  }

  /** The columns each lookup selects: `'id, org_nr'`, `'id, regnr, drosknr'`
      and `'id, forarid'`. */
  const COMPANY_COLUMNS: set<string> := {"id", "org_nr"}
  const CAR_COLUMNS: set<string> := {"id", "regnr", "drosknr"}
  const DRIVER_COLUMNS: set<string> := {"id", "forarid"}

  /** A row cut down to the selected columns it holds. */
  function Project(row: Row, columns: set<string>): (r: Row)
    ensures r.Keys == row.Keys * columns
    ensures forall k :: k in r ==> r[k] == row[k]
  {
    map k | k in row.Keys * columns :: row[k]
  }

  /** `rows[0]` as the query returned it, holding only the selected columns;
      none when nothing matched. */
  function First(rows: seq<Row>, columns: set<string>): (r: Option<Row>)
    ensures r.Some? <==> rows != []
    ensures r.Some? ==> r.value.Keys <= columns && r.value == Project(rows[0], columns)
  {
    if rows == [] then None else Some(Project(rows[0], columns))
  }

  /** The requests, the outcome and the record left behind. */
  datatype Checked = Checked(ops: seq<Op>, result: Completion<ValidationResult>)

  /** What `validateReceiptData` does against the store. */
  function Check(tables: map<Table, seq<Row>>, failing: set<Table>, json: Completion<Value>): (c: Checked)
    ensures c.result.Returns? ==> c.ops == [Read(Companies), Read(Cars), Read(Drivers)]
    ensures NoWrites(c.ops)
    ensures c.result.Returns? ==>
      var v := c.result.value;
      && json.Returns?
      && (v.isValid <==> v.companyExists && v.carExists && v.driverExists && v.kmValid && v.tripsValid)
      && v.kmValid == KmValid(json.value)
      && v.tripsValid == TripsValid(json.value)
      && (v.companyExists <==> Select(RowsIn(tables, Companies), CompanyFilter(json.value)) != [])
      && (v.carExists <==> Select(RowsIn(tables, Cars), CarFilter(json.value)) != [])
      && (v.driverExists <==> Select(RowsIn(tables, Drivers), DriverFilter(json.value)) != [])
      && v.company == First(Select(RowsIn(tables, Companies), CompanyFilter(json.value)), COMPANY_COLUMNS)
      && v.car == First(Select(RowsIn(tables, Cars), CarFilter(json.value)), CAR_COLUMNS)
      && v.driver == First(Select(RowsIn(tables, Drivers), DriverFilter(json.value)), DRIVER_COLUMNS)
    ensures json.Throws? ==> c == Checked([], Throws(json.message))
    ensures c.result.Throws? && json.Returns? && !json.value.Null? && !json.value.Undefined? &&
            Normalized(json.value).Returns? ==>
      exists t :: t in [Companies, Cars, Drivers] && t in failing && c.result.message == StoreError(t)
  {
    match json
    case Throws(m) => Checked([], Throws(m))
    case Returns(data) =>
      if data.Null? || data.Undefined? then Checked([], Throws(ReadError(data, "taxitrafik_km")))
      else
        match Normalized(data)
        case Throws(m) => Checked([], Throws(m))
        case Returns(_) =>
          if Companies in failing then Checked([Read(Companies)], Throws(StoreError(Companies)))
          else if Cars in failing then Checked([Read(Companies), Read(Cars)], Throws(StoreError(Cars)))
          else if Drivers in failing then Checked([Read(Companies), Read(Cars), Read(Drivers)], Throws(StoreError(Drivers)))
          else
            var companies := Select(RowsIn(tables, Companies), CompanyFilter(data));
            var cars := Select(RowsIn(tables, Cars), CarFilter(data));
            var drivers := Select(RowsIn(tables, Drivers), DriverFilter(data));
            var ok := companies != [] && cars != [] && drivers != [] && KmValid(data) && TripsValid(data);
            Checked([Read(Companies), Read(Cars), Read(Drivers)],
              Returns(ValidationResult(ok, cars != [], drivers != [], companies != [], KmValid(data), TripsValid(data),
                                       First(companies, COMPANY_COLUMNS), First(cars, CAR_COLUMNS),
                                       First(drivers, DRIVER_COLUMNS))))
  }

  /** `validateReceiptData`; `record` is the parsed document after the trip
      normalisation, which stays local to the call. */
  method ValidateReceiptData(db: Database, json: Completion<Value>) returns (r: Completion<ValidationResult>, record: Value)
    requires db.Valid()
    modifies db`log
    ensures db.Valid() && db.tables == old(db.tables)
    ensures db.log == old(db.log) + Check(old(db.tables), db.failing, json).ops
    ensures r == Check(old(db.tables), db.failing, json).result
    ensures r.Returns? ==> record == Normalized(json.value).value
  {
    record := Undefined;
    if json.Throws? {
      r := Throws(json.message);
      return;
    }
    var data := json.value;
    if data.Null? || data.Undefined? {
      r := Throws(ReadError(data, "taxitrafik_km"));
      return;
    }
    var kmValid := KmValid(data);
    var trips := Trips(data);
    var tripsValid := TripsValidation.ValidateTrips(Finite(trips));
    record := data;
    if !tripsValid {
      var n := Normalized(data);
      if n.Throws? {
        r := Throws(n.message);
        return;
      }
      record := n.value;
    }

    var companies := db.Query(Companies, CompanyFilter(data));
    if companies.None? {
      r := Throws(StoreError(Companies));
      return;
    }
    var companyExists := companies.value != [];

    var cars := db.Query(Cars, CarFilter(data));
    if cars.None? {
      r := Throws(StoreError(Cars));
      return;
    }
    var carExists := cars.value != [];

    var drivers := db.Query(Drivers, DriverFilter(data));
    if drivers.None? {
      r := Throws(StoreError(Drivers));
      return;
    }
    var driverExists := drivers.value != [];

    var isValid := companyExists && carExists && driverExists && kmValid && tripsValid;
    r := Returns(ValidationResult(isValid, carExists, driverExists, companyExists, kmValid, tripsValid,
                                  First(companies.value, COMPANY_COLUMNS),
                                  First(cars.value, CAR_COLUMNS), First(drivers.value, DRIVER_COLUMNS)));
  }

  /** On numeric readings the kilometre flag is the kilometre rule. */
  lemma KmValidIsRule(data: Value)
    requires Get(data, "taxitrafik_km").Num? && Get(data, "betalda_km").Num?
    ensures KmValid(data) == ReceiptValidation.ValidateKilometers(Get(data, "taxitrafik_km").num, Get(data, "betalda_km").num).isValid
  {
    var a := Get(data, "taxitrafik_km").num;
    var b := Get(data, "betalda_km").num;
    assert KmValid(data) == !ReceiptValidation.NumberLess(a, b) by {
      assert ToPrimitive(Num(a)) == Num(a) && ToPrimitive(Num(b)) == Num(b);
    }
    var k := ReceiptValidation.ValidateKilometers(a, b);
    assert k.isValid <==> !ReceiptValidation.NumberLess(a, b);
  }

  /** A car registered under another drosk number is not found, whatever
      company the receipt names: the lookups are not scoped to the company. */
  lemma CarNeedsBothKeys(tables: map<Table, seq<Row>>, failing: set<Table>, data: Value)
    requires Companies !in failing && Cars !in failing && Drivers !in failing
    requires !data.Null? && !data.Undefined? && TripsValid(data)
    requires forall row :: row in RowsIn(tables, Cars) ==> !Eq(row, "drosknr", Get(data, "drosknr"))
    ensures var c := Check(tables, failing, Returns(data));
      c.result.Returns? && !c.result.value.carExists && !c.result.value.isValid
  {
    SelectNone(RowsIn(tables, Cars), CarFilter(data), 1);
  }
}
