/** src/services/validation/bomValidation.ts: the booked-and-cancelled ("bom")
    VAT rows of a shift, each tied to its shift by a UUID. */
module BomValidation {
  import opened Js
  import Zod

  /** `bomDetailSchema`: the shift id and the four VAT-detail amounts. */
  function BomShape(): seq<(string, Zod.Kind)> { [("shift_id", Zod.UuidText)] + Zod.MomsDetailShape() }

  datatype BomDetail = BomDetail(shift_id: string, detail: Zod.MomsDetail)

  /** One element passes `bomDetailSchema`. */
  lemma ConformsBom(v: Value)
    ensures Zod.Conforms(v, BomShape()) <==>
      (Zod.Accepts(Zod.UuidText, Get(v, "shift_id")) && Zod.Conforms(v, Zod.MomsDetailShape()))
  {
    var shape := BomShape();
    assert shape[0] == ("shift_id", Zod.UuidText);
    assert shape[1] == ("moms_percentage", Zod.NonNegative) && shape[2] == ("brutto", Zod.NonNegative);
    assert shape[3] == ("netto", Zod.NonNegative) && shape[4] == ("moms_kr", Zod.NonNegative);
    Zod.ConformsDetail(v);
  }

  /** The typed row a conforming element parses to. */
  function BomOf(v: Value): (r: BomDetail)
    ensures Zod.Conforms(v, BomShape()) ==> Zod.IsUuid(r.shift_id) && Zod.DetailNonNegative(r.detail)
  {
    ConformsBom(v);
    BomDetail(Zod.TextOf(Get(v, "shift_id")), Zod.DetailOf(v))
  }

  /** `validateBomDetails`: null (`Valid(None)`) for a falsy input or an empty
      array; otherwise `z.array(bomDetailSchema).parse`, whose failure is
      rethrown (`Rejected`). */
  function ValidateBomDetails(data: Value): (r: Zod.Outcome<Option<seq<BomDetail>>>)
    ensures !r.Thrown?
    ensures r == Zod.Valid(None) <==> (!Truthy(data) || data == Arr([]))
    ensures r.Rejected? <==>
      (Truthy(data) && (!data.Arr? || exists i :: 0 <= i < |data.items| && !Zod.Conforms(data.items[i], BomShape())))
    ensures r.Valid? && r.value.Some? ==>
      && data.Arr?
      && |r.value.value| == |data.items| > 0
      && forall i :: 0 <= i < |data.items| ==>
           r.value.value[i] == BomOf(data.items[i]) &&
           Zod.IsUuid(r.value.value[i].shift_id) && Zod.DetailNonNegative(r.value.value[i].detail)
  {
    if !Truthy(data) || (data.Arr? && |data.items| == 0) then Zod.Valid(None)
    else
      var issues := Zod.ArrayIssues("", data, BomShape());
      if issues != [] then Zod.Rejected(issues)
      else Zod.Valid(Some(seq(|data.items|, i requires 0 <= i < |data.items| => BomOf(data.items[i]))))
  }

  /** The JSON object that carries a row. */
  function BomValue(b: BomDetail): Value {
    Obj(Zod.Fields(Zod.DetailValue(b.detail))["shift_id" := Str(b.shift_id)])
  }

  predicate BomValid(b: BomDetail) { Zod.IsUuid(b.shift_id) && Zod.DetailNonNegative(b.detail) }

  /** A row with a UUID and non-negative amounts passes and parses back to itself. */
  lemma RowRoundTrip(b: BomDetail)
    ensures Zod.Conforms(BomValue(b), BomShape()) <==> BomValid(b)
    ensures BomOf(BomValue(b)) == b
  {
    var v := BomValue(b);
    var w := Zod.DetailValue(b.detail);
    Zod.DetailRoundTrip(b.detail);
    forall k | k in Zod.Keys(Zod.MomsDetailShape()) ensures Get(v, k) == Get(w, k) {
    }
    ConformsBom(v);
    Zod.ConformsDetail(v);
    Zod.ConformsDetail(w);
  }

  /** A non-empty list of valid rows validates to itself; an invalid row anywhere
      makes the whole list rejected. */
  lemma RoundTrip(rows: seq<BomDetail>)
    requires rows != []
    ensures var r := ValidateBomDetails(Arr(seq(|rows|, i requires 0 <= i < |rows| => BomValue(rows[i]))));
      (forall i :: 0 <= i < |rows| ==> BomValid(rows[i])) ==> r == Zod.Valid(Some(rows))
    ensures var r := ValidateBomDetails(Arr(seq(|rows|, i requires 0 <= i < |rows| => BomValue(rows[i]))));
      (exists i :: 0 <= i < |rows| && !BomValid(rows[i])) ==> r.Rejected?
  {
    var items := seq(|rows|, i requires 0 <= i < |rows| => BomValue(rows[i]));
    forall i | 0 <= i < |rows|
      ensures Zod.Conforms(items[i], BomShape()) <==> BomValid(rows[i])
      ensures BomOf(items[i]) == rows[i]
    {
      RowRoundTrip(rows[i]);
    }
    if forall i :: 0 <= i < |rows| ==> BomValid(rows[i]) {
      assert ValidateBomDetails(Arr(items)).value.value == rows;
    }
  }

  /** `hasBomDetails`: the input is an object whose `varav_bom_avbest_details`
      has a truthy array of details with at least one element. */
  function HasBomDetails(data: Value): (r: bool)
    ensures r <==>
      (data.Obj? && Get(data, "varav_bom_avbest_details").Obj? &&
       Get(Get(data, "varav_bom_avbest_details"), "moms_details").Arr? &&
       Get(Get(data, "varav_bom_avbest_details"), "moms_details").items != [])
  {
    var md := Get(Get(data, "varav_bom_avbest_details"), "moms_details");
    Truthy(data) && IsObject(data) && Truthy(md) && md.Arr? && |md.items| > 0
  }

  lemma HasBomDetailsIff(data: Value)
    ensures HasBomDetails(data) <==>
      (data.Obj? && Get(data, "varav_bom_avbest_details").Obj? &&
       Get(Get(data, "varav_bom_avbest_details"), "moms_details").Arr? &&
       Get(Get(data, "varav_bom_avbest_details"), "moms_details").items != [])
  {
  }
}
