/** src/services/validation/totalInkortValidation.ts: the "total inkört" VAT
    rows of a shift. Validation coerces every amount with `Number(x) || 0`
    before the strict schema; the transform builds rows from a parsed section. */
module TotalInkortValidation {
  import opened Js
  import Zod

  /** `totalInkortDetailSchema` */
  function RowShape(): seq<(string, Zod.Kind)> {
    [("shift_id", Zod.UuidText), ("total_inkort", Zod.NonNegative)] + Zod.MomsDetailShape()
  }

  datatype TotalInkortDetail = TotalInkortDetail(shift_id: string, total_inkort: real, detail: Zod.MomsDetail)

  const FormatError := "Invalid total inkört details format"

  /** V8's message when `.map` is called on a value that has none. */
  const NotMappable := "rawData.moms_details.map is not a function"

  lemma ConformsRow(v: Value)
    ensures Zod.Conforms(v, RowShape()) <==>
      (Zod.Accepts(Zod.UuidText, Get(v, "shift_id")) && Zod.Accepts(Zod.NonNegative, Get(v, "total_inkort")) &&
       Zod.Conforms(v, Zod.MomsDetailShape()))
  {
    var shape := RowShape();
    assert shape[0] == ("shift_id", Zod.UuidText) && shape[1] == ("total_inkort", Zod.NonNegative);
    assert shape[2] == ("moms_percentage", Zod.NonNegative) && shape[3] == ("brutto", Zod.NonNegative);
    assert shape[4] == ("netto", Zod.NonNegative) && shape[5] == ("moms_kr", Zod.NonNegative);
    Zod.ConformsDetail(v);
  }

  predicate RowValid(t: TotalInkortDetail) {
    Zod.IsUuid(t.shift_id) && t.total_inkort >= 0.0 && Zod.DetailNonNegative(t.detail)
  }

  /** The typed row a conforming value parses to. */
  function RowOf(v: Value): (r: TotalInkortDetail)
    ensures Zod.Conforms(v, RowShape()) ==> RowValid(r)
  {
    ConformsRow(v);
    TotalInkortDetail(Zod.TextOf(Get(v, "shift_id")), Zod.NumberOf(Get(v, "total_inkort")), Zod.DetailOf(v))
  }

  /** `{ ...detail, total_inkort: Number(detail.total_inkort) || 0, … }` */
  function Coerced(detail: Value): Value
    requires !detail.Null? && !detail.Undefined?
  {
    Obj(Spread(detail)["total_inkort" := N(NumberOrZero(Get(detail, "total_inkort")))]
                      ["moms_percentage" := N(NumberOrZero(Get(detail, "moms_percentage")))]
                      ["brutto" := N(NumberOrZero(Get(detail, "brutto")))]
                      ["netto" := N(NumberOrZero(Get(detail, "netto")))]
                      ["moms_kr" := N(NumberOrZero(Get(detail, "moms_kr")))])
  }

  /** The coerced object, field by field. */
  lemma CoercedFields(detail: Value)
    requires !detail.Null? && !detail.Undefined?
    ensures var c := Coerced(detail);
      && Get(c, "shift_id") == Get(detail, "shift_id")
      && Get(c, "total_inkort") == N(NumberOrZero(Get(detail, "total_inkort")))
      && Get(c, "moms_percentage") == N(NumberOrZero(Get(detail, "moms_percentage")))
      && Get(c, "brutto") == N(NumberOrZero(Get(detail, "brutto")))
      && Get(c, "netto") == N(NumberOrZero(Get(detail, "netto")))
      && Get(c, "moms_kr") == N(NumberOrZero(Get(detail, "moms_kr")))
  {
  }

  /** Every coerced amount of `detail` is non-negative. */
  predicate AmountsNonNegative(detail: Value) {
    NumberOrZero(Get(detail, "total_inkort")) >= 0.0 && NumberOrZero(Get(detail, "moms_percentage")) >= 0.0 &&
    NumberOrZero(Get(detail, "brutto")) >= 0.0 && NumberOrZero(Get(detail, "netto")) >= 0.0 &&
    NumberOrZero(Get(detail, "moms_kr")) >= 0.0
  }

  /** The callback of `data.map`: reading `detail.total_inkort` throws for a
      missing element, otherwise the coerced object is parsed. */
  function ValidateDetail(detail: Value): (r: Zod.Outcome<TotalInkortDetail>)
    ensures r.Thrown? <==> detail.Null? || detail.Undefined?
    ensures r.Valid? ==> RowValid(r.value)
  {
    if detail.Null? || detail.Undefined? then Zod.Thrown(ReadError(detail, "total_inkort"))
    else
      var c := Coerced(detail);
      var issues := Zod.Issues(c, RowShape());
      if issues != [] then Zod.Rejected(issues) else Zod.Valid(RowOf(c))
  }

  /** A present element passes exactly when its `shift_id` is a UUID and every
      coerced amount is non-negative; then its row holds those amounts. */
  lemma DetailValidIff(detail: Value)
    requires !detail.Null? && !detail.Undefined?
    ensures ValidateDetail(detail).Valid? <==>
      (Zod.Accepts(Zod.UuidText, Get(detail, "shift_id")) && AmountsNonNegative(detail))
    ensures ValidateDetail(detail).Valid? ==>
      var t := ValidateDetail(detail).value;
      && t.shift_id == Get(detail, "shift_id").s
      && t.total_inkort == NumberOrZero(Get(detail, "total_inkort"))
      && t.detail == Zod.MomsDetail(NumberOrZero(Get(detail, "moms_percentage")), NumberOrZero(Get(detail, "brutto")),
                                    NumberOrZero(Get(detail, "netto")), NumberOrZero(Get(detail, "moms_kr")))
  {
    CoercedFields(detail);
    FieldsConform(Coerced(detail), detail);
    if ValidateDetail(detail).Valid? {
      CoercedRow(detail);
    }
  }

  /** An object holding the coerced amounts passes the row schema exactly when
      the `shift_id` is a UUID and every amount is non-negative. */
  lemma FieldsConform(c: Value, detail: Value)
    requires c.Obj? && Get(c, "shift_id") == Get(detail, "shift_id")
    requires && Get(c, "total_inkort") == N(NumberOrZero(Get(detail, "total_inkort")))
             && Get(c, "moms_percentage") == N(NumberOrZero(Get(detail, "moms_percentage")))
             && Get(c, "brutto") == N(NumberOrZero(Get(detail, "brutto")))
             && Get(c, "netto") == N(NumberOrZero(Get(detail, "netto")))
             && Get(c, "moms_kr") == N(NumberOrZero(Get(detail, "moms_kr")))
    ensures Zod.Issues(c, RowShape()) == [] <==>
      (Zod.Accepts(Zod.UuidText, Get(detail, "shift_id")) && AmountsNonNegative(detail))
  {
    RowIssuesNone(c);
    AmountsPass(c, NumberOrZero(Get(detail, "total_inkort")), NumberOrZero(Get(detail, "moms_percentage")),
                NumberOrZero(Get(detail, "brutto")), NumberOrZero(Get(detail, "netto")), NumberOrZero(Get(detail, "moms_kr")));
  }

  lemma AmountsPass(c: Value, total: real, percentage: real, brutto: real, netto: real, kr: real)
    requires Get(c, "total_inkort") == N(total) && Get(c, "moms_percentage") == N(percentage)
    requires Get(c, "brutto") == N(brutto) && Get(c, "netto") == N(netto) && Get(c, "moms_kr") == N(kr)
    ensures RowFieldsPass(c) <==>
      (Zod.Accepts(Zod.UuidText, Get(c, "shift_id"))
       && total >= 0.0 && percentage >= 0.0 && brutto >= 0.0 && netto >= 0.0 && kr >= 0.0)
  {
  }

  /** Each of the row schema's six fields passes. */
  predicate RowFieldsPass(v: Value) {
    && Zod.Accepts(Zod.UuidText, Get(v, "shift_id")) && Zod.Accepts(Zod.NonNegative, Get(v, "total_inkort"))
    && Zod.Accepts(Zod.NonNegative, Get(v, "moms_percentage")) && Zod.Accepts(Zod.NonNegative, Get(v, "brutto"))
    && Zod.Accepts(Zod.NonNegative, Get(v, "netto")) && Zod.Accepts(Zod.NonNegative, Get(v, "moms_kr"))
  }

  /** The row schema reports nothing exactly when each of its six fields passes. */
  lemma RowIssuesNone(v: Value)
    ensures Zod.Issues(v, RowShape()) == [] <==> RowFieldsPass(v)
  {
    if Zod.Issues(v, RowShape()) == [] {
      RowAccepted(v);
    } else {
      RowRejected(v);
    }
  }

  lemma RowShapeFields()
    ensures var shape := RowShape();
      && |shape| == 6
      && shape[0] == ("shift_id", Zod.UuidText) && shape[1] == ("total_inkort", Zod.NonNegative)
      && shape[2] == ("moms_percentage", Zod.NonNegative) && shape[3] == ("brutto", Zod.NonNegative)
      && shape[4] == ("netto", Zod.NonNegative) && shape[5] == ("moms_kr", Zod.NonNegative)
  {
  }

  lemma RowAccepted(v: Value)
    requires Zod.Issues(v, RowShape()) == []
    ensures RowFieldsPass(v)
  {
    var shape := RowShape();
    RowShapeFields();
    Zod.FieldAccepted(v, shape, 0);
    Zod.FieldAccepted(v, shape, 1);
    Zod.FieldAccepted(v, shape, 2);
    Zod.FieldAccepted(v, shape, 3);
    Zod.FieldAccepted(v, shape, 4);
    Zod.FieldAccepted(v, shape, 5);
  }

  lemma RowRejected(v: Value)
    requires Zod.Issues(v, RowShape()) != []
    ensures !RowFieldsPass(v)
  {
    if RowFieldsPass(v) {
      RowPasses(v);
    }
  }

  lemma RowPasses(v: Value)
    requires RowFieldsPass(v)
    ensures Zod.Issues(v, RowShape()) == []
  {
    var shape := RowShape();
    RowShapeFields();
    forall i | 0 <= i < |shape| ensures Zod.Accepts(shape[i].1, Get(v, shape[i].0)) {
      if i == 0 {
      } else if i == 1 {
      } else if i == 2 {
      } else if i == 3 {
      } else if i == 4 {
      } else {
        assert i == 5;
      }
    }
  }

  lemma CoercedRow(detail: Value)
    requires !detail.Null? && !detail.Undefined? && Get(detail, "shift_id").Str?
    ensures var t := RowOf(Coerced(detail));
      && t.shift_id == Get(detail, "shift_id").s
      && t.total_inkort == NumberOrZero(Get(detail, "total_inkort"))
      && t.detail == Zod.MomsDetail(NumberOrZero(Get(detail, "moms_percentage")), NumberOrZero(Get(detail, "brutto")),
                                    NumberOrZero(Get(detail, "netto")), NumberOrZero(Get(detail, "moms_kr")))
  {
    CoercedFields(detail);
  }

  /** An amount that is not a number becomes 0 and passes. */
  lemma NaNBecomesZero(detail: Value, key: string)
    requires !detail.Null? && !detail.Undefined?
    requires key in {"total_inkort", "moms_percentage", "brutto", "netto", "moms_kr"}
    requires ToNumber(Get(detail, key)).NaN?
    ensures Get(Coerced(detail), key) == N(0.0)
  {
  }

  /** `data.map(...)`: the rows in order, or the first element's failure. */
  function MapDetails(items: seq<Value>): (r: Zod.Outcome<seq<TotalInkortDetail>>)
    ensures r.Valid? <==> forall i :: 0 <= i < |items| ==> ValidateDetail(items[i]).Valid?
    ensures r.Valid? ==> (|r.value| == |items| &&
      forall i :: 0 <= i < |items| ==> r.value[i] == ValidateDetail(items[i]).value)
  {
    Zod.MapAll(items, ValidateDetail)
  }

  /** `map` stops at the first element that fails, with that element's
      exception. */
  lemma FirstFailure(items: seq<Value>)
    requires !MapDetails(items).Valid?
    ensures exists i :: 0 <= i < |items| && Zod.FailedAt(MapDetails(items), items, ValidateDetail, i)
  {
    Zod.FirstFailure(items, ValidateDetail);
  }

  /** `validateTotalInkortDetails`: throws for a falsy or non-array input,
      otherwise maps every element through the coercing schema. */
  function ValidateTotalInkortDetails(data: Value): (r: Zod.Outcome<seq<TotalInkortDetail>>)
    ensures !data.Arr? ==> r == Zod.Thrown(FormatError)
    ensures data.Arr? ==> r == MapDetails(data.items)
    ensures r.Valid? ==> (data.Arr? && |r.value| == |data.items| &&
      forall i :: 0 <= i < |r.value| ==> RowValid(r.value[i]))
  {
    if !Truthy(data) || !data.Arr? then Zod.Thrown(FormatError) else MapDetails(data.items)
  }

  /** The JSON object that carries a row. */
  function RowValue(t: TotalInkortDetail): Value {
    Obj(Zod.Fields(Zod.DetailValue(t.detail))["shift_id" := Str(t.shift_id)]["total_inkort" := N(t.total_inkort)])
  }

  /** The fields of a row's object. */
  lemma RowValueFields(t: TotalInkortDetail)
    ensures var v := RowValue(t);
      && Get(v, "shift_id") == Str(t.shift_id)
      && Get(v, "total_inkort") == N(t.total_inkort)
      && Get(v, "moms_percentage") == N(t.detail.moms_percentage)
      && Get(v, "brutto") == N(t.detail.brutto)
      && Get(v, "netto") == N(t.detail.netto)
      && Get(v, "moms_kr") == N(t.detail.moms_kr)
  {
  }

  /** A valid row's object is accepted and gives the row back; an invalid one is rejected. */
  lemma RowRoundTrip(t: TotalInkortDetail)
    ensures RowValid(t) ==> ValidateDetail(RowValue(t)) == Zod.Valid(t)
    ensures ValidateDetail(RowValue(t)).Valid? <==> RowValid(t)
  {
    var v := RowValue(t);
    RowValueFields(t);
    CoercedFields(v);
    DetailValidIff(v);
  }

  /** Validating the objects of valid rows gives the rows back, one per object. */
  lemma RoundTrip(rows: seq<TotalInkortDetail>)
    requires forall i :: 0 <= i < |rows| ==> RowValid(rows[i])
    ensures ValidateTotalInkortDetails(Arr(seq(|rows|, i requires 0 <= i < |rows| => RowValue(rows[i])))) == Zod.Valid(rows)
  {
    var items := seq(|rows|, i requires 0 <= i < |rows| => RowValue(rows[i]));
    forall i | 0 <= i < |rows| ensures ValidateDetail(items[i]) == Zod.Valid(rows[i]) {
      RowRoundTrip(rows[i]);
    }
    assert MapDetails(items).value == rows;
  }

  // ---------------------------------------------------------------------------
  // transformTotalInkortData

  /** The rows of `details`, all tagged with `shiftId` and `total`; reading a
      field of a missing element throws. */
  function TransformRows(details: seq<Value>, shiftId: string, total: real): (r: Completion<seq<TotalInkortDetail>>)
    ensures r.Returns? <==> forall i :: 0 <= i < |details| ==> !details[i].Null? && !details[i].Undefined?
    ensures r.Returns? ==> (|r.value| == |details| &&
      forall i :: 0 <= i < |details| ==> r.value[i] == TransformedRow(details[i], shiftId, total))
  {
    if details == [] then Returns([])
    else
      assert forall i :: 1 <= i < |details| ==> details[1..][i - 1] == details[i];
      if details[0].Null? || details[0].Undefined? then Throws(ReadError(details[0], "moms_percentage"))
      else
        var rest := TransformRows(details[1..], shiftId, total);
        if rest.Throws? then rest else Returns([TransformedRow(details[0], shiftId, total)] + rest.value)
  }

  /** One element of the transform: every amount through `Number(x) || 0`. */
  function TransformedRow(detail: Value, shiftId: string, total: real): TotalInkortDetail {
    TotalInkortDetail(shiftId, total,
      Zod.MomsDetail(NumberOrZero(Get(detail, "moms_percentage")), NumberOrZero(Get(detail, "brutto")),
                     NumberOrZero(Get(detail, "netto")), NumberOrZero(Get(detail, "moms_kr"))))
  }

  /** `transformTotalInkortData` */
  function TransformTotalInkortData(raw: Value, shiftId: string): (r: Completion<seq<TotalInkortDetail>>)
    ensures !Truthy(LengthOf(Get(raw, "moms_details"))) ==> r == Returns([])
    ensures r.Returns? && r.value != [] ==>
      && Get(raw, "moms_details").Arr?
      && |r.value| == |Get(raw, "moms_details").items|
      && forall i :: 0 <= i < |r.value| ==>
           r.value[i].shift_id == shiftId && r.value[i].total_inkort == NumberOrZero(Get(raw, "total_inkort"))
  {
    var md := Get(raw, "moms_details");
    if !Truthy(LengthOf(md)) then Returns([])
    else if !md.Arr? then Throws(NotMappable)
    else TransformRows(md.items, shiftId, NumberOrZero(Get(raw, "total_inkort")))
  }

  /** A section without details, or with an empty list, gives no rows. */
  lemma NoDetailsNoRows(raw: Value, shiftId: string)
    requires Get(raw, "moms_details") == Undefined || Get(raw, "moms_details") == Arr([])
    ensures TransformTotalInkortData(raw, shiftId) == Returns([])
  {
  }

  /** Transformed rows for a UUID shift with non-negative amounts pass the
      validator unchanged. */
  lemma TransformedRowsValidate(raw: Value, shiftId: string)
    requires TransformTotalInkortData(raw, shiftId).Returns?
    requires forall t :: t in TransformTotalInkortData(raw, shiftId).value ==> RowValid(t)
    ensures var rows := TransformTotalInkortData(raw, shiftId).value;
      ValidateTotalInkortDetails(Arr(seq(|rows|, i requires 0 <= i < |rows| => RowValue(rows[i])))) == Zod.Valid(rows)
  {
    RoundTrip(TransformTotalInkortData(raw, shiftId).value);
  }
}
