/** The shift input checks of src/services/shifts/validation.ts: the eight
    numeric fields are coerced with `Number(x) || 0` before the schema sees
    them; payment details are read leniently. */
module ShiftInputValidation {
  import opened Js
  import Zod
  import TripsValidation

  /** `ShiftInput` as the schema returns it. */
  datatype ShiftInput = ShiftInput(
    car_id: string, driver_id: string, start_time: string, end_time: string,
    taxi_km: real, paid_km: real, trips: real, report_nr: string,
    cash: real, to_report: real, total_credit: real, drikskredit: real, lonegr_ex_moms: real)

  /** The fields coerced before parsing, in the order they are written. */
  function CoercedKeys(): seq<string> {
    ["taxi_km", "paid_km", "trips", "cash", "to_report", "total_credit", "drikskredit", "lonegr_ex_moms"]
  }

  /** `shiftInputSchema`, in declaration order. */
  function Shape(): seq<(string, Zod.Kind)> {
    [("car_id", Zod.UuidText), ("driver_id", Zod.UuidText), ("start_time", Zod.Text), ("end_time", Zod.Text),
     ("taxi_km", Zod.NonNegative), ("paid_km", Zod.NonNegative), ("trips", Zod.TripCount),
     ("report_nr", Zod.NonEmptyText), ("cash", Zod.NonNegative), ("to_report", Zod.NonNegative),
     ("total_credit", Zod.NonNegative), ("drikskredit", Zod.NonNegative), ("lonegr_ex_moms", Zod.NonNegative)]
  }

  /** The record handed to the schema. */
  function Processed(data: Value): Value
    requires !data.Null? && !data.Undefined?
  {
    Obj(CoerceNumbers(data, Spread(data), CoercedKeys()))
  }

  function InputOf(rec: Value): ShiftInput {
    ShiftInput(
      Zod.TextOf(Get(rec, "car_id")), Zod.TextOf(Get(rec, "driver_id")),
      Zod.TextOf(Get(rec, "start_time")), Zod.TextOf(Get(rec, "end_time")),
      Zod.NumberOf(Get(rec, "taxi_km")), Zod.NumberOf(Get(rec, "paid_km")), Zod.NumberOf(Get(rec, "trips")),
      Zod.TextOf(Get(rec, "report_nr")), Zod.NumberOf(Get(rec, "cash")), Zod.NumberOf(Get(rec, "to_report")),
      Zod.NumberOf(Get(rec, "total_credit")), Zod.NumberOf(Get(rec, "drikskredit")),
      Zod.NumberOf(Get(rec, "lonegr_ex_moms")))
  }

  /** `validateShiftInput`: reading `data.taxi_km` of null or undefined throws
      before any check; otherwise the schema decides. */
  function ValidateShiftInput(data: Value): (r: Zod.Outcome<ShiftInput>)
    ensures r.Thrown? <==> data.Null? || data.Undefined?
  {
    if data.Null? || data.Undefined? then Zod.Thrown(ReadError(data, "taxi_km"))
    else
      var rec := Processed(data);
      var issues := Zod.Issues(rec, Shape());
      if issues != [] then Zod.Rejected(issues) else Zod.Valid(InputOf(rec))
  }

  // ---------------------------------------------------------------------------
  // Properties of validateShiftInput

  /** The schema sees `Number(x) || 0` for each coerced field: missing and
      NaN values are 0. */
  lemma CoercedToNumbers(data: Value, k: string)
    requires !data.Null? && !data.Undefined? && k in CoercedKeys()
    ensures Get(Processed(data), k) == N(NumberOrZero(Get(data, k)))
    ensures ToNumber(Get(data, k)).NaN? ==> Get(Processed(data), k) == N(0.0)
  {
    CoerceNumbersField(data, Spread(data), CoercedKeys(), k);
  }

  lemma TripsField()
    ensures Shape()[6] == ("trips", Zod.TripCount)
  {
  }

  /** A missing or unreadable trip count becomes 0, which `validateTrips`
      refuses, so the input is rejected on `trips`. */
  lemma ZeroTripsRejected(data: Value)
    requires !data.Null? && !data.Undefined?
    requires ToNumber(Get(data, "trips")).NaN? || ToNumber(Get(data, "trips")) == Finite(0.0)
    ensures ValidateShiftInput(data).Rejected? && "trips" in ValidateShiftInput(data).paths
  {
    var rec := Processed(data);
    CoercedToNumbers(data, "trips");
    assert Get(rec, "trips") == N(0.0);
    TripsValidation.ValidTripsRange(0.0);
    TripsField();
    Zod.FieldReported(rec, Shape(), 6);
  }

  /** A valid input holds non-negative amounts, a trip count in 1..35, a
      non-empty report number and two UUIDs. */
  lemma ValidInputBounds(data: Value)
    requires ValidateShiftInput(data).Valid?
    ensures var s := ValidateShiftInput(data).value;
      && s.taxi_km >= 0.0 && s.paid_km >= 0.0 && 0.0 < s.trips <= 35.0
      && s.cash >= 0.0 && s.to_report >= 0.0 && s.total_credit >= 0.0
      && s.drikskredit >= 0.0 && s.lonegr_ex_moms >= 0.0
      && s.report_nr != "" && Zod.IsUuid(s.car_id) && Zod.IsUuid(s.driver_id)
  {
    var rec := Processed(data);
    Zod.FieldAccepted(rec, Shape(), 0);
    Zod.FieldAccepted(rec, Shape(), 1);
    Zod.FieldAccepted(rec, Shape(), 4);
    Zod.FieldAccepted(rec, Shape(), 5);
    Zod.FieldAccepted(rec, Shape(), 6);
    Zod.FieldAccepted(rec, Shape(), 7);
    Zod.FieldAccepted(rec, Shape(), 8);
    Zod.FieldAccepted(rec, Shape(), 9);
    Zod.FieldAccepted(rec, Shape(), 10);
    Zod.FieldAccepted(rec, Shape(), 11);
    Zod.FieldAccepted(rec, Shape(), 12);
    TripsValidation.ValidTripsRange(Get(rec, "trips").num.val);
  }

  // ---------------------------------------------------------------------------
  // Payment details

  datatype PaymentRow = PaymentRow(moms_percentage: Number, brutto: Number, netto: Number, moms_kr: Number)
  datatype Payment = Payment(amount: Number, moms_details: seq<PaymentRow>)

  /** `detail => ({ moms_percentage: Number(detail.moms_percentage), … })` over
      the details; reading a field of a null or undefined detail throws. */
  function PaymentRows(details: seq<Value>): (r: Completion<seq<PaymentRow>>)
    ensures r.Returns? <==> forall i :: 0 <= i < |details| ==> !details[i].Null? && !details[i].Undefined?
    ensures r.Returns? ==> |r.value| == |details|
    ensures r.Returns? ==> forall i :: 0 <= i < |details| ==>
      r.value[i] == PaymentRow(ToNumber(Get(details[i], "moms_percentage")), ToNumber(Get(details[i], "brutto")),
                               ToNumber(Get(details[i], "netto")), ToNumber(Get(details[i], "moms_kr")))
  {
    if details == [] then Returns([])
    else
      var d := details[0];
      if d.Null? || d.Undefined? then Throws(ReadError(d, "moms_percentage"))
      else
        var row := PaymentRow(ToNumber(Get(d, "moms_percentage")), ToNumber(Get(d, "brutto")),
                              ToNumber(Get(d, "netto")), ToNumber(Get(d, "moms_kr")));
        var rest := PaymentRows(details[1..]);
        assert forall i :: 1 <= i < |details| ==> details[1..][i - 1] == details[i];
        if rest.Throws? then rest else Returns([row] + rest.value)
  }

  /** `validatePaymentDetails`: None for a falsy or non-object value, a falsy
      `amount` (0 included) or a `moms_details` that is not an array. */
  function ValidatePaymentDetails(data: Value): (r: Completion<Option<Payment>>)
    ensures !Truthy(data) || !IsObject(data) ==> r == Returns(None)
    ensures !Truthy(Get(data, "amount")) || !Get(data, "moms_details").Arr? ==> r == Returns(None)
    ensures r.Returns? && r.value.Some? ==>
      r.value.value.amount == ToNumber(Get(data, "amount")) &&
      |r.value.value.moms_details| == |Get(data, "moms_details").items| &&
      PaymentRows(Get(data, "moms_details").items) == Returns(r.value.value.moms_details)
    ensures r.Throws? <==>
      && Truthy(data) && IsObject(data) && Truthy(Get(data, "amount")) && Get(data, "moms_details").Arr?
      && exists i :: 0 <= i < |Get(data, "moms_details").items| &&
           (Get(data, "moms_details").items[i].Null? || Get(data, "moms_details").items[i].Undefined?)
  {
    if !Truthy(data) || !IsObject(data) then Returns(None)
    else
      var amount := Get(data, "amount");
      var details := Get(data, "moms_details");
      if !Truthy(amount) || !details.Arr? then Returns(None)
      else
        match PaymentRows(details.items)
        case Throws(m) => Throws(m)
        case Returns(rows) => Returns(Some(Payment(ToNumber(amount), rows)))
  }

  /** `hasPaymentDetails` */
  function HasPaymentDetails(data: Value): (r: bool)
    ensures r <==> data.Obj? && Get(data, "moms_details").Arr? && |Get(data, "moms_details").items| > 0
  {
    Truthy(data) && IsObject(data) && Truthy(Get(data, "moms_details")) &&
    Get(data, "moms_details").Arr? && |Get(data, "moms_details").items| > 0
  }

  /** `hasPaymentDetails` holds exactly for an object with a non-empty array
      of details. */
  lemma HasPaymentDetailsIff(data: Value)
    ensures HasPaymentDetails(data) <==> data.Obj? && Get(data, "moms_details").Arr? && |Get(data, "moms_details").items| > 0
  {
  }

  /** A payment with details and a truthy amount is returned with every detail,
      unless some detail is null or undefined. */
  lemma PaymentKept(data: Value)
    requires HasPaymentDetails(data) && Truthy(Get(data, "amount"))
    requires forall i :: 0 <= i < |Get(data, "moms_details").items| ==>
      !Get(data, "moms_details").items[i].Null? && !Get(data, "moms_details").items[i].Undefined?
    ensures ValidatePaymentDetails(data).Returns? && ValidatePaymentDetails(data).value.Some?
  {
  }
}
