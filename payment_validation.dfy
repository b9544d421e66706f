/** src/services/validation/paymentValidation.ts: a payment section (an amount
    and its VAT details) checked strictly, with a failure turned into null. */
module PaymentValidation {
  import opened Js
  import Zod
  import ShiftInputValidation

  /** The scalar part of `paymentDetailSchema`. */
  function AmountShape(): seq<(string, Zod.Kind)> { [("amount", Zod.NonNegative)] }

  /** The parsed payment: the amount and the details with their four fields. */
  datatype PaymentDetail = PaymentDetail(amount: real, moms_details: seq<Zod.MomsDetail>)

  /** The input passes `paymentDetailSchema`. */
  predicate Conforms(data: Value) {
    Zod.Conforms(data, AmountShape()) && Get(data, "moms_details").Arr? &&
    forall i :: 0 <= i < |Get(data, "moms_details").items| ==>
      Zod.Conforms(Get(data, "moms_details").items[i], Zod.MomsDetailShape())
  }

  /** The failing paths of `paymentDetailSchema.parse(data)`. */
  function PaymentIssues(data: Value): (r: seq<string>)
    ensures r == [] <==> Conforms(data)
  {
    if !data.Obj? then [""]
    else Zod.Issues(data, AmountShape()) + Zod.ArrayIssues("moms_details", Get(data, "moms_details"), Zod.MomsDetailShape())
  }

  /** `validatePaymentDetails`: null for a falsy or non-object input and for a
      schema failure, the parsed payment otherwise. */
  function ValidatePaymentDetails(data: Value): (r: Option<PaymentDetail>)
    ensures r.Some? <==> Conforms(data)
    ensures r.Some? ==>
      && Get(data, "amount") == N(r.value.amount)
      && r.value.amount >= 0.0
      && |r.value.moms_details| == |Get(data, "moms_details").items|
      && forall i :: 0 <= i < |r.value.moms_details| ==>
           r.value.moms_details[i] == Zod.DetailOf(Get(data, "moms_details").items[i]) &&
           Zod.DetailNonNegative(r.value.moms_details[i])
  {
    if !Truthy(data) || !IsObject(data) then None
    else if PaymentIssues(data) != [] then None
    else
      var items := Get(data, "moms_details").items;
      assert Zod.Accepts(AmountShape()[0].1, Get(data, AmountShape()[0].0));
      assert forall i :: 0 <= i < |items| ==> Zod.Conforms(items[i], Zod.MomsDetailShape());
      Some(PaymentDetail(Zod.NumberOf(Get(data, "amount")),
                         seq(|items|, i requires 0 <= i < |items| => Zod.DetailOf(items[i]))))
  }

  /** The JSON object that carries a payment. */
  function PaymentValue(p: PaymentDetail): Value {
    Obj(map["amount" := N(p.amount),
            "moms_details" := Arr(seq(|p.moms_details|, i requires 0 <= i < |p.moms_details| => Zod.DetailValue(p.moms_details[i])))])
  }

  predicate NonNegative(p: PaymentDetail) {
    p.amount >= 0.0 && forall i :: 0 <= i < |p.moms_details| ==> Zod.DetailNonNegative(p.moms_details[i])
  }

  /** A payment with non-negative amounts survives validation unchanged; one
      with a negative amount anywhere is turned into null. */
  lemma RoundTrip(p: PaymentDetail)
    ensures ValidatePaymentDetails(PaymentValue(p)) == (if NonNegative(p) then Some(p) else None)
  {
    var v := PaymentValue(p);
    var items := Get(v, "moms_details").items;
    assert Get(v, "amount") == N(p.amount);
    forall i | 0 <= i < |items|
      ensures Zod.DetailOf(items[i]) == p.moms_details[i]
      ensures Zod.Conforms(items[i], Zod.MomsDetailShape()) <==> Zod.DetailNonNegative(p.moms_details[i])
    {
      Zod.DetailRoundTrip(p.moms_details[i]);
    }
    if NonNegative(p) {
      assert ValidatePaymentDetails(v).value.moms_details == p.moms_details;
    }
  }

  /** A negative amount is rejected with null rather than an exception. */
  lemma NegativeAmountIsNull(data: Value)
    requires Get(data, "amount").Num? && Get(data, "amount").num.Finite? && Get(data, "amount").num.val < 0.0
    ensures ValidatePaymentDetails(data) == None
  {
    assert !Zod.Accepts(AmountShape()[0].1, Get(data, AmountShape()[0].0));
  }

  /** `hasPaymentDetails` of this file has the same body as the one in
      src/services/shifts/validation.ts; on a payment that validates it says
      whether any VAT detail was parsed. */
  lemma HasPaymentDetailsOnValid(data: Value)
    requires ValidatePaymentDetails(data).Some?
    ensures ShiftInputValidation.HasPaymentDetails(data) <==> |ValidatePaymentDetails(data).value.moms_details| > 0
  {
  }
}
