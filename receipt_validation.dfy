/** The kilometre rule (src/utils/receiptValidation.ts): the kilometres
    driven for hire may not be fewer than the kilometres paid for. */
module ReceiptValidation {
  import opened Js

  datatype KilometerValidation = KilometerValidation(isValid: bool, message: string)

  const KM_VALID_MESSAGE := "Kilometer data är giltig"

  /** `a < b` on numbers; NaN compares false. */
  predicate NumberLess(a: Number, b: Number) { a.Finite? && b.Finite? && a.val < b.val }

  /** The refusal message, with both readings printed as `String` prints them. */
  function KmMessage(taxiKm: Number, paidKm: Number): string {
    "Ogiltig data: Taxitrafik KM (" + NumberToString(taxiKm) + ") måste vara större än Betalda KM ("
      + NumberToString(paidKm) + ")"
  }

  /** `validateKilometers`: invalid exactly when `taxiKm < paidKm`. */
  function ValidateKilometers(taxiKm: Number, paidKm: Number): (r: KilometerValidation)
    ensures r.isValid <==> !NumberLess(taxiKm, paidKm)
    ensures r.isValid ==> r.message == KM_VALID_MESSAGE
    ensures !r.isValid ==> r.message == KmMessage(taxiKm, paidKm)
  {
    if NumberLess(taxiKm, paidKm) then KilometerValidation(false, KmMessage(taxiKm, paidKm))
    else KilometerValidation(true, KM_VALID_MESSAGE)
  }

  /** Equal readings are valid, fewer hire kilometres than paid ones are not,
      and a NaN reading is never refused. */
  lemma KilometerCases(x: real, y: real)
    ensures ValidateKilometers(Finite(x), Finite(x)).isValid
    ensures ValidateKilometers(Finite(x), Finite(y)).isValid <==> x >= y
    ensures ValidateKilometers(NaN, Finite(y)).isValid && ValidateKilometers(Finite(x), NaN).isValid
  {
  }

  /** 50 hire kilometres against 80 paid ones: both readings appear. */
  lemma KilometerMessageExample()
    ensures ValidateKilometers(Finite(50.0), Finite(80.0)) ==
      KilometerValidation(false, "Ogiltig data: Taxitrafik KM (" + "50" + ") måste vara större än Betalda KM (" + "80" + ")")
  {
    assert DigitChar(5) == '5' && DigitChar(8) == '8';
    TwoDigits(5, '5');
    TwoDigits(8, '8');
    assert (10 * 5) as real == 50.0 && (10 * 8) as real == 80.0;
    assert NumberToString(Finite(50.0)) == "50";
    assert NumberToString(Finite(80.0)) == "80";
  }

  lemma TwoDigits(d: nat, c: char)
    requires 1 <= d <= 9 && c == DigitChar(d)
    ensures NumberToString(Finite((10 * d) as real)) == [c, '0']
  {
    assert NatToDecimal(d) == [c];
    assert NatToDecimal(10 * d) == [c, '0'];
    assert ((10 * d) as real).Floor == 10 * d;
  }
}
