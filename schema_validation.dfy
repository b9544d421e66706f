/** The coercing schemas of src/utils/validation.ts. `numberSchema` accepts a
    number, a numeric string (with a decimal comma allowed), null or
    undefined; the refinements add a bound; the object schemas apply them
    field by field. A schema's result is the value it yields, or None when it
    reports an issue. */
module SchemaValidation {
  import opened Js

  /** `numberSchema` */
  function NumberSchema(v: Value): (r: Option<real>)
    ensures v.Num? && v.num.Finite? ==> r == Some(v.num.val)
    ensures v.Null? || v.Undefined? ==> r == Some(0.0)
    ensures v.Num? && v.num.NaN? ==> r.None?
    ensures v.Bool? || v.Arr? || v.Obj? ==> r.None?
    ensures v.Str? ==> r.Some? == StringToNumber(ReplaceFirst(v.s, ",", ".")).Finite?
  {
    match v
    case Num(n) => if n.Finite? then Some(n.val) else None
    case Str(s) =>
      var n := StringToNumber(ReplaceFirst(s, ",", "."));
      if n.Finite? then Some(n.val) else None
    case Null => Some(0.0)
    case Undefined => Some(0.0)
    case _ => None
  }

  /** `nonNegativeNumber` */
  function NonNegativeSchema(v: Value): (r: Option<real>)
    ensures r.Some? <==> NumberSchema(v).Some? && NumberSchema(v).value >= 0.0
    ensures r.Some? ==> r == NumberSchema(v)
  {
    match NumberSchema(v)
    case Some(n) => if n >= 0.0 then Some(n) else None
    case None => None
  }

  /** `positiveNumber` */
  function PositiveSchema(v: Value): (r: Option<real>)
    ensures r.Some? <==> NumberSchema(v).Some? && NumberSchema(v).value > 0.0
    ensures r.Some? ==> r == NumberSchema(v)
  {
    match NumberSchema(v)
    case Some(n) => if n > 0.0 then Some(n) else None
    case None => None
  }

  datatype VatDetails = VatDetails(moms_percentage: real, brutto: real, netto: real, moms_kr: real)

  /** `vatDetailsSchema`: an object whose four fields pass `nonNegativeNumber`. */
  function VatDetailsSchema(v: Value): (r: Option<VatDetails>)
    ensures r.Some? <==> (v.Obj? &&
      NonNegativeSchema(Get(v, "moms_percentage")).Some? && NonNegativeSchema(Get(v, "brutto")).Some? &&
      NonNegativeSchema(Get(v, "netto")).Some? && NonNegativeSchema(Get(v, "moms_kr")).Some?)
    ensures r.Some? ==> (r.value.moms_percentage >= 0.0 && r.value.brutto >= 0.0 &&
      r.value.netto >= 0.0 && r.value.moms_kr >= 0.0)
  {
    if !v.Obj? then None
    else
      var p := NonNegativeSchema(Get(v, "moms_percentage"));
      var b := NonNegativeSchema(Get(v, "brutto"));
      var n := NonNegativeSchema(Get(v, "netto"));
      var m := NonNegativeSchema(Get(v, "moms_kr"));
      if p.Some? && b.Some? && n.Some? && m.Some? then Some(VatDetails(p.value, b.value, n.value, m.value))
      else None
  }

  /** `z.array(vatDetailsSchema)` on the elements of an array. */
  function VatDetailsList(items: seq<Value>): (r: Option<seq<VatDetails>>)
    ensures r.Some? <==> forall i :: 0 <= i < |items| ==> VatDetailsSchema(items[i]).Some?
    ensures r.Some? ==> (|r.value| == |items| &&
      forall i :: 0 <= i < |items| ==> Some(r.value[i]) == VatDetailsSchema(items[i]))
  {
    if items == [] then Some([])
    else
      var rest := VatDetailsList(items[1..]);
      assert forall i :: 1 <= i < |items| ==> items[1..][i - 1] == items[i];
      match VatDetailsSchema(items[0])
      case None => None
      case Some(d) => if rest.Some? then Some([d] + rest.value) else None
  }

  datatype PaymentDetails = PaymentDetails(kontant: real, kredit: real, moms_details: seq<VatDetails>)

  /** `paymentDetailsSchema`: `kontant` and `kredit` default to 0 and
      `moms_details` to []. */
  function PaymentDetailsSchema(v: Value): (r: Option<PaymentDetails>)
    ensures r.Some? ==> v.Obj? && r.value.kontant >= 0.0 && r.value.kredit >= 0.0
    ensures r.Some? ==>
      (Some(r.value.kontant) == NumberSchema(Get(v, "kontant")) &&
       Some(r.value.kredit) == NumberSchema(Get(v, "kredit")))
    ensures r.Some? && Get(v, "moms_details").Undefined? ==> r.value.moms_details == []
    ensures r.Some? && Get(v, "moms_details").Arr? ==>
      VatDetailsList(Get(v, "moms_details").items) == Some(r.value.moms_details)
  {
    if !v.Obj? then None
    else
      var k := NonNegativeSchema(Get(v, "kontant"));
      var c := NonNegativeSchema(Get(v, "kredit"));
      var md := Get(v, "moms_details");
      var details := if md.Undefined? then Some([]) else if md.Arr? then VatDetailsList(md.items) else None;
      if k.Some? && c.Some? && details.Some? then Some(PaymentDetails(k.value, c.value, details.value))
      else None
  }

  // ---------------------------------------------------------------------------
  // Properties

  /** A string with a decimal comma reads as the decimal number: "12,5" is 12.5. */
  lemma {:induction false} DecimalComma(d: string, f: string)
    requires d != [] && f != [] && AllDigits(d) && AllDigits(f)
    ensures var r := NumberSchema(Str(d + "," + f));
      r.Some? && r.value == DigitsValue(d) as real + FracValue(f)
  {
    CommaReplaced(d, f);
    DecimalNumber(d, f);
  }

  lemma CommaReplaced(d: string, f: string)
    requires AllDigits(d)
    ensures ReplaceFirst(d + "," + f, ",", ".") == d + "." + f
  {
    assert ',' !in d;
    assert d + "," + f == d + ("," + f);
    ReplaceFirstSkip(d, "," + f, ",", ".");
    ReplaceFirstHead(f, ",", ".");
    assert d + ("." + f) == d + "." + f;
  }

  /** `Number` reads digits, a dot and digits as the decimal number. */
  lemma DecimalNumber(d: string, f: string)
    requires d != [] && f != [] && AllDigits(d) && AllDigits(f)
    ensures StringToNumber(d + "." + f) == Finite(DigitsValue(d) as real + FracValue(f))
  {
    DecimalTextFacts(d, f);
    WholeDecimal(d + "." + f, DigitsValue(d) as real + FracValue(f));
  }

  lemma DecimalTextFacts(d: string, f: string)
    requires d != [] && f != [] && AllDigits(d) && AllDigits(f)
    ensures var t := d + "." + f;
      && Trim(t) == t && t != [] && IsDigit(t[0])
      && (|t| < 2 || t[1] == '.' || IsDigit(t[1]))
      && DecimalPrefix(t).Some? && DecimalPrefix(t).value.0 == DigitsValue(d) as real + FracValue(f)
      && DecimalPrefix(t).value.1 == |t|
  {
    var t := d + "." + f;
    DecimalTrimmed(d, f);
    DecimalPrefixFraction(d, f);
    assert t[0] == d[0];
    assert t[1] == '.' || IsDigit(t[1]) by {
      if |d| > 1 { assert t[1] == d[1]; } else { assert t[1] == '.'; }
    }
  }

  /** A trimmed string without a radix prefix or a sign that is one decimal
      literal throughout is that number. */
  lemma WholeDecimal(t: string, v: real)
    requires Trim(t) == t && t != [] && IsDigit(t[0])
    requires |t| < 2 || t[1] == '.' || IsDigit(t[1])
    requires DecimalPrefix(t).Some? && DecimalPrefix(t).value.0 == v && DecimalPrefix(t).value.1 == |t|
    ensures StringToNumber(t) == Finite(v)
  {
    if |t| >= 2 {
      NoRadixPrefix(t[1]);
    }
  }

  lemma NoRadixPrefix(c: char)
    requires c == '.' || IsDigit(c)
    ensures c !in "xXoObB"
  {
  }

  /** The empty string is the number 0 for `Number`, so it passes. */
  lemma EmptyStringIsZero()
    ensures NumberSchema(Str("")) == Some(0.0)
  {
    assert ReplaceFirst("", ",", ".") == "";
  }

  /** Feeding a passing value back through the schema gives the same number. */
  lemma NumberSchemaStable(v: Value)
    requires NumberSchema(v).Some?
    ensures NumberSchema(N(NumberSchema(v).value)) == NumberSchema(v)
  {
  }

  /** Every positive value is non-negative, and a non-negative value other
      than 0 is positive. */
  lemma PositiveIsNonNegative(v: Value)
    ensures PositiveSchema(v).Some? ==> NonNegativeSchema(v) == PositiveSchema(v)
    ensures NonNegativeSchema(v).Some? && NonNegativeSchema(v).value != 0.0 ==> PositiveSchema(v) == NonNegativeSchema(v)
    ensures NonNegativeSchema(v) == Some(0.0) ==> PositiveSchema(v).None?
  {
  }

  /** An empty object is a valid VAT detail of zeros: missing fields are undefined, which is 0. */
  lemma MissingDetailFieldsAreZero()
    ensures VatDetailsSchema(Obj(map[])) == Some(VatDetails(0.0, 0.0, 0.0, 0.0))
  {
  }

  /** An empty object is a payment of zeros without details. */
  lemma PaymentDefaults(v: Value)
    requires v.Obj? && "kontant" !in v.fields && "kredit" !in v.fields && "moms_details" !in v.fields
    ensures PaymentDetailsSchema(v) == Some(PaymentDetails(0.0, 0.0, []))
  {
  }

  /** A payment passes exactly when both amounts pass, its details are absent
      or an array of passing details. It then holds the parsed amounts, and
      either no details or the parsed details in their order. */
  lemma PaymentDetailsIff(v: Value)
    requires v.Obj?
    ensures var md := Get(v, "moms_details");
      PaymentDetailsSchema(v).Some? <==>
        NonNegativeSchema(Get(v, "kontant")).Some? && NonNegativeSchema(Get(v, "kredit")).Some? &&
        (md.Undefined? || (md.Arr? && forall i :: 0 <= i < |md.items| ==> VatDetailsSchema(md.items[i]).Some?))
    ensures var md := Get(v, "moms_details");
      PaymentDetailsSchema(v).Some? && md.Arr? ==>
        |PaymentDetailsSchema(v).value.moms_details| == |md.items|
    ensures PaymentDetailsSchema(v).Some? ==>
      Some(PaymentDetailsSchema(v).value.kontant) == NonNegativeSchema(Get(v, "kontant")) &&
      Some(PaymentDetailsSchema(v).value.kredit) == NonNegativeSchema(Get(v, "kredit"))
    ensures var md := Get(v, "moms_details");
      PaymentDetailsSchema(v).Some? && md.Undefined? ==> PaymentDetailsSchema(v).value.moms_details == []
    ensures var md := Get(v, "moms_details");
      PaymentDetailsSchema(v).Some? && md.Arr? ==>
        forall i :: 0 <= i < |md.items| ==>
          Some(PaymentDetailsSchema(v).value.moms_details[i]) == VatDetailsSchema(md.items[i])
  {
  }
}
