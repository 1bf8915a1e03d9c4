/** The charge request the payment endpoint sends to the processor. */
module Charges {
  import opened Options
  import opened JsValues
  import opened Fees

  /** The body of a payment request. Identifiers and the service date and
      time are copied into the reservation; `None` is an absent key.
      `payerEmail` is `payer?.email`, so it is `Undefined` both when the
      payer is missing and when the payer has no email. */
  datatype PaymentRequest = PaymentRequest(
    transactionAmount: nat,
    token: JsValue,
    paymentMethodId: JsValue,
    installments: JsValue,
    payerEmail: JsValue,
    talentId: Option<string>,
    clienteId: Option<string>,
    fechaServicio: Option<string>,
    horaServicio: Option<string>)

  /** The payload posted to the processor. */
  datatype PaymentData = PaymentData(
    transactionAmount: nat,
    token: JsValue,
    description: string,
    paymentMethodId: JsValue,
    installments: JsValue,
    payerEmail: JsValue,
    applicationFee: nat)

  const DefaultInstallments: JsValue := Num(1.0)
  const PlaceholderEmail: JsValue := Str("test_user@test.com")
  const DescriptionPrefix: string := "Servicio en Talento Local - Talent ID: "

  /** How a template literal renders an optional identifier. */
  function Render(v: Option<string>): string
  {
    match v
    case Some(s) => s
    case None => "undefined"
  }

  function Description(talentId: Option<string>): string
  {
    DescriptionPrefix + Render(talentId)
  }

  /** The talent id can be read back from the description. */
  lemma DescriptionNamesTalent(talentId: Option<string>)
    ensures |DescriptionPrefix| <= |Description(talentId)|
    ensures Description(talentId)[..|DescriptionPrefix|] == DescriptionPrefix
    ensures Description(talentId)[|DescriptionPrefix|..] == Render(talentId)
  {
  }

  /** Builds the charge: the amount is passed through untouched, the
      commission is withheld as `application_fee`, and a falsy installment
      count or payer email is replaced by its default. */
  function BuildPaymentData(req: PaymentRequest): (p: PaymentData)
    ensures p.transactionAmount == req.transactionAmount
    ensures IsMathRound(5 * req.transactionAmount, 100, p.applicationFee)
    ensures p.applicationFee <= p.transactionAmount
    ensures Truthy(p.installments) && Truthy(p.payerEmail)
    ensures Truthy(req.installments) ==> p.installments == req.installments
    ensures !Truthy(req.installments) ==> p.installments == DefaultInstallments
    ensures Truthy(req.payerEmail) ==> p.payerEmail == req.payerEmail
    ensures !Truthy(req.payerEmail) ==> p.payerEmail == PlaceholderEmail
    ensures p.token == req.token && p.paymentMethodId == req.paymentMethodId
    ensures |DescriptionPrefix| <= |p.description|
    ensures p.description[..|DescriptionPrefix|] == DescriptionPrefix
    ensures p.description[|DescriptionPrefix|..] == Render(req.talentId)
  {
    PaymentData(
      req.transactionAmount,
      req.token,
      Description(req.talentId),
      req.paymentMethodId,
      Or(req.installments, DefaultInstallments),
      Or(req.payerEmail, PlaceholderEmail),
      Commission(req.transactionAmount))
  }

  /** A charge of 1000 withholds 50; with no installments and no payer it
      asks for one installment and bills the placeholder address. */
  lemma ChargeOfThousand(req: PaymentRequest)
    requires req.transactionAmount == 1000
    requires req.installments == Undefined && req.payerEmail == Undefined
    ensures BuildPaymentData(req).applicationFee == 50
    ensures BuildPaymentData(req).installments == Num(1.0)
    ensures BuildPaymentData(req).payerEmail == Str("test_user@test.com")
  {
  }
}
