/** The payment endpoint: charge the processor, and only after it accepts,
    record the reservation. */
module Payments {
  import opened Options
  import opened JsValues
  import opened Fees
  import opened Charges
  import opened Reservations

  /** The processor's reply to the charge: a non-2xx answer (or no answer)
      is a rejection; an accepted charge carries its status and id. */
  datatype ProcessorReply = Rejected | Accepted(status: string, id: PaymentId)

  datatype PaymentResponse = Charged(status: string, id: PaymentId) | PaymentFailed
  {
    function Code(): int
    {
      if Charged? then 200 else 500
    }
  }

  /** The charge that was posted, the table afterwards, and the reply. */
  datatype PaymentOutcome = PaymentOutcome(charge: PaymentData, table: Table, response: PaymentResponse)

  /** The row recorded for an accepted charge. */
  function NewReservation(req: PaymentRequest, status: string, id: PaymentId, now: Timestamp): Reservation
  {
    Reservation(
      req.talentId, req.clienteId, req.transactionAmount, Commission(req.transactionAmount),
      status, id, req.fechaServicio, req.horaServicio, now, None)
  }

  function ProcessPayment(t: Table, req: PaymentRequest, reply: ProcessorReply, insertOk: bool, now: Timestamp): (o: PaymentOutcome)
    // the charge always goes out as `BuildPaymentData` builds it, with its
    // defaults, and with the commission withheld
    ensures o.charge == BuildPaymentData(req)
    ensures o.charge.transactionAmount == req.transactionAmount
    ensures o.charge.applicationFee == Commission(req.transactionAmount)
    ensures o.charge.token == req.token && o.charge.paymentMethodId == req.paymentMethodId
    ensures o.charge.installments == (if Truthy(req.installments) then req.installments else DefaultInstallments)
    ensures o.charge.payerEmail == (if Truthy(req.payerEmail) then req.payerEmail else PlaceholderEmail)
    // success exactly when the processor accepts and the insert succeeds
    ensures o.response.Charged? <==> reply.Accepted? && insertOk
    ensures o.response.Charged? ==> o.response == Charged(reply.status, reply.id)
    ensures o.response.Code() == (if reply.Accepted? && insertOk then 200 else 500)
    // a rejected charge or a failed insert leaves the table as it was
    ensures o.response == PaymentFailed ==> o.table == t
    // on success exactly one row is appended, recording the processor's answer
    ensures o.response.Charged? ==>
              && |o.table| == |t| + 1
              && o.table[..|t|] == t
              && o.table[|t|].montoTotal == req.transactionAmount
              && o.table[|t|].comisionPlataforma == o.charge.applicationFee
              && o.table[|t|].estadoPago == reply.status
              && o.table[|t|].mpPaymentId == reply.id
              && o.table[|t|].talentId == req.talentId
              && o.table[|t|].clienteId == req.clienteId
              && o.table[|t|].fechaServicio == req.fechaServicio
              && o.table[|t|].horaServicio == req.horaServicio
              && o.table[|t|].fechaCreacion == now
              && o.table[|t|].fechaAprobacion.None?
  {
    var charge := BuildPaymentData(req);
    match reply
    case Rejected => PaymentOutcome(charge, t, PaymentFailed)
    case Accepted(status, id) =>
      if insertOk then
        PaymentOutcome(charge, t + [NewReservation(req, status, id, now)], Charged(status, id))
      else
        PaymentOutcome(charge, t, PaymentFailed)
  }

  /** The new row's state is the processor's, not an assumed "pending":
      an instantly approved charge is recorded as approved, and, since the
      insert writes no approval time, it carries no approval stamp. */
  lemma StateComesFromProcessor(t: Table, req: PaymentRequest, id: PaymentId, now: Timestamp)
    ensures ProcessPayment(t, req, Accepted(Approved, id), true, now).table[|t|].estadoPago == Approved
    ensures ProcessPayment(t, req, Accepted("in_process", id), true, now).table[|t|].estadoPago == "in_process"
    ensures ProcessPayment(t, req, Accepted(Approved, id), true, now).table[|t|].fechaAprobacion.None?
  {
  }
}
