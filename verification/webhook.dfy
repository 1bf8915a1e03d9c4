/** The processor's webhook: filter on the event type, re-fetch the
    payment's status from the processor, and on approval update every
    matching reservation and send the confirmation. */
module Webhook {
  import opened Options
  import opened JsValues
  import opened Reservations
  import opened Notifier

  const PaymentEvent: JsValue := Str("payment")

  /** The `data` object of a notification. `claimedStatus` is whatever
      status the body itself asserts; the handler never reads it. */
  datatype WebhookData = WebhookData(id: PaymentId, claimedStatus: Option<string>)

  /** A notification body. `data` is `None` when the key is absent or null. */
  datatype WebhookBody = WebhookBody(kind: JsValue, data: Option<WebhookData>)

  /** The processor's answer to the re-fetch of the payment. */
  datatype FetchResult = FetchFailed | Fetched(status: string)

  /** Everything the handler learns from outside: the re-fetch, whether the
      update and the lookup succeed, whether the mail goes out, and the clock. */
  datatype WebhookEnv = WebhookEnv(fetched: FetchResult, updateOk: bool, lookupOk: bool, sendOk: bool, now: Timestamp)

  datatype WebhookResponse = EventIgnored | Acknowledged | WebhookFailed
  {
    function Code(): int
    {
      if WebhookFailed? then 500 else 200
    }

    function Text(): string
    {
      match this
      case EventIgnored => "Evento no procesado"
      case Acknowledged => "OK"
      case WebhookFailed => "Error"
    }
  }

  datatype WebhookOutcome = WebhookOutcome(table: Table, response: WebhookResponse, dispatch: Dispatch)

  /** The notification is a payment event the handler goes on to process. */
  predicate IsPaymentEvent(body: WebhookBody)
  {
    body.kind == PaymentEvent && body.data.Some?
  }

  /** The processor confirms the payment and the store accepts the update. */
  predicate ApprovalApplies(body: WebhookBody, env: WebhookEnv)
  {
    IsPaymentEvent(body) && env.fetched == Fetched(Approved) && env.updateOk
  }

  function HandleWebhook(t: Table, body: WebhookBody, env: WebhookEnv): (o: WebhookOutcome)
    // anything but a payment event is acknowledged without touching the store
    ensures body.kind != PaymentEvent ==> o == WebhookOutcome(t, EventIgnored, NotAttempted)
    // the reply is 200 unless the re-fetch or the update failed (or data is missing)
    ensures o.response.Code() == 500 <==>
              body.kind == PaymentEvent &&
              (body.data.None? || env.fetched.FetchFailed? || (env.fetched == Fetched(Approved) && !env.updateOk))
    // the reply text on each of the three paths
    ensures o.response.Text() ==
              if body.kind != PaymentEvent then "Evento no procesado"
              else if o.response.Code() == 500 then "Error" else "OK"
    // a failure leaves the table as it was and sends nothing
    ensures o.response == WebhookFailed ==> o.table == t && o.dispatch == NotAttempted
    // a fetched status other than approved changes nothing
    ensures IsPaymentEvent(body) && env.fetched.Fetched? && env.fetched.status != Approved ==>
              o == WebhookOutcome(t, Acknowledged, NotAttempted)
    // approval rewrites exactly the rows carrying the notified id, then tries the mail
    ensures ApprovalApplies(body, env) ==>
              o.table == ApproveAll(t, body.data.value.id, env.now) && o.response == Acknowledged
              && o.dispatch == SendConfirmation(o.table, body.data.value.id, env.lookupOk, env.sendOk)
    // nothing else ever changes the table or sends mail
    ensures !ApprovalApplies(body, env) ==> o.table == t && o.dispatch == NotAttempted
  {
    if body.kind != PaymentEvent then
      WebhookOutcome(t, EventIgnored, NotAttempted)
    else if body.data.None? then
      // reading `data.id` throws inside the try block
      WebhookOutcome(t, WebhookFailed, NotAttempted)
    else
      var id := body.data.value.id;
      match env.fetched
      case FetchFailed => WebhookOutcome(t, WebhookFailed, NotAttempted)
      case Fetched(status) =>
        if status != Approved then
          WebhookOutcome(t, Acknowledged, NotAttempted)
        else if !env.updateOk then
          WebhookOutcome(t, WebhookFailed, NotAttempted)
        else
          var t' := ApproveAll(t, id, env.now);
          WebhookOutcome(t', Acknowledged, SendConfirmation(t', id, env.lookupOk, env.sendOk))
  }

  /** The status the body claims has no influence: only the re-fetched
      status decides. A forged "approved" body for a payment the processor
      still reports as pending transitions nothing. */
  lemma StatusInBodyIsIgnored(t: Table, kind: JsValue, id: PaymentId, claimed1: Option<string>, claimed2: Option<string>, env: WebhookEnv)
    ensures HandleWebhook(t, WebhookBody(kind, Some(WebhookData(id, claimed1))), env)
         == HandleWebhook(t, WebhookBody(kind, Some(WebhookData(id, claimed2))), env)
    ensures env.fetched == Fetched("pending") ==>
              HandleWebhook(t, WebhookBody(kind, Some(WebhookData(id, Some(Approved)))), env).table == t
  {
  }

  /** Neither a failed lookup nor a failed send alters the reply or the
      table: the notifier's outcome is not part of the webhook's result. */
  lemma MailOutcomeIsIsolated(t: Table, body: WebhookBody, env: WebhookEnv, lookupOk: bool, sendOk: bool)
    ensures HandleWebhook(t, body, env.(lookupOk := lookupOk, sendOk := sendOk)).response == HandleWebhook(t, body, env).response
    ensures HandleWebhook(t, body, env.(lookupOk := lookupOk, sendOk := sendOk)).table == HandleWebhook(t, body, env).table
    ensures ApprovalApplies(body, env) ==> HandleWebhook(t, body, env.(lookupOk := lookupOk, sendOk := sendOk)).response.Code() == 200
  {
  }

  /** Proof helper for `ReplayedApproval`: the approval clause of
      `HandleWebhook`'s contract, restated as one outcome value. */
  lemma ApprovalOutcome(t: Table, body: WebhookBody, env: WebhookEnv)
    requires ApprovalApplies(body, env)
    ensures var t' := ApproveAll(t, body.data.value.id, env.now);
            HandleWebhook(t, body, env) == WebhookOutcome(t', Acknowledged, SendConfirmation(t', body.data.value.id, env.lookupOk, env.sendOk))
  {
  }

  /** Delivering the same approved notification twice. The state column
      ends as after one delivery, but the approval timestamp is the second
      delivery's, and the confirmation is attempted again whenever the
      second lookup succeeds: the handler has no duplicate guard. */
  lemma ReplayedApproval(t: Table, body: WebhookBody, env1: WebhookEnv, env2: WebhookEnv)
    requires ApprovalApplies(body, env1) && ApprovalApplies(body, env2)
    ensures var o1 := HandleWebhook(t, body, env1);
            var o2 := HandleWebhook(o1.table, body, env2);
            && |o2.table| == |o1.table| == |t|
            && (forall i :: 0 <= i < |t| ==> o2.table[i].estadoPago == o1.table[i].estadoPago)
            && o2.table == ApproveAll(t, body.data.value.id, env2.now)
            && o2.response == Acknowledged
            && (o1.dispatch.Attempted? && env2.lookupOk ==> o2.dispatch.Attempted?)
  {
    var id := body.data.value.id;
    ApprovalOutcome(t, body, env1);
    ApprovalOutcome(ApproveAll(t, id, env1.now), body, env2);
    ReplayedUpdate(t, id, env1.now, env2.now, env1.lookupOk, env1.sendOk, env2.lookupOk, env2.sendOk);
  }

  /** The table-level half of a replay: the second update's effect and the
      second confirmation attempt. */
  lemma ReplayedUpdate(t: Table, id: PaymentId, at1: Timestamp, at2: Timestamp,
                       lookupOk1: bool, sendOk1: bool, lookupOk2: bool, sendOk2: bool)
    ensures ApproveAll(ApproveAll(t, id, at1), id, at2) == ApproveAll(t, id, at2)
    ensures forall i :: 0 <= i < |t| ==>
              ApproveAll(ApproveAll(t, id, at1), id, at2)[i].estadoPago == ApproveAll(t, id, at1)[i].estadoPago
    ensures SendConfirmation(ApproveAll(t, id, at1), id, lookupOk1, sendOk1).Attempted? && lookupOk2 ==>
              SendConfirmation(ApproveAll(ApproveAll(t, id, at1), id, at2), id, lookupOk2, sendOk2).Attempted?
  {
    var once := ApproveAll(t, id, at1);
    ApproveAllTwice(t, id, at1, at2);
    ApproveAllKeepsMatches(once, id, at2, id);
  }
}
