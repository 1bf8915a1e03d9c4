/** The server as a whole: the three endpoints applied one request at a
    time to the two tables, and what holds after any sequence of requests. */
module Traces {
  import opened Options
  import opened JsValues
  import opened Fees
  import opened Charges
  import opened Reservations
  import opened Webhook
  import opened Payments
  import opened Reviews

  datatype State = State(reservations: Table, reviews: seq<Review>)

  /** One request, together with the outside answers it receives. */
  datatype Event =
    | Pay(req: PaymentRequest, reply: ProcessorReply, insertOk: bool, now: Timestamp)
    | Notify(body: WebhookBody, env: WebhookEnv)
    | Rate(review: ReviewBody, insertOk: bool, now: Timestamp)

  function Step(s: State, e: Event): State
  {
    match e
    case Pay(req, reply, insertOk, now) =>
      s.(reservations := ProcessPayment(s.reservations, req, reply, insertOk, now).table)
    case Notify(body, env) =>
      s.(reservations := HandleWebhook(s.reservations, body, env).table)
    case Rate(review, insertOk, now) =>
      s.(reviews := SubmitReview(s.reviews, review, insertOk, now).reviews)
  }

  function Run(s: State, es: seq<Event>): State
    decreases |es|
  {
    if es == [] then s else Run(Step(s, es[0]), es[1..])
  }

  /** What the server keeps true of its tables: every reservation's
      commission is the rounding of 5% of its amount, and every stored
      review passed the endpoint's guard. */
  ghost predicate Consistent(s: State)
  {
    && (forall i :: 0 <= i < |s.reservations| ==>
          s.reservations[i].comisionPlataforma == Commission(s.reservations[i].montoTotal))
    && (forall j :: 0 <= j < |s.reviews| ==> StoredReviewValid(s.reviews[j]))
  }

  /** `t'` is a later version of `t`: no row is removed or reordered, the
      booking columns never change, a state only ever changes to approved,
      an approved row stays approved and an approval stamp is never cleared. */
  ghost predicate Extends(t: Table, t': Table)
  {
    && |t| <= |t'|
    && forall i :: 0 <= i < |t| ==>
         && SameBooking(t[i], t'[i])
         && (t'[i].estadoPago == t[i].estadoPago || t'[i].estadoPago == Approved)
         && (t[i].estadoPago == Approved ==> t'[i].estadoPago == Approved)
         && (t[i].fechaAprobacion.Some? ==> t'[i].fechaAprobacion.Some?)
  }

  lemma ExtendsTransitive(t1: Table, t2: Table, t3: Table)
    requires Extends(t1, t2) && Extends(t2, t3)
    ensures Extends(t1, t3)
  {
  }

  lemma StepKeepsConsistent(s: State, e: Event)
    requires Consistent(s)
    ensures Consistent(Step(s, e))
  {
  }

  lemma StepExtends(s: State, e: Event)
    ensures Extends(s.reservations, Step(s, e).reservations)
    ensures s.reviews <= Step(s, e).reviews
  {
  }

  /** The consistency of both tables survives any sequence of requests,
      whatever the processor, the store and the mail transport answer. */
  lemma {:induction false} RunKeepsConsistent(s: State, es: seq<Event>)
    requires Consistent(s)
    ensures Consistent(Run(s, es))
    decreases |es|
  {
    if es != [] {
      StepKeepsConsistent(s, es[0]);
      RunKeepsConsistent(Step(s, es[0]), es[1..]);
    }
  }

  /** Both tables are append-only, and reservation states are monotone:
      once approved, a reservation stays approved. */
  lemma {:induction false} RunExtends(s: State, es: seq<Event>)
    ensures Extends(s.reservations, Run(s, es).reservations)
    ensures s.reviews <= Run(s, es).reviews
    decreases |es|
  {
    if es != [] {
      var s' := Step(s, es[0]);
      StepExtends(s, es[0]);
      RunExtends(s', es[1..]);
      ExtendsTransitive(s.reservations, s'.reservations, Run(s', es[1..]).reservations);
    }
  }

  /** The payment ids the processor handed out over a sequence of requests. */
  function AcceptedIds(es: seq<Event>): set<PaymentId>
    decreases |es|
  {
    if es == [] then {}
    else
      (if es[0].Pay? && es[0].reply.Accepted? then {es[0].reply.id} else {}) + AcceptedIds(es[1..])
  }

  /** The number of charges the processor accepted. */
  function AcceptedCount(es: seq<Event>): nat
    decreases |es|
  {
    if es == [] then 0
    else (if es[0].Pay? && es[0].reply.Accepted? then 1 else 0) + AcceptedCount(es[1..])
  }

  /** No reservation exists without a charge the processor accepted: at
      most one row per accepted charge is added, and every added row
      carries an id the processor returned. */
  lemma {:induction false} RowsComeFromAcceptedCharges(s: State, es: seq<Event>)
    ensures |Run(s, es).reservations| <= |s.reservations| + AcceptedCount(es)
    ensures forall i :: |s.reservations| <= i < |Run(s, es).reservations| ==>
              Run(s, es).reservations[i].mpPaymentId in AcceptedIds(es)
    decreases |es|
  {
    if es != [] {
      var s' := Step(s, es[0]);
      var t := s.reservations;
      var t' := s'.reservations;
      StepExtends(s, es[0]);
      RowsComeFromAcceptedCharges(s', es[1..]);
      RunExtends(s', es[1..]);
      var fin := Run(s', es[1..]).reservations;
      assert |t'| <= |t| + (if es[0].Pay? && es[0].reply.Accepted? then 1 else 0);
      forall i | |t| <= i < |fin|
        ensures fin[i].mpPaymentId in AcceptedIds(es)
      {
        if i >= |t'| {
          assert fin[i].mpPaymentId in AcceptedIds(es[1..]);
        } else {
          assert SameBooking(t'[i], fin[i]);
          assert t'[i].mpPaymentId == es[0].reply.id;
        }
      }
    }
  }

  /** A charge of 1000 answered "pending" by the processor, then an
      approval notification for its id: the row records a commission of 50
      and the processor's initial state, the approval rewrites the state
      and stamps it, and the confirmation goes out once. */
  lemma EscrowScenario()
    ensures var req := PaymentRequest(1000, Str("tok"), Str("visa"), Undefined, Undefined,
                                      Some("talent-1"), Some("client-1"), Some("2026-10-12"), Some("10:00"));
            var paid := ProcessPayment([], req, Accepted("pending", "42"), true, "T0");
            var hook := HandleWebhook(paid.table, WebhookBody(PaymentEvent, Some(WebhookData("42", None))),
                                      WebhookEnv(Fetched(Approved), true, true, true, "T1"));
            && paid.response == Charged("pending", "42")
            && |paid.table| == 1
            && paid.table[0].comisionPlataforma == 50
            && paid.table[0].estadoPago == "pending"
            && |hook.table| == 1
            && hook.table[0].estadoPago == Approved
            && hook.table[0].fechaAprobacion == Some("T1")
            && hook.response.Code() == 200
            && hook.dispatch.Attempted? && hook.dispatch.delivered
            && hook.dispatch.mail.fechaServicio == Some("2026-10-12")
  {
    var req := PaymentRequest(1000, Str("tok"), Str("visa"), Undefined, Undefined,
                              Some("talent-1"), Some("client-1"), Some("2026-10-12"), Some("10:00"));
    var paid := ProcessPayment([], req, Accepted("pending", "42"), true, "T0");
    CommissionExamples();
    var t' := ApproveAll(paid.table, "42", "T1");
    assert UniqueMatch(t', "42", 0);
  }
}
