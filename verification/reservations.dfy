/** The `reservas` table: its rows, the approval update the webhook issues
    (`update ... eq('mp_payment_id', id)`), and the single-row lookup the
    notifier uses (`select ... eq('mp_payment_id', id).single()`). */
module Reservations {
  import opened Options

  /** The processor's payment identifier, as the table stores it. */
  type PaymentId = string

  /** An ISO timestamp, taken from the clock as an opaque input. */
  type Timestamp = string

  const Approved: string := "approved"

  datatype Reservation = Reservation(
    talentId: Option<string>,
    clienteId: Option<string>,
    montoTotal: nat,
    comisionPlataforma: nat,
    estadoPago: string,
    mpPaymentId: PaymentId,
    fechaServicio: Option<string>,
    horaServicio: Option<string>,
    fechaCreacion: Timestamp,
    fechaAprobacion: Option<Timestamp>)

  type Table = seq<Reservation>

  /** The columns the lookup selects. */
  datatype Summary = Summary(
    clienteId: Option<string>,
    talentId: Option<string>,
    fechaServicio: Option<string>,
    horaServicio: Option<string>)

  function SummaryOf(r: Reservation): Summary
  {
    Summary(r.clienteId, r.talentId, r.fechaServicio, r.horaServicio)
  }

  /** Two versions of a row agree on everything the approval update leaves
      alone: every column except `estado_pago` and `fecha_aprobacion`. */
  predicate SameBooking(a: Reservation, b: Reservation)
  {
    && a.talentId == b.talentId
    && a.clienteId == b.clienteId
    && a.montoTotal == b.montoTotal
    && a.comisionPlataforma == b.comisionPlataforma
    && a.mpPaymentId == b.mpPaymentId
    && a.fechaServicio == b.fechaServicio
    && a.horaServicio == b.horaServicio
    && a.fechaCreacion == b.fechaCreacion
  }

  function MarkApproved(r: Reservation, at: Timestamp): Reservation
  {
    r.(estadoPago := Approved, fechaAprobacion := Some(at))
  }

  /** The approval update. It is unconditional: every row carrying the
      payment id is set to approved and re-stamped, whatever its state was;
      no other row changes, and no row is added or removed. */
  function ApproveAll(t: Table, id: PaymentId, at: Timestamp): (t': Table)
    decreases |t|
    ensures |t'| == |t|
    ensures forall i :: 0 <= i < |t| ==> SameBooking(t[i], t'[i])
    ensures forall i :: 0 <= i < |t| && t[i].mpPaymentId == id ==>
              t'[i].estadoPago == Approved && t'[i].fechaAprobacion == Some(at)
    ensures forall i :: 0 <= i < |t| && t[i].mpPaymentId != id ==> t'[i] == t[i]
  {
    if t == [] then []
    else
      var last := t[|t| - 1];
      ApproveAll(t[..|t| - 1], id, at) + [if last.mpPaymentId == id then MarkApproved(last, at) else last]
  }

  /** A row's full content after the update follows from the two cases. */
  lemma ApproveAllRow(t: Table, id: PaymentId, at: Timestamp, i: int)
    requires 0 <= i < |t|
    ensures ApproveAll(t, id, at)[i] == if t[i].mpPaymentId == id then MarkApproved(t[i], at) else t[i]
  {
    var t' := ApproveAll(t, id, at);
    if t[i].mpPaymentId == id {
      assert SameBooking(t[i], t'[i]);
    }
  }

  /** Replaying the update leaves the table as one update with the later
      timestamp would: the state column is idempotent, the stamp is not. */
  lemma ApproveAllTwice(t: Table, id: PaymentId, at1: Timestamp, at2: Timestamp)
    ensures ApproveAll(ApproveAll(t, id, at1), id, at2) == ApproveAll(t, id, at2)
    ensures forall i :: 0 <= i < |t| ==>
              ApproveAll(ApproveAll(t, id, at1), id, at2)[i].estadoPago == ApproveAll(t, id, at1)[i].estadoPago
  {
    var once := ApproveAll(t, id, at1);
    var twice := ApproveAll(once, id, at2);
    var direct := ApproveAll(t, id, at2);
    forall i | 0 <= i < |t|
      ensures twice[i] == direct[i]
    {
      ApproveAllRow(t, id, at1, i);
      ApproveAllRow(once, id, at2, i);
      ApproveAllRow(t, id, at2, i);
    }
  }

  /** The positions of the rows carrying a payment id, in table order. */
  function MatchIndices(t: Table, id: PaymentId): (ix: seq<nat>)
    decreases |t|
    ensures forall k :: 0 <= k < |ix| ==> ix[k] < |t| && t[ix[k]].mpPaymentId == id
    ensures forall i :: 0 <= i < |t| && t[i].mpPaymentId == id ==> i in ix
    ensures forall k, l :: 0 <= k < l < |ix| ==> ix[k] < ix[l]
  {
    if t == [] then []
    else
      var prev := MatchIndices(t[..|t| - 1], id);
      if t[|t| - 1].mpPaymentId == id then prev + [|t| - 1] else prev
  }

  /** Row `i` is the one and only row carrying the payment id. */
  ghost predicate UniqueMatch(t: Table, id: PaymentId, i: int)
  {
    && 0 <= i < |t|
    && t[i].mpPaymentId == id
    && forall j :: 0 <= j < |t| && t[j].mpPaymentId == id ==> j == i
  }

  /** A strictly increasing sequence of n positions spans at least n - 1. */
  lemma {:induction false} IncreasingSpread(ix: seq<nat>)
    requires forall k, l :: 0 <= k < l < |ix| ==> ix[k] < ix[l]
    ensures |ix| > 0 ==> ix[|ix| - 1] - ix[0] >= |ix| - 1
    decreases |ix|
  {
    if |ix| > 1 {
      IncreasingSpread(ix[..|ix| - 1]);
      assert ix[|ix| - 2] < ix[|ix| - 1];
    }
  }

  /** A payment id carried by exactly one row has exactly one position. */
  lemma SingleMatchIndices(t: Table, id: PaymentId, i: int)
    requires UniqueMatch(t, id, i)
    ensures MatchIndices(t, id) == [i]
  {
    var ix := MatchIndices(t, id);
    assert i in ix;
    assert forall k :: 0 <= k < |ix| ==> ix[k] == i;
    IncreasingSpread(ix);
  }

  /** The lookup with `.single()`: it yields the selected columns when the
      store answers and exactly one row matches, and nothing otherwise (no
      row, several rows, or a store error). */
  function FindByPaymentId(t: Table, id: PaymentId, storeOk: bool): (r: Option<Summary>)
    ensures r.Some? <==> storeOk && exists i :: UniqueMatch(t, id, i)
    ensures forall i :: r.Some? && UniqueMatch(t, id, i) ==> r.value == SummaryOf(t[i])
  {
    var ix := MatchIndices(t, id);
    if storeOk && |ix| == 1 then
      assert UniqueMatch(t, id, ix[0]);
      Some(SummaryOf(t[ix[0]]))
    else
      assert forall i :: UniqueMatch(t, id, i) ==> ix == [i] by {
        forall i | UniqueMatch(t, id, i)
          ensures ix == [i]
        {
          SingleMatchIndices(t, id, i);
        }
      }
      None
  }

  /** The update does not change which rows carry a payment id, so the
      lookup after it finds a row exactly when it would have before. */
  lemma ApproveAllKeepsMatches(t: Table, id: PaymentId, at: Timestamp, other: PaymentId)
    ensures forall i :: UniqueMatch(ApproveAll(t, id, at), other, i) <==> UniqueMatch(t, other, i)
    ensures FindByPaymentId(ApproveAll(t, id, at), other, true).Some? <==> FindByPaymentId(t, other, true).Some?
  {
    var t' := ApproveAll(t, id, at);
    assert forall j :: 0 <= j < |t| ==> t'[j].mpPaymentId == t[j].mpPaymentId;
  }
}
