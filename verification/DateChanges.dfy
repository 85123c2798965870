/**
 Date changes conserve money: what the initial charge was, plus every signed change since, is what
 the booking costs now, and refunds for price drops add up to the drops.
 */
module DateChanges {
  import opened Wrappers
  import opened Schema
  import opened Operations
  import Ledger
  import Money
  import Pricing
  import Stripe
  import Structure

  /** Sum of the signed changes announced for a booking since its approval. */
  function DeltaSince(outbox: seq<OutboxRow>, booking: nat): int {
    if outbox == [] then 0
    else
      var last, rest := outbox[|outbox| - 1], outbox[..|outbox| - 1];
      if last.BookingApproved? && last.booking == booking then 0
      else (if last.DatesModified? && last.booking == booking then last.delta else 0) + DeltaSince(rest, booking)
  }

  /** An orphan that a crash left behind was never sent and does not count. */
  ghost predicate Conserved(w: World) {
    forall c :: 0 <= c < |w.charges| && Structure.SentInitial(w.charges[c]) && w.charges[c].bookingId < |w.bookings| ==>
      w.charges[c].amount + DeltaSince(w.outbox, w.charges[c].bookingId) == w.bookings[w.charges[c].bookingId].Total()
  }

  predicate Touches(row: OutboxRow, booking: nat) {
    (row.BookingApproved? || row.DatesModified?) && row.booking == booking
  }

  lemma {:induction false} OtherRowsDoNotCount(outbox: seq<OutboxRow>, rows: seq<OutboxRow>, booking: nat)
    requires forall k :: 0 <= k < |rows| ==> !Touches(rows[k], booking)
    ensures DeltaSince(outbox + rows, booking) == DeltaSince(outbox, booking)
    decreases |rows|
  {
    if rows == [] {
      assert outbox + rows == outbox;
    } else {
      var shorter := rows[..|rows| - 1];
      OtherRowsDoNotCount(outbox, shorter, booking);
      assert (outbox + rows)[..|outbox + rows| - 1] == outbox + shorter;
    }
  }

  lemma LastRow(outbox: seq<OutboxRow>, row: OutboxRow, booking: nat)
    ensures DeltaSince(outbox + [row], booking) ==
            if row.BookingApproved? && row.booking == booking then 0
            else (if row.DatesModified? && row.booking == booking then row.delta else 0) + DeltaSince(outbox, booking)
  {
    assert (outbox + [row])[..|outbox|] == outbox;
  }

  /** Totals, initial charges and the rows that count are as before. */
  ghost predicate SameCosts(w: World, w': World) {
    && |w.bookings| <= |w'.bookings|
    && (forall b :: 0 <= b < |w.bookings| ==> w'.bookings[b].Total() == w.bookings[b].Total())
    && |w.charges| <= |w'.charges|
    && (forall c :: 0 <= c < |w.charges| ==>
          && w'.charges[c].kind == w.charges[c].kind
          && w'.charges[c].bookingId == w.charges[c].bookingId
          && w'.charges[c].amount == w.charges[c].amount
          && (Structure.SentInitial(w'.charges[c]) ==> Structure.SentInitial(w.charges[c])))
    && (forall c :: |w.charges| <= c < |w'.charges| ==> !Structure.SentInitial(w'.charges[c]))
    && w.outbox <= w'.outbox
    && (forall k :: |w.outbox| <= k < |w'.outbox| ==> !w'.outbox[k].BookingApproved? && !w'.outbox[k].DatesModified?)
  }

  lemma SameCostsConserve(w: World, w': World)
    requires Structure.ChargesPlaced(w.charges, w.bookings) && Conserved(w) && SameCosts(w, w')
    ensures Conserved(w')
  {
    var rows := w'.outbox[|w.outbox|..];
    assert w'.outbox == w.outbox + rows;
    forall c | 0 <= c < |w'.charges| && Structure.SentInitial(w'.charges[c]) && w'.charges[c].bookingId < |w'.bookings|
      ensures w'.charges[c].amount + DeltaSince(w'.outbox, w'.charges[c].bookingId) == w'.bookings[w'.charges[c].bookingId].Total() {
      OtherRowsDoNotCount(w.outbox, rows, w.charges[c].bookingId);
    }
  }

  lemma ApproveConserves(w: World, id: nat, reply: Stripe.SessionReply)
    requires Structure.Sound(w) && Conserved(w)
    ensures Conserved(Approve(w, id, reply).0)
  {
    var w' := Approve(w, id, reply).0;
    if w' != w {
      var c := |w.charges|;
      Structure.ChargeKeysFresh(w, id, c);
      forall d | 0 <= d < |w'.charges| && Structure.SentInitial(w'.charges[d])
        ensures w'.charges[d].amount + DeltaSince(w'.outbox, w'.charges[d].bookingId) == w'.bookings[w'.charges[d].bookingId].Total() {
        LastRow(w.outbox, BookingApproved(id, c), w'.charges[d].bookingId);
      }
    }
  }

  lemma SoundCharges(w: World)
    requires Structure.Sound(w)
    ensures Structure.ChargesPlaced(w.charges, w.bookings)
  {
  }

  lemma ModifyConserves(w: World, id: nat, checkIn: int, checkOut: int, timestamp: int)
    requires Structure.Sound(w) && Conserved(w)
    ensures Conserved(ModifyDates(w, id, checkIn, checkOut, timestamp).0)
  {
    var (w', r) := ModifyDates(w, id, checkIn, checkOut, timestamp);
    SoundCharges(w);
    hide ModifyDates, Structure.Sound;
    if r.Success? {
      ModifyShape(w, id, checkIn, checkOut, timestamp);
      hide DeltaSince;
      var row := w'.outbox[|w.outbox|];
      forall c | 0 <= c < |w'.charges| && Structure.SentInitial(w'.charges[c])
        ensures w'.charges[c].amount + DeltaSince(w'.outbox, w'.charges[c].bookingId) == w'.bookings[w'.charges[c].bookingId].Total() {
        LastRow(w.outbox, row, w.charges[c].bookingId);
      }
    } else {
      ModifyFails(w, id, checkIn, checkOut, timestamp);
      hide DeltaSince, Conserved;
      SameCostsConserve(w, w');
    }
  }

  /** What a successful date change does to costs: one row, one total. */
  lemma ModifyShape(w: World, id: nat, checkIn: int, checkOut: int, timestamp: int)
    requires ModifyDates(w, id, checkIn, checkOut, timestamp).1.Success?
    ensures var (w', r) := ModifyDates(w, id, checkIn, checkOut, timestamp);
            && id < |w.bookings| == |w'.bookings| && |w'.charges| == |w.charges|
            && (exists refund :: w'.outbox == w.outbox + [DatesModified(id, timestamp, r.value, refund)])
            && w'.bookings[id].Total() == w.bookings[id].Total() + r.value
            && (forall b :: 0 <= b < |w.bookings| && b != id ==> w'.bookings[b] == w.bookings[b])
            && (forall c :: 0 <= c < |w.charges| ==>
                  && w'.charges[c].kind == w.charges[c].kind
                  && w'.charges[c].status == w.charges[c].status
                  && w'.charges[c].bookingId == w.charges[c].bookingId
                  && w'.charges[c].amount == w.charges[c].amount)
  {
    var q := Pricing.GetQuote(w.property, w.jurisdictions, checkIn, checkOut).value;
    var delta := q.subtotal + q.totalTax - w.bookings[id].Total();
    var cents := DropRefundCents(w, id, delta);
    assert ModifyDates(w, id, checkIn, checkOut, timestamp).0.outbox
        == w.outbox + [DatesModified(id, timestamp, delta, if cents == 0 then None else Some(cents))];
  }

  lemma ModifyFails(w: World, id: nat, checkIn: int, checkOut: int, timestamp: int)
    requires ModifyDates(w, id, checkIn, checkOut, timestamp).1.Failure?
    ensures var w' := ModifyDates(w, id, checkIn, checkOut, timestamp).0;
            w' == w.(stripe := w'.stripe)
  {
  }

  lemma RefundSame(w: World, c: nat, dollars: real)
    ensures SameCosts(w, RefundCharge(w, c, dollars).0)
  {
  }

  lemma CancelSame(w: World, id: nat, now: int)
    ensures SameCosts(w, Cancel(w, id, now).0)
  {
    if CancelRead(w, id, now).Success? {
      var t := CancelRead(w, id, now).value;
      ClaimSame(w, t);
      CancelRefundSame(CancelClaim(w, t).0, t);
      var (paid, refund) := CancelRefund(CancelClaim(w, t).0, t);
      if refund.Success? {
        CancelCommitSame(paid, t, refund.value);
      }
    }
  }

  lemma ClaimSame(w: World, t: CancelTicket)
    ensures SameCosts(w, CancelClaim(w, t).0)
  {
  }

  lemma CancelRefundSame(w: World, t: CancelTicket)
    ensures CancelRefund(w, t).0 == w.(stripe := CancelRefund(w, t).0.stripe)
  {
  }

  lemma CancelCommitSame(w: World, t: CancelTicket, cents: int)
    requires cents > 0 && t.charge.Some? && t.charge.value < |w.charges| ==> !Structure.Orphan(w.charges[t.charge.value])
    ensures SameCosts(w, CancelCommit(w, t, cents).0)
  {
  }

  lemma HandleSame(w: World, event: nat, e: Stripe.Event)
    requires Structure.OrphansUnlinked(w.charges)
    ensures SameCosts(w, Handle(w, event, e).0)
  {
    match e
    case CheckoutCompleted(s, pi) => CheckoutSame(w, s, pi);
    case ChargeRefunded(pi, total, full) => HandleRefundSame(w, event, pi, total, full);
    case _ =>
  }

  lemma CheckoutSame(w: World, session: nat, pi: Option<nat>)
    requires Structure.OrphansUnlinked(w.charges)
    ensures SameCosts(w, HandleCheckoutSucceeded(w, session, pi).0)
  {
  }

  lemma HandleRefundSame(w: World, event: nat, pi: Option<nat>, total: Option<int>, full: bool)
    requires Structure.OrphansUnlinked(w.charges)
    ensures SameCosts(w, HandleChargeRefunded(w, event, pi, total, full).0)
  {
  }

  lemma ReceiveSame(w: World, event: nat)
    requires Structure.OrphansUnlinked(w.charges)
    ensures SameCosts(w, Receive(w, event).0) && SameCosts(w, DieInReceive(w, event))
  {
    if event < |w.stripe.events| && event !in w.webhookEvents {
      HandleSame(w.(webhookEvents := w.webhookEvents[event := false]), event, w.stripe.events[event]);
    }
  }

  predicate SendsCharge(op: Op) {
    op.DoAdHocCharge? || op.CrashInApprove? || op.CrashInAdHocCharge?
  }

  lemma OneChargeMore(w: World, w': World, charge: Charge)
    requires w'.bookings == w.bookings && w'.charges == w.charges + [charge] && !Structure.SentInitial(charge)
    requires w.outbox <= w'.outbox
    requires forall k :: |w.outbox| <= k < |w'.outbox| ==> w'.outbox[k].AdHocChargeSent?
    ensures SameCosts(w, w')
  {
  }

  lemma NewChargeSame(w: World, op: Op)
    requires SendsCharge(op)
    ensures SameCosts(w, Apply(w, op))
  {
    hide HasRealConflict, CanEnqueue, Money.ToColumn, SameCosts;
    var w' := Apply(w, op);
    if w'.charges == w.charges {
      NothingMore(w, w');
    } else {
      OneChargeMore(w, w', w'.charges[|w.charges|]);
    }
  }

  lemma NothingMore(w: World, w': World)
    requires w'.bookings == w.bookings && w'.charges == w.charges && w'.outbox == w.outbox
    ensures SameCosts(w, w')
  {
  }

  lemma RequestSame(w: World, op: Op)
    requires op.DoCreateInquiry? || op.DoConvert? || op.DoDecline?
    ensures SameCosts(w, Apply(w, op))
  {
    hide Pricing.GetQuote, CanEnqueue;
  }

  lemma OtherSame(w: World, op: Op)
    requires !op.DoApprove? && !op.DoModifyDates? && !op.DoRefund? && !op.DoCancel? && !op.Deliver?
    requires !op.CrashInCancel? && !op.CrashInDelivery?
    ensures SameCosts(w, Apply(w, op))
  {
    hide Apply;
    if ByEnvironment(op) { EnvironmentLeaves(w, op); }
    else if SendsCharge(op) { NewChargeSame(w, op); }
    else { RequestSame(w, op); }
  }

  lemma DieInCancelSame(w: World, id: nat, now: int)
    ensures SameCosts(w, DieInCancel(w, id, now))
  {
    if CancelRead(w, id, now).Success? {
      ClaimSame(w, CancelRead(w, id, now).value);
    }
  }

  lemma StepSameCosts(w: World, op: Op)
    requires Structure.OrphansUnlinked(w.charges) && !op.DoApprove? && !op.DoModifyDates?
    ensures SameCosts(w, Apply(w, op))
  {
    hide SameCosts, Structure.OrphansUnlinked;
    hide CreateInquiry, TransitionInquiry, ConvertInquiry, Approve, DieInApprove, Decline, Cancel, DieInCancel;
    hide ModifyDates, CreateAdHocCharge, DieInAdHocCharge, RefundCharge, Receive, DieInReceive;
    match op
    case DoRefund(c, dollars) => RefundSame(w, c, dollars);
    case DoCancel(id, now) => CancelSame(w, id, now);
    case Deliver(e) => ReceiveSame(w, e);
    case CrashInCancel(id, now) => DieInCancelSame(w, id, now);
    case CrashInDelivery(e) => ReceiveSame(w, e);
    case _ => OtherSame(w, op);
  }

  lemma StepConserves(w: World, op: Op)
    requires Structure.Sound(w) && Conserved(w)
    ensures Conserved(Apply(w, op))
  {
    SoundCharges(w);
    hide Conserved, SameCosts, Structure.Sound, Structure.OrphansUnlinked, Approve, ModifyDates;
    match op
    case DoApprove(id, reply) => ApproveConserves(w, id, reply);
    case DoModifyDates(id, i, o, ts) => ModifyConserves(w, id, i, o, ts);
    case _ =>
      hide Apply;
      StepSameCosts(w, op);
      SameCostsConserve(w, Apply(w, op));
  }

  lemma {:induction false} RunConserves(w: World, ops: seq<Op>)
    requires Ledger.Ledger(w) && Structure.Sound(w) && Structure.AllThroughApi(ops) && Conserved(w)
    ensures Conserved(Run(w, ops))
    decreases |ops|
  {
    if ops != [] {
      StepConserves(w, ops[0]);
      Ledger.StepKeepsLedger(w, ops[0]);
      Structure.StepKeepsSound(w, ops[0]);
      RunConserves(Apply(w, ops[0]), ops[1..]);
    }
  }

  lemma EmptyConserves(unique: bool)
    ensures Ledger.Ledger(Empty(unique)) && Structure.Sound(Empty(unique)) && Conserved(Empty(unique))
  {
    Structure.ReachableIsSound(unique, []);
  }

  /** In every reachable state: initial charge + announced changes since approval = current total, for
      every initial charge that was sent. */
  lemma InitialPlusDeltasIsTotal(unique: bool, ops: seq<Op>, c: nat)
    requires Structure.AllThroughApi(ops)
    requires c < |Run(Empty(unique), ops).charges| && Run(Empty(unique), ops).charges[c].kind == Initial
    requires Run(Empty(unique), ops).charges[c].status != Pending
    ensures var w := Run(Empty(unique), ops);
            var charge := w.charges[c];
            && charge.bookingId < |w.bookings|
            && charge.amount + DeltaSince(w.outbox, charge.bookingId) == w.bookings[charge.bookingId].Total()
  {
    EmptyConserves(unique);
    hide Run, Structure.Sound, DeltaSince, Ledger.Ledger;
    RunConserves(Empty(unique), ops);
    Structure.ReachableIsSound(unique, ops);
    SoundCharges(Run(Empty(unique), ops));
  }

  // ---- refunds for price drops ----

  datatype Request = Request(checkIn: int, checkOut: int, timestamp: int)

  function Modified(w: World, id: nat, r: Request): (World, Result<int>) {
    ModifyDates(w, id, r.checkIn, r.checkOut, r.timestamp)
  }

  /** The signed changes of a sequence of successful date changes, and the state they lead to. */
  function ModifyAll(w: World, id: nat, requests: seq<Request>): (World, Option<seq<int>>)
    decreases |requests|
  {
    if requests == [] then (w, Some([]))
    else
      var (w1, r) := Modified(w, id, requests[0]);
      if r.Failure? then (w1, None)
      else
        var (w2, rest) := ModifyAll(w1, id, requests[1..]);
        (w2, if rest.Some? then Some([r.value] + rest.value) else None)
  }

  function Sum(xs: seq<int>): int {
    if xs == [] then 0 else xs[0] + Sum(xs[1..])
  }

  function Drops(xs: seq<int>): int {
    if xs == [] then 0 else (if xs[0] < 0 then -xs[0] else 0) + Drops(xs[1..])
  }

  lemma OneChange(w: World, id: nat, r: Request)
    requires Ledger.Ledger(w) && Modified(w, id, r).1.Success?
    requires FindInitial(w.charges, id).Some?
    requires var c := w.charges[FindInitial(w.charges, id).value]; c.status == Succeeded && c.paymentIntentId.Some?
    ensures var (w', d) := Modified(w, id, r);
            var c := FindInitial(w.charges, id).value;
            var pi := w.charges[c].paymentIntentId.value;
            var drop := if d.value < 0 then -d.value else 0;
            && id < |w.bookings| == |w'.bookings|
            && w'.bookings[id].Total() == w.bookings[id].Total() + d.value
            && Ledger.Ledger(w') && FindInitial(w'.charges, id) == Some(c)
            && w'.charges[c] == w.charges[c].(refunded := w.charges[c].refunded + drop)
            && pi < |w.stripe.sessions| && pi < |w'.stripe.sessions|
            && w'.stripe.sessions[pi].refunded == w.stripe.sessions[pi].refunded + drop
  {
    Ledger.ModifyDatesKeeps(w, id, r.checkIn, r.checkOut, r.timestamp);
    var (w', d) := Modified(w, id, r);
    var c := FindInitial(w.charges, id).value;
    assert Ledger.ChargeLinked(c, w.charges[c], w.stripe.sessions);
    assert |w'.charges| == |w.charges|;
    Structure.SameInitial(w.charges, w'.charges, id);
  }

  /** Over any sequence of successful changes of a paid booking the total moves by the sum of the
      signed changes, and Stripe and the local column pay back exactly the sum of the drops. */
  lemma {:induction false} ChangesConserveMoney(w: World, id: nat, requests: seq<Request>)
    requires Ledger.Ledger(w) && id < |w.bookings| && ModifyAll(w, id, requests).1.Some?
    requires FindInitial(w.charges, id).Some?
    requires var c := w.charges[FindInitial(w.charges, id).value]; c.status == Succeeded && c.paymentIntentId.Some?
    ensures var (end, deltas) := ModifyAll(w, id, requests);
            var c := FindInitial(w.charges, id).value;
            var pi := w.charges[c].paymentIntentId.value;
            && |deltas.value| == |requests|
            && id < |end.bookings| && c < |end.charges|
            && end.bookings[id].Total() == w.bookings[id].Total() + Sum(deltas.value)
            && end.charges[c] == w.charges[c].(refunded := w.charges[c].refunded + Drops(deltas.value))
            && pi < |w.stripe.sessions| && pi < |end.stripe.sessions|
            && end.stripe.sessions[pi].refunded == w.stripe.sessions[pi].refunded + Drops(deltas.value)
    decreases |requests|
  {
    var c := FindInitial(w.charges, id).value;
    assert Ledger.ChargeLinked(c, w.charges[c], w.stripe.sessions);
    if requests != [] {
      OneChange(w, id, requests[0]);
      var (w1, r) := Modified(w, id, requests[0]);
      ChangesConserveMoney(w1, id, requests[1..]);
      var rest := ModifyAll(w1, id, requests[1..]).1.value;
      assert ([r.value] + rest)[1..] == rest;
    }
  }
}
