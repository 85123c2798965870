/**
 When committed stays are kept apart. The conflict check drops "its own" range by comparing dates,
 not ids, and a payment confirms a booking from any status; this module proves exactly which steps
 can put two committed bookings on one night.
 */
module DoubleBooking {
  import opened Wrappers
  import opened Schema
  import opened Operations
  import Ledger
  import Money
  import Scenarios
  import Stripe
  import Structure

  predicate Committed(status: BookingStatus) {
    status == Approved || status == Confirmed || status == Completed
  }

  /** The guest of `b` sleeps there on night `n`. */
  predicate Occupies(b: Booking, n: int) {
    b.checkIn <= n < b.checkOut
  }

  ghost predicate ShareNight(a: Booking, b: Booking) {
    exists n :: Occupies(a, n) && Occupies(b, n)
  }

  predicate Clash(a: Booking, b: Booking) {
    Overlaps(a.checkIn, a.checkOut, b.checkIn, b.checkOut)
  }

  /** Some night is shared exactly when the half-open test says so and neither range is empty. */
  lemma OverlapIsSharedNight(a: Booking, b: Booking)
    ensures ShareNight(a, b) <==> Clash(a, b) && a.checkIn < a.checkOut && b.checkIn < b.checkOut
  {
    if Clash(a, b) && a.checkIn < a.checkOut && b.checkIn < b.checkOut {
      var n := if a.checkIn <= b.checkIn then b.checkIn else a.checkIn;
      assert Occupies(a, n) && Occupies(b, n);
    }
  }

  /** An empty range passes the overlap test against a stay around it, yet shares no night. */
  lemma EmptyRangesDiffer(a: Booking, b: Booking)
    requires a.checkIn == a.checkOut && b.checkIn < a.checkIn < b.checkOut
    ensures Clash(a, b) && !ShareNight(a, b)
  {
  }

  /** No night is promised to two committed bookings. */
  ghost predicate NoDoubleBooking(bookings: seq<Booking>) {
    forall i, j :: 0 <= i < j < |bookings| && Committed(bookings[i].status) && Committed(bookings[j].status) ==>
      !ShareNight(bookings[i], bookings[j])
  }

  ghost predicate Apart(bookings: seq<Booking>) {
    forall i, j :: 0 <= i < |bookings| && 0 <= j < |bookings| && i != j && Committed(bookings[i].status) && Committed(bookings[j].status) ==>
      !Clash(bookings[i], bookings[j])
  }

  lemma ApartIsNoDoubleBooking(bookings: seq<Booking>)
    requires Structure.BookingsSound(bookings)
    ensures Apart(bookings) <==> NoDoubleBooking(bookings)
  {
    forall i, j | 0 <= i < |bookings| && 0 <= j < |bookings| ensures Clash(bookings[i], bookings[j]) <==> ShareNight(bookings[i], bookings[j]) {
      OverlapIsSharedNight(bookings[i], bookings[j]);
    }
    if NoDoubleBooking(bookings) {
      forall i, j | 0 <= i < |bookings| && 0 <= j < |bookings| && i != j && Committed(bookings[i].status) && Committed(bookings[j].status)
        ensures !Clash(bookings[i], bookings[j]) {
        if j < i {
          assert !ShareNight(bookings[j], bookings[i]);
        }
      }
    }
  }

  ghost predicate OtherCommittedClash(bookings: seq<Booking>, id: nat, stay: Booking) {
    exists j :: 0 <= j < |bookings| && j != id && Committed(bookings[j].status) && Clash(bookings[j], stay)
  }

  ghost predicate OtherCommittedTwin(bookings: seq<Booking>, id: nat, stay: Booking) {
    exists j :: 0 <= j < |bookings| && j != id && Committed(bookings[j].status)
                && bookings[j].checkIn == stay.checkIn && bookings[j].checkOut == stay.checkOut
  }

  /** Changing one row, given that all others are apart. */
  lemma OneRowChanges(a: seq<Booking>, id: nat, row: Booking)
    requires id < |a| && Apart(a)
    ensures Apart(a[id := row]) <==> (Committed(row.status) ==> !OtherCommittedClash(a, id, row))
  {
    var b := a[id := row];
    if Committed(row.status) && OtherCommittedClash(a, id, row) {
      var j :| 0 <= j < |a| && j != id && Committed(a[j].status) && Clash(a[j], row);
      assert Clash(b[j], b[id]);
    } else {
      forall i, j | 0 <= i < |b| && 0 <= j < |b| && i != j && Committed(b[i].status) && Committed(b[j].status)
        ensures !Clash(b[i], b[j]) {
        if i != id && j != id {
          assert !Clash(a[i], a[j]);
        }
      }
    }
  }

  // ---- the three steps that matter ----

  /** A successful approval is safe exactly when no other committed booking has the very same dates. */
  lemma ApproveSafeIff(w: World, id: nat, reply: Stripe.SessionReply)
    requires Structure.Sound(w) && Apart(w.bookings) && Approve(w, id, reply).1.Success?
    ensures Apart(Approve(w, id, reply).0.bookings) <==> !OtherCommittedTwin(w.bookings, id, w.bookings[id])
  {
    var b := w.bookings[id];
    var w' := Approve(w, id, reply).0;
    assert Structure.BookingSound(b);
    OneRowChanges(w.bookings, id, w'.bookings[id]);
    if OtherCommittedClash(w.bookings, id, w'.bookings[id]) {
      var j :| 0 <= j < |w.bookings| && j != id && Committed(w.bookings[j].status) && Clash(w.bookings[j], w'.bookings[id]);
      assert !HasRealConflict(w, b.checkIn, b.checkOut, b.checkIn, b.checkOut);
      assert w.bookings[j].checkIn == b.checkIn && w.bookings[j].checkOut == b.checkOut;
    }
    if OtherCommittedTwin(w.bookings, id, b) {
      var j :| 0 <= j < |w.bookings| && j != id && Committed(w.bookings[j].status)
              && w.bookings[j].checkIn == b.checkIn && w.bookings[j].checkOut == b.checkOut;
      assert Clash(w.bookings[j], w'.bookings[id]);
    }
  }

  /** A successful date change is always safe: a committed booking has no committed twin to be
      mistaken for, and a pending one occupies nothing yet. */
  lemma ModifySafe(w: World, id: nat, checkIn: int, checkOut: int, timestamp: int)
    requires Structure.Sound(w) && Apart(w.bookings) && ModifyDates(w, id, checkIn, checkOut, timestamp).1.Success?
    ensures Apart(ModifyDates(w, id, checkIn, checkOut, timestamp).0.bookings)
  {
    var b := w.bookings[id];
    var w' := ModifyDates(w, id, checkIn, checkOut, timestamp).0;
    MovedRow(w, id, checkIn, checkOut, timestamp);
    OneRowChanges(w.bookings, id, w'.bookings[id]);
    assert Structure.BookingSound(b);
    if Committed(b.status) {
      forall j | 0 <= j < |w.bookings| && j != id && Committed(w.bookings[j].status) ensures !Clash(w.bookings[j], w'.bookings[id]) {
        assert !Clash(w.bookings[j], b);
      }
    }
  }

  lemma MovedRow(w: World, id: nat, checkIn: int, checkOut: int, timestamp: int)
    requires ModifyDates(w, id, checkIn, checkOut, timestamp).1.Success?
    ensures var w' := ModifyDates(w, id, checkIn, checkOut, timestamp).0;
            && id < |w.bookings| == |w'.bookings| && checkIn < checkOut
            && w'.bookings == w.bookings[id := w'.bookings[id]]
            && w'.bookings[id].checkIn == checkIn && w'.bookings[id].checkOut == checkOut
            && w'.bookings[id].status == w.bookings[id].status
            && !HasRealConflict(w, checkIn, checkOut, w.bookings[id].checkIn, w.bookings[id].checkOut)
  {
  }

  /** A payment is safe exactly when no other committed booking clashes with the booking it confirms,
      which is so when that booking was committed already. */
  lemma PaymentSafeIff(w: World, session: nat, pi: Option<nat>)
    requires Structure.Sound(w) && Apart(w.bookings) && HandleCheckoutSucceeded(w, session, pi).0 != w
    ensures var b := w.charges[FindBySession(w.charges, session).value].bookingId;
            && b < |w.bookings|
            && (Apart(HandleCheckoutSucceeded(w, session, pi).0.bookings) <==> !OtherCommittedClash(w.bookings, b, w.bookings[b]))
            && (Committed(w.bookings[b].status) ==> !OtherCommittedClash(w.bookings, b, w.bookings[b]))
  {
    var b := w.charges[FindBySession(w.charges, session).value].bookingId;
    OneRowChanges(w.bookings, b, w.bookings[b].(status := Confirmed));
  }

  // ---- every step, and every run ----

  /** The hypothesis on one step, checkable before it is taken. */
  ghost predicate Careful(w: World, op: Op) {
    match op
    case DoApprove(id, reply) =>
      Approve(w, id, reply).1.Success? ==> !OtherCommittedTwin(w.bookings, id, w.bookings[id])
    case Deliver(e) => DeliveryCareful(w, e)
    case CrashInDelivery(e) => DeliveryCareful(w, e)
    case _ => true
  }

  ghost predicate DeliveryCareful(w: World, e: nat) {
    e < |w.stripe.events| && e !in w.webhookEvents && w.stripe.events[e].CheckoutCompleted? ==>
      PaymentCareful(w, w.stripe.events[e].session, w.stripe.events[e].paymentIntent)
  }

  ghost predicate PaymentCareful(w: World, session: nat, pi: Option<nat>) {
    HandleCheckoutSucceeded(w, session, pi).0 != w ==>
      var b := w.charges[FindBySession(w.charges, session).value].bookingId;
      b < |w.bookings| && !OtherCommittedClash(w.bookings, b, w.bookings[b])
  }

  /** Committed bookings neither appear nor move. */
  ghost predicate NoNewCommitment(a: seq<Booking>, b: seq<Booking>) {
    && |a| <= |b|
    && (forall i :: 0 <= i < |b| && Committed(b[i].status) ==>
          i < |a| && Committed(a[i].status) && a[i].checkIn == b[i].checkIn && a[i].checkOut == b[i].checkOut)
  }

  lemma NoNewCommitmentIsSafe(a: seq<Booking>, b: seq<Booking>)
    requires Apart(a) && NoNewCommitment(a, b)
    ensures Apart(b)
  {
    forall i, j | 0 <= i < |b| && 0 <= j < |b| && i != j && Committed(b[i].status) && Committed(b[j].status) ensures !Clash(b[i], b[j]) {
      assert !Clash(a[i], a[j]);
    }
  }

  lemma CancelCommitsNothing(w: World, id: nat, now: int)
    ensures NoNewCommitment(w.bookings, Cancel(w, id, now).0.bookings)
  {
    hide CancelRead, CancelRefund, CanEnqueue, Money.Covers;
    if CancelRead(w, id, now).Success? {
      var t := CancelRead(w, id, now).value;
      var (claimed, won) := CancelClaim(w, t);
      assert won ==> CancelRefund(claimed, t).0.bookings == claimed.bookings;
    }
  }

  lemma ServiceOtherStepsCommitNothing(w: World, op: Op)
    requires !op.DoApprove? && !op.DoModifyDates? && !op.Deliver? && !op.CrashInDelivery? && !op.DoCancel? && !op.DoRefund?
    requires !ByEnvironment(op)
    ensures NoNewCommitment(w.bookings, Apply(w, op).bookings)
  {
  }

  lemma OtherStepsCommitNothing(w: World, op: Op)
    requires !op.DoApprove? && !op.DoModifyDates? && !op.Deliver? && !op.CrashInDelivery? && !op.DoCancel? && !op.DoRefund?
    ensures NoNewCommitment(w.bookings, Apply(w, op).bookings)
  {
    hide Apply;
    if ByEnvironment(op) { EnvironmentLeaves(w, op); } else { ServiceOtherStepsCommitNothing(w, op); }
  }

  lemma DeliverySafeIff(w: World, event: nat)
    requires Structure.Sound(w) && Apart(w.bookings)
    ensures Receive(w, event).0.bookings == DieInReceive(w, event).bookings
    ensures Apart(Receive(w, event).0.bookings) <==> DeliveryCareful(w, event)
  {
    if event < |w.stripe.events| && event !in w.webhookEvents {
      var recorded := w.(webhookEvents := w.webhookEvents[event := false]);
      var e := w.stripe.events[event];
      assert Receive(w, event).0.bookings == Handle(recorded, event, e).0.bookings;
      if e.CheckoutCompleted? {
        Structure.UntouchedKeepsSound(w, recorded);
        SameCheckout(w, recorded, e.session, e.paymentIntent);
        if HandleCheckoutSucceeded(w, e.session, e.paymentIntent).0 != w {
          PaymentSafeIff(w, e.session, e.paymentIntent);
        }
      } else {
        HandlerLeavesBookings(recorded, event, e);
      }
    }
  }

  lemma SameCheckout(w: World, v: World, session: nat, pi: Option<nat>)
    requires v == w.(webhookEvents := v.webhookEvents)
    ensures HandleCheckoutSucceeded(v, session, pi).0 == HandleCheckoutSucceeded(w, session, pi).0.(webhookEvents := v.webhookEvents)
  {
  }

  lemma ModifyStepSafe(w: World, id: nat, checkIn: int, checkOut: int, timestamp: int)
    requires Structure.Sound(w) && Apart(w.bookings)
    ensures Apart(ModifyDates(w, id, checkIn, checkOut, timestamp).0.bookings)
  {
    if ModifyDates(w, id, checkIn, checkOut, timestamp).1.Success? {
      ModifySafe(w, id, checkIn, checkOut, timestamp);
    } else {
      FailedChangeMovesNothing(w, id, checkIn, checkOut, timestamp);
    }
  }

  lemma FailedChangeMovesNothing(w: World, id: nat, checkIn: int, checkOut: int, timestamp: int)
    requires ModifyDates(w, id, checkIn, checkOut, timestamp).1.Failure?
    ensures ModifyDates(w, id, checkIn, checkOut, timestamp).0.bookings == w.bookings
  {
  }

  lemma ApproveStepSafeIff(w: World, id: nat, reply: Stripe.SessionReply)
    requires Structure.Sound(w) && Apart(w.bookings)
    ensures Apart(Approve(w, id, reply).0.bookings) <==> Careful(w, DoApprove(id, reply))
  {
    if Approve(w, id, reply).1.Success? {
      ApproveSafeIff(w, id, reply);
    } else {
      assert Approve(w, id, reply).0.bookings == w.bookings;
    }
  }

  /** From a state without double bookings, a step makes one exactly when it is careless. */
  lemma StepSafeIff(w: World, op: Op)
    requires Structure.Sound(w) && Apart(w.bookings)
    ensures Apart(Apply(w, op).bookings) <==> Careful(w, op)
  {
    hide Structure.Sound, Apart, NoNewCommitment;
    hide CreateInquiry, TransitionInquiry, ConvertInquiry, Approve, DieInApprove, Decline, Cancel, DieInCancel;
    hide ModifyDates, CreateAdHocCharge, DieInAdHocCharge, RefundCharge, Receive, DieInReceive;
    match op
    case DoApprove(id, reply) => ApproveStepSafeIff(w, id, reply);
    case DoModifyDates(id, i, o, ts) => ModifyStepSafe(w, id, i, o, ts);
    case Deliver(e) => DeliverySafeIff(w, e);
    case CrashInDelivery(e) => DeliverySafeIff(w, e);
    case DoCancel(id, now) =>
      CancelCommitsNothing(w, id, now);
      NoNewCommitmentIsSafe(w.bookings, Apply(w, op).bookings);
    case DoRefund(c, dollars) => RefundLeavesBookings(w, c, dollars);
    case _ =>
      OtherStepsCommitNothing(w, op);
      NoNewCommitmentIsSafe(w.bookings, Apply(w, op).bookings);
  }

  /** No state on the way, nor the last one, has a double booking. */
  ghost predicate NeverDoubleBooked(w: World, ops: seq<Op>)
    decreases |ops|
  {
    NoDoubleBooking(w.bookings) && (ops != [] ==> NeverDoubleBooked(Apply(w, ops[0]), ops[1..]))
  }

  ghost predicate AllCareful(w: World, ops: seq<Op>)
    decreases |ops|
  {
    ops != [] ==> Careful(w, ops[0]) && AllCareful(Apply(w, ops[0]), ops[1..])
  }

  lemma {:induction false} RunNeverDoubleBookedIff(w: World, ops: seq<Op>)
    requires Ledger.Ledger(w) && Structure.Sound(w) && Structure.AllThroughApi(ops) && Apart(w.bookings)
    ensures NeverDoubleBooked(w, ops) <==> AllCareful(w, ops)
    decreases |ops|
  {
    ApartIsNoDoubleBooking(w.bookings);
    if ops != [] {
      var w' := Apply(w, ops[0]);
      StepSafeIff(w, ops[0]);
      Ledger.StepKeepsLedger(w, ops[0]);
      Structure.StepKeepsSound(w, ops[0]);
      ApartIsNoDoubleBooking(w'.bookings);
      if Apart(w'.bookings) {
        RunNeverDoubleBookedIff(w', ops[1..]);
      } else {
        assert !NeverDoubleBooked(w', ops[1..]);
      }
    }
  }

  /** A run from a fresh installation never double-books exactly when each of its steps is careful. */
  lemma NoDoubleBookingIff(unique: bool, ops: seq<Op>)
    requires Structure.AllThroughApi(ops)
    ensures NeverDoubleBooked(Empty(unique), ops) <==> AllCareful(Empty(unique), ops)
  {
    RunNeverDoubleBookedIff(Empty(unique), ops);
  }

  lemma {:induction false} EndIsOnTheWay(w: World, ops: seq<Op>)
    ensures NeverDoubleBooked(w, ops) ==> NoDoubleBooking(Run(w, ops).bookings)
    decreases |ops|
  {
    if ops != [] {
      EndIsOnTheWay(Apply(w, ops[0]), ops[1..]);
    }
  }

  /** A run that double-books: the check by dates lets the second of two equal requests through. */
  lemma TwinsAreBothApproved(unique: bool)
    ensures Structure.AllThroughApi(Scenarios.TwinsRun()) && !NeverDoubleBooked(Empty(unique), Scenarios.TwinsRun())
  {
    EndIsOnTheWay(Empty(unique), Scenarios.TwinsRun());
    Scenarios.AfterTwinsApproved(unique);
    hide Run;
    var bookings := Run(Empty(unique), Scenarios.TwinsRun()).bookings;
    assert Occupies(bookings[0], 0) && Occupies(bookings[1], 0);
    assert ShareNight(bookings[0], bookings[1]);
  }
}
