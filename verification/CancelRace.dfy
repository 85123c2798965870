/**
 Any number of cancel calls on one booking, interleaved step by step with each other and with
 everything else the platform does.
 */
module CancelRace {
  import opened Wrappers
  import opened Schema
  import opened Operations
  import CancellationPolicy
  import Money
  import Pricing
  import Stripe

  /** Where one cancel call stands between its awaits. */
  datatype Call =
    | Fresh(now: int)
    | Loaded(t: CancelTicket)
    | Claimed(t: CancelTicket)
    | PaidOut(t: CancelTicket, cents: int)
    | Done
    | Rejected

  /** The world, the calls, and the history that the claims are about. */
  datatype Race = Race(world: World, calls: seq<Call>, wins: nat, entries: nat, refunds: seq<int>)

  datatype Move = Advance(call: nat) | Platform(op: Op)

  predicate ActiveIn(w: World, id: nat) {
    id < |w.bookings| && Active(w.bookings[id].status)
  }

  function AdvanceCall(r: Race, id: nat, k: nat): Race
    requires k < |r.calls|
  {
    match r.calls[k]
    case Fresh(now) =>
      var read := CancelRead(r.world, id, now);
      r.(calls := r.calls[k := if read.Success? then Loaded(read.value) else Rejected])
    case Loaded(t) =>
      var (w, won) := CancelClaim(r.world, t);
      r.(world := w, calls := r.calls[k := if won then Claimed(t) else Rejected], wins := r.wins + Bit(won))
    case Claimed(t) =>
      var (w, refund) := CancelRefund(r.world, t);
      r.(world := w,
         calls := r.calls[k := if refund.Success? then PaidOut(t, refund.value) else Rejected],
         refunds := if refund.Success? && refund.value > 0 then r.refunds + [refund.value] else r.refunds)
    case PaidOut(t, cents) =>
      r.(world := CancelCommit(r.world, t, cents).0, calls := r.calls[k := Done])
    case _ => r
  }

  /** `entries` counts the times the booking became approved or confirmed from another status. */
  function Step(r: Race, id: nat, m: Move): Race {
    match m
    case Advance(k) => if k < |r.calls| then AdvanceCall(r, id, k) else r
    case Platform(op) =>
      var w := Apply(r.world, op);
      r.(world := w, entries := r.entries + Bit(!ActiveIn(r.world, id) && ActiveIn(w, id)))
  }

  function RunRace(r: Race, id: nat, moves: seq<Move>): Race
    decreases |moves|
  {
    if moves == [] then r else RunRace(Step(r, id, moves[0]), id, moves[1..])
  }

  /** Every ticket is for this booking. */
  ghost predicate OnOneBooking(r: Race, id: nat) {
    forall k :: 0 <= k < |r.calls| ==>
      match r.calls[k]
      case Loaded(t) => t.booking == id
      case Claimed(t) => t.booking == id
      case PaidOut(t, _) => t.booking == id
      case _ => true
  }

  // ---- claims ----

  lemma AdvanceBalance(r: Race, id: nat, k: nat)
    requires OnOneBooking(r, id) && k < |r.calls|
    ensures var r' := AdvanceCall(r, id, k);
            && OnOneBooking(r', id) && r'.entries == r.entries
            && r'.wins + Bit(ActiveIn(r'.world, id)) == r.wins + Bit(ActiveIn(r.world, id))
  {
    match r.calls[k]
    case Loaded(t) =>
    case Claimed(t) => assert CancelRefund(r.world, t).0.bookings == r.world.bookings;
    case PaidOut(t, cents) =>
    case _ =>
  }

  /** Successful claims never outnumber the times the booking entered approved or confirmed. */
  lemma {:induction false} WinsBounded(r: Race, id: nat, moves: seq<Move>)
    requires OnOneBooking(r, id)
    ensures var end := RunRace(r, id, moves);
            && OnOneBooking(end, id)
            && end.wins + Bit(ActiveIn(end.world, id)) + r.entries <= r.wins + Bit(ActiveIn(r.world, id)) + end.entries
    decreases |moves|
  {
    if moves != [] {
      if moves[0].Advance? && moves[0].call < |r.calls| {
        AdvanceBalance(r, id, moves[0].call);
      }
      WinsBounded(Step(r, id, moves[0]), id, moves[1..]);
    }
  }

  // ---- refunds ----

  function Holding(calls: seq<Call>): nat {
    if calls == [] then 0 else Bit(calls[0].Claimed?) + Holding(calls[1..])
  }

  lemma {:induction false} HoldingAfter(calls: seq<Call>, k: nat, c: Call)
    requires k < |calls|
    ensures Holding(calls[k := c]) == Holding(calls) - Bit(calls[k].Claimed?) + Bit(c.Claimed?)
    ensures Bit(calls[k].Claimed?) <= Holding(calls)
    decreases |calls|
  {
    if k > 0 {
      HoldingAfter(calls[1..], k - 1, c);
      assert calls[k := c][1..] == calls[1..][k - 1 := c];
    } else {
      assert calls[k := c][1..] == calls[1..];
    }
  }

  /** Each refund was paid for by a claim of its own. */
  lemma {:induction false} RefundsBounded(r: Race, id: nat, moves: seq<Move>)
    requires |r.refunds| + Holding(r.calls) <= r.wins
    ensures var end := RunRace(r, id, moves);
            |end.refunds| + Holding(end.calls) <= end.wins
    decreases |moves|
  {
    if moves != [] {
      var next := Step(r, id, moves[0]);
      if moves[0].Advance? && moves[0].call < |r.calls| {
        HoldingAfter(r.calls, moves[0].call, next.calls[moves[0].call]);
      }
      RefundsBounded(next, id, moves[1..]);
    }
  }

  // ---- which platform steps make a booking active ----

  ghost predicate NoEntry(a: seq<Booking>, b: seq<Booking>) {
    forall i :: 0 <= i < |b| && Active(b[i].status) ==> i < |a| && Active(a[i].status)
  }

  /** An approval of the booking or a completed checkout. */
  predicate MayEnter(w: World, op: Op, id: nat) {
    || (op.DoApprove? && op.booking == id)
    || ((op.Deliver? || op.CrashInDelivery?) && op.event < |w.stripe.events| && w.stripe.events[op.event].CheckoutCompleted?)
  }

  lemma CancelNoEntry(w: World, id: nat, now: int)
    ensures NoEntry(w.bookings, Cancel(w, id, now).0.bookings)
  {
    hide CancelRead, CancelRefund, CanEnqueue, Money.Covers;
    if CancelRead(w, id, now).Success? {
      var t := CancelRead(w, id, now).value;
      var (claimed, won) := CancelClaim(w, t);
      assert won ==> CancelRefund(claimed, t).0.bookings == claimed.bookings;
    }
  }

  lemma ModifyNoEntry(w: World, id: nat, checkIn: int, checkOut: int, timestamp: int)
    ensures NoEntry(w.bookings, ModifyDates(w, id, checkIn, checkOut, timestamp).0.bookings)
  {
  }

  lemma DeliveryNoEntry(w: World, e: nat)
    requires e < |w.stripe.events| ==> !w.stripe.events[e].CheckoutCompleted?
    ensures Receive(w, e).0.bookings == w.bookings && DieInReceive(w, e).bookings == w.bookings
  {
    if e < |w.stripe.events| && e !in w.webhookEvents {
      HandlerLeavesBookings(w.(webhookEvents := w.webhookEvents[e := false]), e, w.stripe.events[e]);
    }
  }

  lemma EnvironmentOtherNoEntry(w: World, op: Op, id: nat)
    requires !op.DoModifyDates? && !op.Deliver? && !op.CrashInDelivery? && !op.DoCancel? && !op.DoRefund? && !MayEnter(w, op, id)
    requires ByEnvironment(op)
    ensures !ActiveIn(w, id) ==> !ActiveIn(Apply(w, op), id)
  {
    EnvironmentLeaves(w, op);
    hide Apply;
  }

  lemma ServiceOtherNoEntry(w: World, op: Op, id: nat)
    requires !op.DoModifyDates? && !op.Deliver? && !op.CrashInDelivery? && !op.DoCancel? && !op.DoRefund? && !MayEnter(w, op, id)
    requires !ByEnvironment(op)
    ensures !ActiveIn(w, id) ==> !ActiveIn(Apply(w, op), id)
  {
  }

  lemma OtherNoEntry(w: World, op: Op, id: nat)
    requires !op.DoModifyDates? && !op.Deliver? && !op.CrashInDelivery? && !op.DoCancel? && !op.DoRefund? && !MayEnter(w, op, id)
    ensures !ActiveIn(w, id) ==> !ActiveIn(Apply(w, op), id)
  {
    hide Apply;
    if ByEnvironment(op) { EnvironmentOtherNoEntry(w, op, id); } else { ServiceOtherNoEntry(w, op, id); }
  }

  lemma EntryNeedsApprovalOrPayment(w: World, op: Op, id: nat)
    requires !ActiveIn(w, id) && ActiveIn(Apply(w, op), id)
    ensures MayEnter(w, op, id)
  {
    match op
    case DoCancel(b, now) => CancelNoEntry(w, b, now);
    case DoModifyDates(b, i, o, ts) => ModifyNoEntry(w, b, i, o, ts);
    case DoRefund(c, dollars) => RefundLeavesBookings(w, c, dollars);
    case Deliver(e) => if !MayEnter(w, op, id) { DeliveryNoEntry(w, e); }
    case CrashInDelivery(e) => if !MayEnter(w, op, id) { DeliveryNoEntry(w, e); }
    case _ => if !MayEnter(w, op, id) { OtherNoEntry(w, op, id); }
  }

  /** No approval of the booking and no completed checkout on the way. */
  ghost predicate NothingEnters(r: Race, id: nat, moves: seq<Move>)
    decreases |moves|
  {
    moves != [] ==>
      && (moves[0].Platform? ==> !MayEnter(r.world, moves[0].op, id))
      && NothingEnters(Step(r, id, moves[0]), id, moves[1..])
  }

  lemma {:induction false} NoEntriesCounted(r: Race, id: nat, moves: seq<Move>)
    requires NothingEnters(r, id, moves)
    ensures RunRace(r, id, moves).entries == r.entries
    decreases |moves|
  {
    if moves != [] {
      var next := Step(r, id, moves[0]);
      if moves[0].Platform? && !ActiveIn(r.world, id) && ActiveIn(next.world, id) {
        EntryNeedsApprovalOrPayment(r.world, moves[0].op, id);
      }
      NoEntriesCounted(next, id, moves[1..]);
    }
  }

  function StartRace(w: World, nows: seq<int>): Race {
    Race(w, seq(|nows|, i requires 0 <= i < |nows| => Fresh(nows[i])), 0, 0, [])
  }

  /** With no payment or approval landing meanwhile, at most one of the calls wins and at most one
      refund is issued; in general the wins are bounded by the entries. */
  lemma AtMostOneCancelWins(w: World, nows: seq<int>, id: nat, moves: seq<Move>)
    ensures var end := RunRace(StartRace(w, nows), id, moves);
            && |end.refunds| <= end.wins <= end.entries + 1
            && (NothingEnters(StartRace(w, nows), id, moves) ==> end.wins <= 1 && |end.refunds| <= 1)
            && (NothingEnters(StartRace(w, nows), id, moves) && !ActiveIn(w, id) ==> end.wins == 0 && end.refunds == [])
  {
    var start := StartRace(w, nows);
    NoneHolding(start.calls);
    WinsBounded(start, id, moves);
    RefundsBounded(start, id, moves);
    if NothingEnters(start, id, moves) {
      NoEntriesCounted(start, id, moves);
    }
  }

  lemma {:induction false} NoneHolding(calls: seq<Call>)
    requires forall k :: 0 <= k < |calls| ==> calls[k].Fresh?
    ensures Holding(calls) == 0
    decreases |calls|
  {
    if calls != [] {
      NoneHolding(calls[1..]);
    }
  }

  // ---- what is refunded ----

  /** Percentages that the API accepted, in the property and in every ticket resolved from it. */
  ghost predicate ValidPolicy(property: Option<Pricing.Property>) {
    property.Some? && property.value.tiers.Some? ==> CancellationPolicy.ValidTiers(property.value.tiers.value)
  }

  predicate ValidTicket(t: CancelTicket) {
    0 <= t.tier.refundPercent <= 100
  }

  ghost predicate ValidCall(call: Call) {
    match call
    case Loaded(t) => ValidTicket(t)
    case Claimed(t) => ValidTicket(t)
    case PaidOut(t, _) => ValidTicket(t)
    case _ => true
  }

  ghost predicate ValidRace(r: Race) {
    ValidPolicy(r.world.property) && forall k :: 0 <= k < |r.calls| ==> ValidCall(r.calls[k])
  }

  ghost predicate ValidMove(m: Move) {
    m.Platform? && m.op.SetPrices? ==> ValidPolicy(m.op.property)
  }

  lemma PropertyStays(w: World, op: Op)
    requires !op.SetPrices?
    ensures Apply(w, op).property == w.property
  {
    if ByEnvironment(op) {
      EnvironmentLeaves(w, op);
      hide Apply;
    } else {
      hide CanEnqueue, HasRealConflict, Pricing.GetQuote, CancelRead, FindInitial, Stripe.CreateRefund, Money.ToColumn;
    }
  }

  lemma StepStaysValid(r: Race, id: nat, m: Move)
    requires ValidRace(r) && ValidMove(m)
    ensures ValidRace(Step(r, id, m))
  {
    if m.Platform? {
      if !m.op.SetPrices? {
        PropertyStays(r.world, m.op);
      }
      hide Apply;
    } else if m.call < |r.calls| {
      hide CancelCommit, CanEnqueue;
    }
  }

  lemma {:induction false} RunStaysValid(r: Race, id: nat, moves: seq<Move>)
    requires ValidRace(r) && forall k :: 0 <= k < |moves| ==> ValidMove(moves[k])
    ensures ValidRace(RunRace(r, id, moves))
    decreases |moves|
  {
    hide ValidRace, ValidMove;
    if moves != [] {
      StepStaysValid(r, id, moves[0]);
      RunStaysValid(Step(r, id, moves[0]), id, moves[1..]);
    }
  }

  /** A refund that Stripe accepts fits its remaining balance, and the balance that the call had read. */
  lemma RefundFits(w: World, t: CancelTicket)
    requires ValidTicket(t) && CancelRefund(w, t).1.Success? && CancelRefund(w, t).1.value > 0
    ensures t.snapshot.Some? && t.snapshot.value.paymentIntentId.Some?
    ensures var cents := CancelRefund(w, t).1.value;
            var pi := t.snapshot.value.paymentIntentId.value;
            && pi < |w.stripe.sessions|
            && cents <= w.stripe.sessions[pi].amount - w.stripe.sessions[pi].refunded
            && cents <= t.snapshot.value.amount - t.snapshot.value.refunded
  {
    CancellationPolicy.RefundNeverExceedsRest(t.snapshot.value.amount, t.snapshot.value.refunded, t.tier.refundPercent);
  }

  /** Every refund issued in a race: whatever the world, the interleaving and the calls, the move that
      issues it asks for no more than Stripe has left and no more than its call had read. */
  lemma RefundWithinBalance(w: World, nows: seq<int>, id: nat, moves: seq<Move>, k: nat)
    requires ValidPolicy(w.property) && forall m :: 0 <= m < |moves| ==> ValidMove(moves[m])
    requires var r := RunRace(StartRace(w, nows), id, moves);
             k < |r.calls| && |Step(r, id, Advance(k)).refunds| > |r.refunds|
    ensures var r := RunRace(StartRace(w, nows), id, moves);
            var cents := Step(r, id, Advance(k)).refunds[|r.refunds|];
            && r.calls[k].Claimed?
            && r.calls[k].t.snapshot.Some? && r.calls[k].t.snapshot.value.paymentIntentId.Some?
            && var read := r.calls[k].t.snapshot.value;
            && read.paymentIntentId.value < |r.world.stripe.sessions|
            && var session := r.world.stripe.sessions[read.paymentIntentId.value];
            0 < cents <= session.amount - session.refunded && cents <= read.amount - read.refunded
  {
    RunStaysValid(StartRace(w, nows), id, moves);
    var r := RunRace(StartRace(w, nows), id, moves);
    assert ValidCall(r.calls[k]);
    RefundFits(r.world, r.calls[k].t);
    hide CancelRefundCents, RunRace;
  }

  /** A call that nothing interleaves with is the serialised cancel. */
  lemma AloneItIsCancel(w: World, id: nat, now: int)
    ensures RunRace(StartRace(w, [now]), id, [Advance(0), Advance(0), Advance(0), Advance(0)]).world == Cancel(w, id, now).0
  {
    var r0 := StartRace(w, [now]);
    var r1 := AdvanceCall(r0, id, 0);
    var r2 := AdvanceCall(r1, id, 0);
    var r3 := AdvanceCall(r2, id, 0);
    var r4 := AdvanceCall(r3, id, 0);
    var moves := [Advance(0), Advance(0), Advance(0), Advance(0)];
    assert moves[1..] == [Advance(0), Advance(0), Advance(0)];
    assert moves[1..][1..] == [Advance(0), Advance(0)];
    assert moves[1..][1..][1..] == [Advance(0)];
    assert moves[1..][1..][1..][1..] == [];
    assert RunRace(r0, id, moves) == r4;
  }
}
