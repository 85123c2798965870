/** Exactly when the books stay apart after split refunds, and a run in which they do. */
module SplitRefundExact {
  import opened Wrappers
  import opened Schema
  import opened Operations
  import opened SplitRefund
  import Ledger
  import Money
  import Scenarios
  import Stripe

  /** The books without what was handled: a late commit may undo what a handler wrote. */
  ghost predicate Books(w: World) {
    Ledger.StripeSound(w.stripe) && Ledger.Linked(w)
  }

  function Forget(w: World): World {
    w.(webhookEvents := map[])
  }

  lemma BooksAreLedger(w: World)
    ensures Books(w) <==> Ledger.Ledger(Forget(w))
  {
  }

  // ---- the last call ----

  /** One call that Stripe accepted: the event that reports it, whether what it had read lagged Stripe,
      and whether that event was handled before its commit. */
  datatype CallRecord = CallRecord(event: nat, lagged: bool, overtaken: bool)

  function Noted(s: SplitRefund.State, a: Action, last: Option<CallRecord>): Option<CallRecord> {
    match a
    case CallStripe =>
      if s.flight.Read? && RefundCall(s.world, s.flight.t).1.Success? then
        var pi := s.flight.t.snapshot.paymentIntentId.value;
        Some(CallRecord(|s.world.stripe.events|, s.flight.t.snapshot.refunded < s.world.stripe.sessions[pi].refunded, false))
      else last
    case Commit =>
      if s.flight.Called? && last.Some? && RefundCommit(s.world, s.flight.t, s.flight.refundId).1.Success? then
        Some(last.value.(overtaken := Ledger.Processed(s.world, s.flight.refundId)))
      else last
    case _ => last
  }

  function LastCall(s: SplitRefund.State, c: nat, actions: seq<Action>, last: Option<CallRecord>): Option<CallRecord>
    decreases |actions|
  {
    if actions == [] then last else LastCall(SplitRefund.Step(s, c, actions[0]), c, actions[1..], Noted(s, actions[0], last))
  }

  // ---- the invariant ----

  ghost predicate Exact(s: SplitRefund.State, c: nat, pi: nat, last: Option<CallRecord>) {
    && Books(s.world) && Owns(s.world, c, pi)
    && (last.None? ==> Local(s, c) == Remote(s, pi) && !s.flight.Called?)
    && (last.Some? ==> Reported(s, c, pi, last.value))
    && (s.flight.Read? ==> OwnTicket(s.flight.t, c, pi) && 0 <= s.flight.t.snapshot.refunded <= Remote(s, pi))
    && (s.flight.Called? ==> InFlight(s, c, pi, last))
  }

  ghost predicate Reported(s: SplitRefund.State, c: nat, pi: nat, last: CallRecord)
    requires Owns(s.world, c, pi)
  {
    && last.event < |s.world.stripe.events| && Ledger.Reports(s.world.stripe.events[last.event], pi, Remote(s, pi))
    && (forall i, t :: 0 <= i < |s.world.stripe.events| && i != last.event && Ledger.Reports(s.world.stripe.events[i], pi, t) ==> t < Remote(s, pi))
    && (last.overtaken ==> Ledger.Processed(s.world, last.event))
    && (Ledger.Processed(s.world, last.event) ==> (Local(s, c) == Remote(s, pi) <==> !(last.lagged && last.overtaken)))
  }

  ghost predicate InFlight(s: SplitRefund.State, c: nat, pi: nat, last: Option<CallRecord>)
    requires Owns(s.world, c, pi) && s.flight.Called?
  {
    var t := s.flight.t;
    var booked := t.snapshot.refunded + Money.ToColumn(t.dollars);
    && OwnTicket(t, c, pi) && 0 <= booked <= Remote(s, pi)
    && last == Some(CallRecord(s.flight.refundId, booked < Remote(s, pi), false))
  }

  // ---- deliveries ----

  lemma HandlerForgets(w: World, e: nat, event: Stripe.Event)
    ensures Handle(Forget(w), e, event).0 == Forget(Handle(w, e, event).0)
    ensures Handle(w, e, event).0.webhookEvents == w.webhookEvents
  {
    match event
    case CheckoutCompleted(session, pi) => CheckoutForgets(w, session, pi);
    case ChargeRefunded(pi, total, full) => RefundEventForgets(w, e, pi, total, full);
    case _ =>
      hide CanEnqueue, HandleCheckoutSucceeded, HandleChargeRefunded;
  }

  lemma CheckoutForgets(w: World, session: nat, pi: Option<nat>)
    ensures HandleCheckoutSucceeded(Forget(w), session, pi).0 == Forget(HandleCheckoutSucceeded(w, session, pi).0)
    ensures HandleCheckoutSucceeded(w, session, pi).0.webhookEvents == w.webhookEvents
  {
    hide CanEnqueue, FindBySession;
  }

  lemma RefundEventForgets(w: World, e: nat, pi: Option<nat>, total: Option<int>, full: bool)
    ensures HandleChargeRefunded(Forget(w), e, pi, total, full).0 == Forget(HandleChargeRefunded(w, e, pi, total, full).0)
    ensures HandleChargeRefunded(w, e, pi, total, full).0.webhookEvents == w.webhookEvents
  {
    hide CanEnqueue, FindByPaymentIntent, Money.Covers;
  }

  lemma RefundEventHandled(w: World, c: nat, pi: nat, e: nat)
    requires Books(w) && Owns(w, c, pi) && e < |w.stripe.events| && w.stripe.events[e].ChargeRefunded?
    ensures var event := w.stripe.events[e];
            var w' := Handle(w, e, event).0;
            && |w'.charges| == |w.charges| && w'.stripe == w.stripe
            && w'.charges[c].paymentIntentId == Some(pi) && w.charges[c].refunded <= w'.charges[c].refunded
            && (w'.charges[c].refunded != w.charges[c].refunded ==> Ledger.Reports(event, pi, w'.charges[c].refunded))
            && (forall t :: Ledger.Reports(event, pi, t) ==> t <= w'.charges[c].refunded)
  {
    var event := w.stripe.events[e];
    var found := FindByPaymentIntent(w.charges, event.paymentIntent);
    if found.Some? {
      if event.paymentIntent == Some(pi) {
        Ledger.PaymentIntentUnique(w, c, found.value);
      }
      assert Ledger.ChargeLinked(found.value, w.charges[found.value], w.stripe.sessions);
    }
  }

  lemma HandlerEffect(w: World, c: nat, pi: nat, e: nat)
    requires Books(w) && Owns(w, c, pi) && e < |w.stripe.events|
    ensures var w' := Handle(w, e, w.stripe.events[e]).0;
            && Books(w') && Owns(w', c, pi) && w'.stripe == w.stripe && w'.webhookEvents == w.webhookEvents
            && w.charges[c].refunded <= w'.charges[c].refunded
            && (w'.charges[c].refunded != w.charges[c].refunded ==> Ledger.Reports(w.stripe.events[e], pi, w'.charges[c].refunded))
            && (forall t :: Ledger.Reports(w.stripe.events[e], pi, t) ==> t <= w'.charges[c].refunded)
  {
    var event := w.stripe.events[e];
    var w' := Handle(w, e, event).0;
    HandlerForgets(w, e, event);
    BooksAreLedger(w);
    Ledger.HandleKeeps(Forget(w), e);
    BooksAreLedger(w');
    if event.ChargeRefunded? {
      RefundEventHandled(w, c, pi, e);
    } else {
      OtherEventEffect(w, c, e);
    }
    hide Handle, Ledger.Ledger, Books;
  }

  lemma LocalWithinRemote(w: World, c: nat, pi: nat)
    requires Books(w) && Owns(w, c, pi)
    ensures w.charges[c].refunded <= w.stripe.sessions[pi].refunded
  {
    assert Ledger.ChargeLinked(c, w.charges[c], w.stripe.sessions);
  }

  /** A delivery at most raises the local amount, to what its event reports. */
  lemma ReportedStays(s: SplitRefund.State, s': SplitRefund.State, c: nat, pi: nat, last: CallRecord, e: nat)
    requires Owns(s.world, c, pi) && Owns(s'.world, c, pi) && Reported(s, c, pi, last)
    requires s'.world.stripe == s.world.stripe && e < |s.world.stripe.events| && e !in s.world.webhookEvents
    requires forall k :: k != e ==> (Ledger.Processed(s'.world, k) <==> Ledger.Processed(s.world, k))
    requires Local(s, c) <= Local(s', c) <= Remote(s', pi)
    requires Local(s', c) != Local(s, c) ==> Ledger.Reports(s.world.stripe.events[e], pi, Local(s', c))
    requires forall t :: Ledger.Reports(s.world.stripe.events[e], pi, t) ==> t <= Local(s', c)
    ensures Reported(s', c, pi, last)
  {
  }

  lemma DeliveryKeepsExact(s: SplitRefund.State, c: nat, pi: nat, e: nat, last: Option<CallRecord>)
    requires Exact(s, c, pi, last)
    ensures Exact(SplitRefund.Step(s, c, Delivery(e)), c, pi, last)
  {
    var w := s.world;
    var s' := SplitRefund.Step(s, c, Delivery(e));
    if e < |w.stripe.events| && e !in w.webhookEvents {
      var recorded := w.(webhookEvents := w.webhookEvents[e := false]);
      HandlerEffect(recorded, c, pi, e);
      hide Handle;
      LocalWithinRemote(s'.world, c, pi);
      hide Books, Reported, Ledger.Reports;
      if last.Some? {
        ReportedStays(s, s', c, pi, last.value, e);
      }
    }
  }

  // ---- own steps ----

  lemma CallKeepsExact(s: SplitRefund.State, c: nat, pi: nat, last: Option<CallRecord>)
    requires Exact(s, c, pi, last) && s.flight.Read?
    ensures Exact(SplitRefund.Step(s, c, CallStripe), c, pi, Noted(s, CallStripe, last))
  {
    var t := s.flight.t;
    var (w, r) := RefundCall(s.world, t);
    var s' := SplitRefund.Step(s, c, CallStripe);
    if r.Success? {
      BooksAreLedger(s.world);
      Ledger.RefundAtStripe(s.world.stripe, pi, Money.ToColumn(t.dollars));
      Ledger.RefundCallKeeps(Forget(s.world), t);
      assert RefundCall(Forget(s.world), t).0 == Forget(w);
      BooksAreLedger(w);
      hide Books, Ledger.Ledger, Money.ToColumn;
      forall i, total | 0 <= i < |w.stripe.events| && i != |s.world.stripe.events| && Ledger.Reports(w.stripe.events[i], pi, total)
        ensures total < Remote(s', pi) {
        assert w.stripe.events[i] == s.world.stripe.events[i] && Stripe.Truthful(s.world.stripe, s.world.stripe.events[i]);
      }
      assert !Ledger.Processed(w, |s.world.stripe.events|);
    }
  }

  lemma CommitKeepsExact(s: SplitRefund.State, c: nat, pi: nat, last: Option<CallRecord>)
    requires Exact(s, c, pi, last) && s.flight.Called?
    ensures Exact(SplitRefund.Step(s, c, Commit), c, pi, Noted(s, Commit, last))
  {
    var t := s.flight.t;
    var (w, r) := RefundCommit(s.world, t, s.flight.refundId);
    if r.Success? {
      Ledger.CommitStoresTheSum(s.world, t, s.flight.refundId);
      forall d | 0 <= d < |w.charges| ensures Ledger.ChargeLinked(d, w.charges[d], w.stripe.sessions) {
        assert Ledger.ChargeLinked(d, s.world.charges[d], s.world.stripe.sessions);
      }
    }
  }

  lemma StepKeepsExact(s: SplitRefund.State, c: nat, pi: nat, a: Action, last: Option<CallRecord>)
    requires Exact(s, c, pi, last)
    ensures Exact(SplitRefund.Step(s, c, a), c, pi, Noted(s, a, last))
  {
    assert Ledger.ChargeLinked(c, s.world.charges[c], s.world.stripe.sessions);
    match a
    case Begin(dollars) =>
    case CallStripe => if s.flight.Read? { CallKeepsExact(s, c, pi, last); }
    case Commit => if s.flight.Called? { CommitKeepsExact(s, c, pi, last); }
    case Crash =>
    case Delivery(e) => DeliveryKeepsExact(s, c, pi, e, last);
  }

  lemma {:induction false} RunKeepsExact(s: SplitRefund.State, c: nat, pi: nat, actions: seq<Action>, last: Option<CallRecord>)
    requires Exact(s, c, pi, last)
    ensures Exact(RunSplit(s, c, actions), c, pi, LastCall(s, c, actions, last))
    decreases |actions|
  {
    hide Exact, SplitRefund.Step, Noted;
    if actions != [] {
      StepKeepsExact(s, c, pi, actions[0], last);
      RunKeepsExact(SplitRefund.Step(s, c, actions[0]), c, pi, actions[1..], Noted(s, actions[0], last));
    }
  }

  /** From books that agree, whatever interleaves: with no call under way and every refund event handled,
      local differs from Stripe exactly if the last call that Stripe accepted had read an amount that
      lagged Stripe's, and its own event was handled before its commit. */
  lemma SettlesIff(w: World, c: nat, pi: nat, actions: seq<Action>)
    requires Ledger.Ledger(w) && Owns(w, c, pi) && w.charges[c].refunded == w.stripe.sessions[pi].refunded
    ensures var end := RunSplit(State(w, Ground, None), c, actions);
            var last := LastCall(State(w, Ground, None), c, actions, None);
            && c < |end.world.charges| && pi < |end.world.stripe.sessions|
            && (end.flight.Ground? && Ledger.AllProcessed(end.world, pi) ==>
                  (Local(end, c) != Remote(end, pi) <==> last.Some? && last.value.lagged && last.value.overtaken))
  {
    RunKeepsExact(State(w, Ground, None), c, pi, actions, None);
  }

  // ---- a run that stays apart ----

  /** The paid charge of ten dollars: what Stripe refunded, what is booked, and which events were handled. */
  function TenDollars(remote: int, events: seq<Stripe.Event>, local: int, outbox: seq<OutboxRow>, seen: map<nat, bool>): World {
    Scenarios.OneGuest(true, Confirmed, [TenDollarCharge(local)], outbox, seen,
                       Stripe.Account([Stripe.Session(0, 1000, true, remote)], events))
  }

  function TenDollarCharge(local: int): Charge {
    Charge(0, Initial, 1000, Succeeded, Some(0), Some(0), local)
  }

  function RefundEvent(total: int): Stripe.Event {
    Stripe.ChargeRefunded(Some(0), Some(total), false)
  }

  function Ticket(cents: int): RefundTicket {
    RefundTicket(0, TenDollarCharge(0), Money.Dollars(cents))
  }

  lemma BeginTenDollars(w: World, cents: int, wreck: Option<Wreck>)
    requires w.charges == [TenDollarCharge(0)] && 0 < cents <= 1000
    ensures SplitRefund.Step(State(w, Ground, wreck), 0, Begin(Money.Dollars(cents))) == State(w, Read(Ticket(cents)), wreck)
  {
  }

  lemma CallTenDollars(remote: int, events: seq<Stripe.Event>, cents: int, wreck: Option<Wreck>)
    requires 0 < cents && 0 <= remote && remote + cents < 1000
    ensures SplitRefund.Step(State(TenDollars(remote, events, 0, Scenarios.ANNOUNCED, map[0 := true]), Read(Ticket(cents)), wreck), 0, CallStripe)
            == State(TenDollars(remote + cents, events + [RefundEvent(remote + cents)], 0, Scenarios.ANNOUNCED, map[0 := true]),
                     Called(Ticket(cents), |events|), wreck)
  {
    Money.GuardExactOnCents(cents, 1000);
  }

  lemma DeliverTenDollars(remote: int, events: seq<Stripe.Event>, local: int, outbox: seq<OutboxRow>, seen: map<nat, bool>, e: nat, total: int)
    requires e < |events| && events[e] == RefundEvent(total) && e !in seen && local < total < 1000
    requires forall r :: r in outbox ==> r.RefundedExternally? ==> r.event != e
    ensures Receive(TenDollars(remote, events, local, outbox, seen), e).0
            == TenDollars(remote, events, total, outbox + [RefundedExternally(Some(0), e, total)], seen[e := true])
  {
    var w := TenDollars(remote, events, local, outbox, seen);
    assert FindByPaymentIntent(w.charges, Some(0)) == Some(0);
    var recorded := w.(webhookEvents := w.webhookEvents[e := false]);
    var handled := HandleChargeRefunded(recorded, e, Some(0), Some(total), false);
    assert handled.1.Success?;
    assert handled.0.charges == [TenDollarCharge(total)];
    assert w.outbox + [RefundedExternally(Some(0), e, total)]
        == [InquiryNew(0), InquiryAcknowledged(0)] + (outbox + [RefundedExternally(Some(0), e, total)]);
    assert seen[e := false][e := true] == seen[e := true];
  }

  /** Both events delivered to the second call, then its commit. */
  function LateHalf(): seq<Action> {
    [Delivery(1)] + ([Delivery(2)] + ([Commit] + []))
  }

  function EarlyHalf(rest: seq<Action>): seq<Action> {
    [Begin(Money.Dollars(300))] + ([CallStripe] + ([Crash] + ([Begin(Money.Dollars(200))] + ([CallStripe] + rest))))
  }

  function TwoRefundEvents(): seq<Stripe.Event> {
    [Scenarios.PAID] + [RefundEvent(300)] + [RefundEvent(500)]
  }

  function Start(): SplitRefund.State {
    State(TenDollars(0, [Scenarios.PAID], 0, Scenarios.ANNOUNCED, map[0 := true]), Ground, None)
  }

  /** The second call is under way, the first one died. */
  function Middle(local: int, outbox: seq<OutboxRow>, seen: map<nat, bool>): SplitRefund.State {
    State(TenDollars(500, TwoRefundEvents(), local, outbox, seen), Called(Ticket(200), 2), Some(Wreck(1, 0)))
  }

  lemma EarlyHalfLeadsTo(rest: seq<Action>)
    ensures RunSplit(Start(), 0, EarlyHalf(rest)) == RunSplit(Middle(0, Scenarios.ANNOUNCED, map[0 := true]), 0, rest)
  {
    var w0, w2 := Start().world, TenDollars(300, [Scenarios.PAID] + [RefundEvent(300)], 0, Scenarios.ANNOUNCED, map[0 := true]);
    var after4 := [CallStripe] + rest;
    var after3 := [Begin(Money.Dollars(200))] + after4;
    var after2 := [Crash] + after3;
    var wreck := Some(Wreck(1, 0));
    RunUnfolds(Start(), 0, Begin(Money.Dollars(300)), [CallStripe] + after2);
    BeginTenDollars(w0, 300, None);
    RunUnfolds(State(w0, Read(Ticket(300)), None), 0, CallStripe, after2);
    CallTenDollars(0, [Scenarios.PAID], 300, None);
    RunUnfolds(State(w2, Called(Ticket(300), 1), None), 0, Crash, after3);
    RunUnfolds(State(w2, Ground, wreck), 0, Begin(Money.Dollars(200)), after4);
    BeginTenDollars(w2, 200, wreck);
    RunUnfolds(State(w2, Read(Ticket(200)), wreck), 0, CallStripe, rest);
    CallTenDollars(300, [Scenarios.PAID] + [RefundEvent(300)], 200, wreck);
  }

  lemma CommitTenDollars(w: World)
    requires |w.charges| == 1 && forall r :: r in w.outbox ==> !r.ChargeRefundedByUs?
    ensures RefundCommit(w, Ticket(200), 2).1.Success?
    ensures var w' := RefundCommit(w, Ticket(200), 2).0;
            w'.charges[0].refunded == 200 && |w'.charges| == 1 && w'.stripe == w.stripe && w'.webhookEvents == w.webhookEvents
  {
    Ledger.CommitStoresTheSum(w, Ticket(200), 2);
    Money.GuardExactOnCents(200, 1000);
  }

  lemma DeliverLate(local: int, outbox: seq<OutboxRow>, seen: map<nat, bool>, e: nat, total: int)
    requires e < 3 && TwoRefundEvents()[e] == RefundEvent(total) && e !in seen && local < total < 1000
    requires forall r :: r in outbox ==> r.RefundedExternally? ==> r.event != e
    ensures SplitRefund.Step(Middle(local, outbox, seen), 0, Delivery(e))
            == Middle(total, outbox + [RefundedExternally(Some(0), e, total)], seen[e := true])
  {
    DeliverTenDollars(500, TwoRefundEvents(), local, outbox, seen, e, total);
    hide Receive, TenDollars;
  }

  function BothDelivered(): SplitRefund.State {
    Middle(500, Scenarios.ANNOUNCED + [RefundedExternally(Some(0), 1, 300)] + [RefundedExternally(Some(0), 2, 500)],
           map[0 := true][1 := true][2 := true])
  }

  lemma LateHalfLeadsTo()
    ensures RunSplit(Middle(0, Scenarios.ANNOUNCED, map[0 := true]), 0, LateHalf()) == RunSplit(BothDelivered(), 0, [Commit] + [])
  {
    var rows := Scenarios.ANNOUNCED + [RefundedExternally(Some(0), 1, 300)];
    DeliverLate(0, Scenarios.ANNOUNCED, map[0 := true], 1, 300);
    DeliverLate(300, rows, map[0 := true][1 := true], 2, 500);
    hide RunSplit, SplitRefund.Step, Middle;
    RunUnfolds(Middle(0, Scenarios.ANNOUNCED, map[0 := true]), 0, Delivery(1), [Delivery(2)] + ([Commit] + []));
    RunUnfolds(Middle(300, rows, map[0 := true][1 := true]), 0, Delivery(2), [Commit] + []);
  }

  lemma CommitLate()
    ensures var end := RunSplit(BothDelivered(), 0, [Commit] + []);
            && end.flight.Ground? && |end.world.stripe.events| == 3 && (forall e: nat :: e < 3 ==> Ledger.Processed(end.world, e))
            && |end.world.charges| == 1 && |end.world.stripe.sessions| == 1
            && Local(end, 0) == 200 && Remote(end, 0) == 500
  {
    RunUnfolds(BothDelivered(), 0, Commit, []);
    CommitTenDollars(BothDelivered().world);
    hide RefundCommit;
  }

  /** Three dollars refunded and crashed, two more started before the first event came, both events
      handled, then the second commit: two dollars stay booked although five were paid back. */
  lemma RefundBeforeRepairStaysWrong()
    ensures Run(Empty(true), Scenarios.PaidRun()) == Start().world
    ensures var end := RunSplit(Start(), 0, EarlyHalf(LateHalf()));
            && end.flight.Ground? && |end.world.stripe.events| == 3 && (forall e: nat :: e < 3 ==> Ledger.Processed(end.world, e))
            && |end.world.charges| == 1 && |end.world.stripe.sessions| == 1
            && Local(end, 0) == 200 && Remote(end, 0) == 500
  {
    StartIsReached();
    hide RunSplit, EarlyHalf, LateHalf, Middle, Start, BothDelivered, Run, Scenarios.PaidRun;
    EarlyHalfLeadsTo(LateHalf());
    LateHalfLeadsTo();
    CommitLate();
  }

  lemma StartIsReached()
    ensures Run(Empty(true), Scenarios.PaidRun()) == Start().world
  {
    Scenarios.AfterPaid(true);
    hide Run, Scenarios.PaidRun;
  }
}
