/**
 One charge's own refunds with the Stripe call and the local commit as separate steps, interleaved
 with webhook deliveries and crashes. One own refund is in flight at a time and nobody refunds
 outside the app.
 */
module SplitRefund {
  import opened Wrappers
  import opened Schema
  import opened Operations
  import Ledger
  import Money
  import Stripe

  datatype Flight = Ground | Read(t: RefundTicket) | Called(t: RefundTicket, refundId: nat)

  /** A call that died between Stripe and its commit: the event that reports it and the local amount then. */
  datatype Wreck = Wreck(event: nat, base: int)

  datatype State = State(world: World, flight: Flight, wreck: Option<Wreck>)

  datatype Action = Begin(dollars: real) | CallStripe | Commit | Crash | Delivery(event: nat)

  /** The crashed call's event has been handled, or there is none. */
  predicate Repaired(s: State) {
    s.wreck.None? || Ledger.Processed(s.world, s.wreck.value.event)
  }

  function Step(s: State, c: nat, a: Action): State {
    match a
    case Begin(dollars) =>
      if s.flight.Ground? && RefundRead(s.world, c, dollars).Success? then
        s.(flight := Read(RefundRead(s.world, c, dollars).value))
      else s
    case CallStripe =>
      if s.flight.Read? then
        var (w, r) := RefundCall(s.world, s.flight.t);
        s.(world := w, flight := if r.Success? then Called(s.flight.t, r.value) else Ground)
      else s
    case Commit =>
      if s.flight.Called? then
        var (w, r) := RefundCommit(s.world, s.flight.t, s.flight.refundId);
        State(w, Ground, if r.Success? then s.wreck else Some(Wreck(s.flight.refundId, s.flight.t.snapshot.refunded)))
      else s
    case Crash =>
      if s.flight.Called? then State(s.world, Ground, Some(Wreck(s.flight.refundId, s.flight.t.snapshot.refunded)))
      else s.(flight := Ground)
    case Delivery(e) => s.(world := Receive(s.world, e).0)
  }

  function RunSplit(s: State, c: nat, actions: seq<Action>): State
    decreases |actions|
  {
    if actions == [] then s else RunSplit(Step(s, c, actions[0]), c, actions[1..])
  }

  /** No new own refund starts before the event of a crashed one has been handled. */
  ghost predicate WaitsForRepair(s: State, c: nat, actions: seq<Action>)
    decreases |actions|
  {
    actions != [] ==> (actions[0].Begin? ==> Repaired(s)) && WaitsForRepair(Step(s, c, actions[0]), c, actions[1..])
  }

  // ---- the invariant ----

  function Local(s: State, c: nat): int
    requires c < |s.world.charges|
  {
    s.world.charges[c].refunded
  }

  function Remote(s: State, pi: nat): int
    requires pi < |s.world.stripe.sessions|
  {
    s.world.stripe.sessions[pi].refunded
  }

  /** The local amount before the refund that is not settled yet. */
  function Base(s: State, pi: nat): int
    requires pi < |s.world.stripe.sessions|
  {
    if s.flight.Read? || s.flight.Called? then s.flight.t.snapshot.refunded
    else if !Repaired(s) then s.wreck.value.base
    else Remote(s, pi)
  }

  ghost predicate EventsSettle(a: Stripe.Account, pi: nat, base: int, total: int) {
    forall i, t :: 0 <= i < |a.events| && Ledger.Reports(a.events[i], pi, t) ==> t <= base || t == total
  }

  ghost predicate Owns(w: World, c: nat, pi: nat) {
    && c < |w.charges| && w.charges[c].paymentIntentId == Some(pi)
    && pi < |w.stripe.sessions|
    && (forall e :: e in w.webhookEvents ==> e < |w.stripe.events|)
  }

  ghost predicate Inv(s: State, c: nat, pi: nat) {
    && Ledger.Ledger(s.world) && Owns(s.world, c, pi)
    && EventsSettle(s.world.stripe, pi, Base(s, pi), Remote(s, pi))
    && (match s.flight
        case Ground =>
          && (Repaired(s) ==> Local(s, c) == Remote(s, pi))
          && (!Repaired(s) ==> Pending(s.world, c, pi, s.wreck.value.event, s.wreck.value.base))
        case Read(t) => Repaired(s) && OwnTicket(t, c, pi) && Local(s, c) == Remote(s, pi) == t.snapshot.refunded
        case Called(t, id) =>
          && Repaired(s) && OwnTicket(t, c, pi)
          && Remote(s, pi) == t.snapshot.refunded + Money.ToColumn(t.dollars)
          && Pending(s.world, c, pi, id, t.snapshot.refunded))
  }

  ghost predicate OwnTicket(t: RefundTicket, c: nat, pi: nat) {
    t.charge == c && t.snapshot.paymentIntentId == Some(pi)
  }

  /** Stripe has moved from `base` to its total, event `k` reports that, and once `k` is handled the
      local column has followed. */
  ghost predicate Pending(w: World, c: nat, pi: nat, k: nat, base: int)
    requires c < |w.charges| && pi < |w.stripe.sessions|
  {
    var total := w.stripe.sessions[pi].refunded;
    && k < |w.stripe.events| && Ledger.Reports(w.stripe.events[k], pi, total)
    && (w.charges[c].refunded == base || w.charges[c].refunded == total)
    && (Ledger.Processed(w, k) ==> w.charges[c].refunded == total)
  }

  // ---- the steps ----

  /** One delivery leaves the charge alone or raises it to what a new refund event of it reports. */
  lemma DeliveryEffect(w: World, c: nat, pi: nat, e: nat)
    requires Ledger.Ledger(w) && Owns(w, c, pi)
    ensures var w' := Receive(w, e).0;
            && Ledger.Ledger(w') && Owns(w', c, pi) && w'.stripe == w.stripe
            && w.charges[c].refunded <= w'.charges[c].refunded
            && (w'.charges[c].refunded != w.charges[c].refunded ==>
                  exists i :: 0 <= i < |w.stripe.events| && Ledger.Reports(w.stripe.events[i], pi, w'.charges[c].refunded))
            && (forall k :: Ledger.Processed(w', k) && !Ledger.Processed(w, k) ==> k == e)
            && (forall k :: Ledger.Processed(w, k) ==> Ledger.Processed(w', k))
            && (forall t :: Ledger.Processed(w', e) && !Ledger.Processed(w, e) && Ledger.Reports(w.stripe.events[e], pi, t) ==> t <= w'.charges[c].refunded)
  {
    hide Ledger.Ledger, HandleCheckoutSucceeded, HandleChargeRefunded, FindByPaymentIntent;
    Ledger.ReceiveKeeps(w, e);
    if e < |w.stripe.events| && e !in w.webhookEvents {
      var recorded := w.(webhookEvents := w.webhookEvents[e := false]);
      Ledger.EventRowAdded(w, e, recorded);
      Ledger.HandleKeeps(recorded, e);
      var event := w.stripe.events[e];
      if event.ChargeRefunded? {
        RefundEventEffect(recorded, c, pi, e);
      } else {
        OtherEventEffect(recorded, c, e);
      }
    }
  }

  lemma RefundEventEffect(w: World, c: nat, pi: nat, e: nat)
    requires Ledger.Ledger(w) && Owns(w, c, pi) && e < |w.stripe.events| && w.stripe.events[e].ChargeRefunded?
    ensures var event := w.stripe.events[e];
            var w' := Handle(w, e, event).0;
            && |w'.charges| == |w.charges| && w'.stripe == w.stripe && w'.webhookEvents == w.webhookEvents
            && w'.charges[c].paymentIntentId == Some(pi)
            && (w'.charges[c].refunded != w.charges[c].refunded ==> Ledger.Reports(event, pi, w'.charges[c].refunded))
            && (forall t :: Ledger.Reports(event, pi, t) ==> t <= w'.charges[c].refunded)
  {
    var event := w.stripe.events[e];
    var found := FindByPaymentIntent(w.charges, event.paymentIntent);
    if found.Some? {
      if event.paymentIntent == Some(pi) {
        Ledger.PaymentIntentUnique(w, c, found.value);
      }
      assert Ledger.ChargeLinked(found.value, w.charges[found.value], w.stripe.sessions);
    }
  }

  lemma OtherEventEffect(w: World, c: nat, e: nat)
    requires c < |w.charges| && e < |w.stripe.events| && !w.stripe.events[e].ChargeRefunded?
    ensures var w' := Handle(w, e, w.stripe.events[e]).0;
            |w'.charges| == |w.charges| && w'.charges[c].refunded == w.charges[c].refunded && w'.webhookEvents == w.webhookEvents
  {
  }

  lemma DeliveryKeeps(s: State, c: nat, pi: nat, e: nat)
    requires Inv(s, c, pi)
    ensures Inv(Step(s, c, Delivery(e)), c, pi)
  {
    DeliveryEffect(s.world, c, pi, e);
    var s' := Step(s, c, Delivery(e));
    var total := Remote(s, pi);
    assert Ledger.ChargeLinked(c, s'.world.charges[c], s'.world.stripe.sessions);
    if Local(s', c) != Local(s, c) {
      var i :| 0 <= i < |s.world.stripe.events| && Ledger.Reports(s.world.stripe.events[i], pi, Local(s', c));
      assert Local(s', c) <= Base(s, pi) || Local(s', c) == total;
    }
    if s.wreck.Some? && Repaired(s) {
      assert Ledger.Processed(s'.world, s.wreck.value.event);
    }
  }

  lemma CallKeeps(s: State, c: nat, pi: nat)
    requires Inv(s, c, pi) && s.flight.Read?
    ensures Inv(Step(s, c, CallStripe), c, pi)
  {
    var t := s.flight.t;
    Ledger.RefundCallKeeps(s.world, t);
    var (w, r) := RefundCall(s.world, t);
    if r.Success? {
      Ledger.RefundAtStripe(s.world.stripe, pi, Money.ToColumn(t.dollars));
      var s' := Step(s, c, CallStripe);
      var id := |s.world.stripe.events|;
      assert id !in w.webhookEvents;
      forall i, total | 0 <= i < |w.stripe.events| && Ledger.Reports(w.stripe.events[i], pi, total)
        ensures total <= t.snapshot.refunded || total == Remote(s', pi) {
        if i < id {
          assert w.stripe.events[i] == s.world.stripe.events[i];
          assert Stripe.Truthful(s.world.stripe, s.world.stripe.events[i]);
        }
      }
      if s.wreck.Some? {
        assert Ledger.Processed(w, s.wreck.value.event);
      }
    }
  }

  lemma CommitKeeps(s: State, c: nat, pi: nat)
    requires Inv(s, c, pi) && s.flight.Called?
    ensures Inv(Step(s, c, Commit), c, pi)
  {
    var t, id := s.flight.t, s.flight.refundId;
    var (w, r) := RefundCommit(s.world, t, id);
    assert Ledger.ChargeLinked(c, s.world.charges[c], s.world.stripe.sessions);
    if r.Success? {
      Ledger.CommitStoresTheSum(s.world, t, id);
      Ledger.ChargeChanged(s.world, w, c, w.charges[c]);
      var s' := Step(s, c, Commit);
      forall i, total | 0 <= i < |w.stripe.events| && Ledger.Reports(w.stripe.events[i], pi, total) ensures total <= Remote(s', pi) {
        assert Stripe.Truthful(w.stripe, w.stripe.events[i]);
      }
      assert Repaired(s');
    } else {
      CrashKeeps(s, c, pi);
    }
  }

  lemma CrashKeeps(s: State, c: nat, pi: nat)
    requires Inv(s, c, pi)
    ensures Inv(Step(s, c, Crash), c, pi)
  {
    var w := s.world;
    forall i, total | 0 <= i < |w.stripe.events| && Ledger.Reports(w.stripe.events[i], pi, total) ensures total <= Remote(s, pi) {
      assert Stripe.Truthful(w.stripe, w.stripe.events[i]);
    }
  }

  lemma StepKeeps(s: State, c: nat, pi: nat, a: Action)
    requires Inv(s, c, pi) && (a.Begin? ==> Repaired(s))
    ensures Inv(Step(s, c, a), c, pi)
  {
    match a
    case Begin(dollars) =>
    case CallStripe => if s.flight.Read? { CallKeeps(s, c, pi); }
    case Commit => if s.flight.Called? { CommitKeeps(s, c, pi); }
    case Crash => CrashKeeps(s, c, pi);
    case Delivery(e) => DeliveryKeeps(s, c, pi, e);
  }

  // ---- the results ----

  lemma {:induction false} RunKeeps(s: State, c: nat, pi: nat, actions: seq<Action>)
    requires Inv(s, c, pi) && WaitsForRepair(s, c, actions)
    ensures Inv(RunSplit(s, c, actions), c, pi)
    decreases |actions|
  {
    if actions != [] {
      StepKeeps(s, c, pi, actions[0]);
      RunKeeps(Step(s, c, actions[0]), c, pi, actions[1..]);
    }
  }

  /** From books that agree, any interleaving of own refunds, crashes and deliveries ends with local
      equal to Stripe, once no call is under way and the event of a crashed one has been handled. */
  lemma SplitRefundSettles(w: World, c: nat, pi: nat, actions: seq<Action>)
    requires Ledger.Ledger(w) && Owns(w, c, pi) && w.charges[c].refunded == w.stripe.sessions[pi].refunded
    requires WaitsForRepair(State(w, Ground, None), c, actions)
    ensures var end := RunSplit(State(w, Ground, None), c, actions);
            && c < |end.world.charges| && pi < |end.world.stripe.sessions|
            && Local(end, c) <= Remote(end, pi)
            && (end.flight.Ground? && Repaired(end) ==> Local(end, c) == Remote(end, pi))
  {
    var s := State(w, Ground, None);
    forall i, total | 0 <= i < |w.stripe.events| && Ledger.Reports(w.stripe.events[i], pi, total) ensures total <= Remote(s, pi) {
      assert Stripe.Truthful(w.stripe, w.stripe.events[i]);
    }
    RunKeeps(s, c, pi, actions);
    var end := RunSplit(s, c, actions);
    assert Ledger.ChargeLinked(c, end.world.charges[c], end.world.stripe.sessions);
  }

  lemma RunUnfolds(s: State, c: nat, a: Action, rest: seq<Action>)
    ensures RunSplit(s, c, [a] + rest) == RunSplit(Step(s, c, a), c, rest)
  {
    assert ([a] + rest)[1..] == rest;
  }

  /** A refund that nothing interleaves with is the serialised refundCharge. */
  lemma AloneItIsRefundCharge(w: World, c: nat, dollars: real)
    ensures RunSplit(State(w, Ground, None), c, [Begin(dollars)] + ([CallStripe] + ([Commit] + []))).world == RefundCharge(w, c, dollars).0
  {
    var s0 := State(w, Ground, None);
    var s1 := Step(s0, c, Begin(dollars));
    var s2 := Step(s1, c, CallStripe);
    RunUnfolds(s0, c, Begin(dollars), [CallStripe] + ([Commit] + []));
    RunUnfolds(s1, c, CallStripe, [Commit] + []);
    RunUnfolds(s2, c, Commit, []);
  }
}
