/**
 The local refund columns against Stripe's ledger, over every serialised run.
 */
module Ledger {
  import opened Wrappers
  import opened Schema
  import opened Operations
  import Money
  import Pricing
  import Stripe

  // ---- the invariant ----

  ghost predicate ChargeLinked(c: nat, charge: Charge, sessions: seq<Stripe.Session>) {
    && (charge.sessionId.Some? ==>
          && charge.sessionId.value < |sessions|
          && sessions[charge.sessionId.value].chargeId == c
          && sessions[charge.sessionId.value].amount == charge.amount)
    && (charge.paymentIntentId.Some? ==> charge.sessionId == charge.paymentIntentId)
    && 0 <= charge.refunded
    && (if charge.paymentIntentId.Some? then charge.refunded <= sessions[charge.paymentIntentId.value].refunded else charge.refunded == 0)
  }

  ghost predicate SessionSound(s: Stripe.Session) {
    0 <= s.refunded <= s.amount
  }

  ghost predicate Reports(e: Stripe.Event, session: nat, total: int) {
    e.ChargeRefunded? && e.paymentIntent == Some(session) && e.amountRefunded == Some(total)
  }

  ghost predicate Reported(a: Stripe.Account, session: nat, total: int) {
    exists i :: 0 <= i < |a.events| && Reports(a.events[i], session, total)
  }

  ghost predicate StripeSound(a: Stripe.Account) {
    && (forall s :: 0 <= s < |a.sessions| ==> SessionSound(a.sessions[s]))
    && (forall i :: 0 <= i < |a.events| ==> Stripe.Truthful(a, a.events[i]))
    && (forall s :: 0 <= s < |a.sessions| && a.sessions[s].refunded > 0 ==> Reported(a, s, a.sessions[s].refunded))
  }

  ghost predicate Linked(w: World) {
    forall c :: 0 <= c < |w.charges| ==> ChargeLinked(c, w.charges[c], w.stripe.sessions)
  }

  /** The handler of this event ran to its end. */
  predicate Processed(w: World, e: nat) {
    e in w.webhookEvents && w.webhookEvents[e]
  }

  /** The event reached the platform when no charge carried its PaymentIntent yet; the outbox says so. */
  predicate Unmatched(w: World, e: nat) {
    exists k :: 0 <= k < |w.outbox| && w.outbox[k].RefundedExternally? && w.outbox[k].event == e && w.outbox[k].matched == None
  }

  ghost predicate Reflected(w: World, e: nat) {
    e < |w.stripe.events| &&
    (var event := w.stripe.events[e];
     event.ChargeRefunded? && event.amountRefunded.Some? && !Unmatched(w, e) ==>
       exists c :: 0 <= c < |w.charges| && Shows(w.charges[c], event.paymentIntent, event.amountRefunded.value))
  }

  /** The charge of this PaymentIntent has at least this much booked as refunded. */
  predicate Shows(charge: Charge, pi: Option<nat>, total: int) {
    pi.Some? && charge.paymentIntentId == pi && total <= charge.refunded
  }

  ghost predicate Ledger(w: World) {
    && StripeSound(w.stripe)
    && Linked(w)
    && (forall e :: Processed(w, e) ==> Reflected(w, e))
  }

  // ---- how a step may move the books ----

  ghost predicate StripeGrows(a: Stripe.Account, b: Stripe.Account) {
    && |a.sessions| <= |b.sessions|
    && (forall s :: 0 <= s < |a.sessions| ==>
          && a.sessions[s].chargeId == b.sessions[s].chargeId
          && a.sessions[s].amount == b.sessions[s].amount
          && (a.sessions[s].paid ==> b.sessions[s].paid)
          && a.sessions[s].refunded <= b.sessions[s].refunded)
    && a.events <= b.events
  }

  ghost predicate ChargesGrow(a: seq<Charge>, b: seq<Charge>) {
    && |a| <= |b|
    && (forall c :: 0 <= c < |a| ==>
          && a[c].amount == b[c].amount && a[c].bookingId == b[c].bookingId && a[c].kind == b[c].kind
          && (a[c].paymentIntentId.Some? ==> b[c].paymentIntentId == a[c].paymentIntentId)
          && a[c].refunded <= b[c].refunded)
  }

  /** Refunded amounts never fall, recorded PaymentIntents stay, nothing is forgotten. */
  ghost predicate Advances(w: World, w': World) {
    && StripeGrows(w.stripe, w'.stripe)
    && ChargesGrow(w.charges, w'.charges)
    && w.outbox <= w'.outbox
    && w.webhookEvents.Keys <= w'.webhookEvents.Keys
    && (forall e :: e in w.webhookEvents ==> w'.webhookEvents[e] == w.webhookEvents[e])
  }

  lemma AdvancesTransitive(a: World, b: World, c: World)
    requires Advances(a, b) && Advances(b, c)
    ensures Advances(a, c)
  {
    forall e | e in a.webhookEvents ensures c.webhookEvents[e] == a.webhookEvents[e] {
      assert e in b.webhookEvents;
    }
  }

  lemma TruthLasts(a: Stripe.Account, b: Stripe.Account, e: Stripe.Event)
    requires StripeGrows(a, b) && Stripe.Truthful(a, e)
    ensures Stripe.Truthful(b, e)
  {
  }

  /** What was reflected stays reflected while the books advance. */
  lemma ReflectionLasts(w: World, w': World, e: nat)
    requires Reflected(w, e) && Advances(w, w')
    ensures Reflected(w', e)
  {
    UnmatchedLasts(w, w', e);
    var event := w.stripe.events[e];
    assert w'.stripe.events[e] == event;
    if event.ChargeRefunded? && event.amountRefunded.Some? && !Unmatched(w, e) {
      var c :| 0 <= c < |w.charges| && Shows(w.charges[c], event.paymentIntent, event.amountRefunded.value);
      assert Shows(w'.charges[c], event.paymentIntent, event.amountRefunded.value);
    }
  }

  /** Stripe alone moves (a payment, a refund, an event): the books still hold. */
  lemma StripeMoves(w: World, w': World)
    requires Ledger(w)
    requires w' == w.(stripe := w'.stripe)
    requires StripeGrows(w.stripe, w'.stripe) && StripeSound(w'.stripe)
    ensures Ledger(w') && Advances(w, w')
  {
    forall c | 0 <= c < |w'.charges| ensures ChargeLinked(c, w'.charges[c], w'.stripe.sessions) {
      assert ChargeLinked(c, w.charges[c], w.stripe.sessions);
    }
    forall e: nat | Processed(w', e) ensures Reflected(w', e) {
      assert Processed(w, e);
      ReflectionLasts(w, w', e);
    }
  }

  lemma RefundAtStripe(a: Stripe.Account, pi: nat, cents: int)
    requires StripeSound(a) && Stripe.CreateRefund(a, pi, cents).Success?
    ensures var b := Stripe.CreateRefund(a, pi, cents).value;
            && StripeSound(b) && StripeGrows(a, b)
            && b.sessions[pi].refunded == a.sessions[pi].refunded + cents
            && Reports(b.events[|a.events|], pi, a.sessions[pi].refunded + cents)
  {
    var b := Stripe.CreateRefund(a, pi, cents).value;
    forall i | 0 <= i < |b.events| ensures Stripe.Truthful(b, b.events[i]) {
      if i < |a.events| {
        TruthLasts(a, b, a.events[i]);
      }
    }
    forall s | 0 <= s < |b.sessions| && b.sessions[s].refunded > 0 ensures Reported(b, s, b.sessions[s].refunded) {
      if s == pi {
        assert Reports(b.events[|a.events|], s, b.sessions[s].refunded);
      } else {
        var i :| 0 <= i < |a.events| && Reports(a.events[i], s, a.sessions[s].refunded);
        assert Reports(b.events[i], s, b.sessions[s].refunded);
      }
    }
  }

  lemma EventAtStripe(a: Stripe.Account, b: Stripe.Account, e: Stripe.Event)
    requires StripeSound(a) && StripeGrows(a, b) && b.events == a.events + [e] && Stripe.Truthful(b, e)
    requires |b.sessions| == |a.sessions|
    requires forall s :: 0 <= s < |a.sessions| ==> b.sessions[s].refunded == a.sessions[s].refunded
    ensures StripeSound(b)
  {
    forall i | 0 <= i < |b.events| ensures Stripe.Truthful(b, b.events[i]) {
      if i < |a.events| {
        TruthLasts(a, b, a.events[i]);
      }
    }
    forall s | 0 <= s < |b.sessions| && b.sessions[s].refunded > 0 ensures Reported(b, s, b.sessions[s].refunded) {
      var i :| 0 <= i < |a.events| && Reports(a.events[i], s, a.sessions[s].refunded);
      assert Reports(b.events[i], s, b.sessions[s].refunded);
    }
    forall s | 0 <= s < |b.sessions| ensures SessionSound(b.sessions[s]) {
      assert SessionSound(a.sessions[s]);
    }
  }

  /** A new charge row, with or without the session that was opened for it. */
  lemma ChargeAdded(w: World, w': World, charge: Charge)
    requires Ledger(w) && charge.refunded == 0 && (charge.amount >= 0 || w'.stripe == w.stripe)
    requires w'.charges == w.charges + [charge]
    requires w'.stripe == Stripe.OpenSession(w.stripe, |w.charges|, charge.amount) || (w'.stripe == w.stripe && charge.sessionId == None)
    requires charge.sessionId == None || charge.sessionId == Some(|w.stripe.sessions|)
    requires charge.paymentIntentId == None || charge.paymentIntentId == charge.sessionId
    requires w.outbox <= w'.outbox && w'.webhookEvents == w.webhookEvents
    ensures Ledger(w') && Advances(w, w')
  {
    var s := |w.stripe.sessions|;
    assert StripeSound(w'.stripe) by {
      forall i | 0 <= i < |w'.stripe.events| ensures Stripe.Truthful(w'.stripe, w'.stripe.events[i]) {
        TruthLasts(w.stripe, w'.stripe, w.stripe.events[i]);
      }
      forall t | 0 <= t < |w'.stripe.sessions| && w'.stripe.sessions[t].refunded > 0
        ensures Reported(w'.stripe, t, w'.stripe.sessions[t].refunded) {
        assert Reported(w.stripe, t, w.stripe.sessions[t].refunded);
      }
    }
    forall c | 0 <= c < |w'.charges| ensures ChargeLinked(c, w'.charges[c], w'.stripe.sessions) {
      if c < |w.charges| {
        assert ChargeLinked(c, w.charges[c], w.stripe.sessions);
      }
    }
    forall e: nat | Processed(w', e) ensures Reflected(w', e) {
      assert Processed(w, e);
      ReflectionLasts(w, w', e);
    }
  }

  lemma UnmatchedLasts(w: World, w': World, e: nat)
    requires w.outbox <= w'.outbox
    ensures Unmatched(w, e) ==> Unmatched(w', e)
  {
    if Unmatched(w, e) {
      var k :| 0 <= k < |w.outbox| && w.outbox[k].RefundedExternally? && w.outbox[k].event == e && w.outbox[k].matched == None;
      assert w'.outbox[k] == w.outbox[k];
    }
  }

  /** One charge row changes, its refunded amount not falling and staying within Stripe's. */
  lemma ChargeChanged(w: World, w': World, c: nat, charge: Charge)
    requires Ledger(w) && c < |w.charges|
    requires w'.charges == w.charges[c := charge]
    requires w'.stripe == w.stripe && w.outbox <= w'.outbox && w'.webhookEvents == w.webhookEvents
    requires charge.bookingId == w.charges[c].bookingId && charge.kind == w.charges[c].kind
    requires charge.amount == w.charges[c].amount && charge.sessionId == w.charges[c].sessionId
    requires charge.paymentIntentId == w.charges[c].paymentIntentId
    requires w.charges[c].refunded <= charge.refunded
    requires charge.paymentIntentId.Some? ==> charge.refunded <= w.stripe.sessions[charge.paymentIntentId.value].refunded
    requires charge.paymentIntentId.None? ==> charge.refunded == 0
    ensures Ledger(w') && Advances(w, w')
  {
    forall d | 0 <= d < |w'.charges| ensures ChargeLinked(d, w'.charges[d], w'.stripe.sessions) {
      assert ChargeLinked(d, w.charges[d], w.stripe.sessions);
    }
    forall e: nat | Processed(w', e) ensures Reflected(w', e) {
      assert Processed(w, e);
      ReflectionLasts(w, w', e);
    }
  }

  /** Nothing of the books changes; the outbox may grow. */
  lemma BooksUntouched(w: World, w': World)
    requires Ledger(w)
    requires w'.charges == w.charges && w'.stripe == w.stripe && w'.webhookEvents == w.webhookEvents && w.outbox <= w'.outbox
    ensures Ledger(w') && Advances(w, w')
  {
    forall e: nat | Processed(w', e) ensures Reflected(w', e) {
      assert Processed(w, e);
      ReflectionLasts(w, w', e);
    }
  }

  /** Two charges never share a PaymentIntent. */
  lemma PaymentIntentUnique(w: World, c: nat, d: nat)
    requires Linked(w) && c < |w.charges| && d < |w.charges|
    requires w.charges[c].paymentIntentId.Some? && w.charges[c].paymentIntentId == w.charges[d].paymentIntentId
    ensures c == d
  {
    assert ChargeLinked(c, w.charges[c], w.stripe.sessions);
    assert ChargeLinked(d, w.charges[d], w.stripe.sessions);
  }

  // ---- the operations ----

  lemma RefundCallKeeps(w: World, t: RefundTicket)
    requires Ledger(w)
    ensures Ledger(RefundCall(w, t).0) && Advances(w, RefundCall(w, t).0)
    ensures RefundCall(w, t).0 == w.(stripe := RefundCall(w, t).0.stripe)
  {
    if RefundCall(w, t).1.Success? {
      RefundAtStripe(w.stripe, t.snapshot.paymentIntentId.value, Money.ToColumn(t.dollars));
      StripeMoves(w, RefundCall(w, t).0);
    } else {
      BooksUntouched(w, w);
    }
  }

  /** The commit stores exactly what Stripe paid out, however many decimals were asked for. */
  lemma CommitStoresTheSum(w: World, t: RefundTicket, refundId: nat)
    requires RefundCommit(w, t, refundId).1.Success?
    ensures t.charge < |w.charges|
    ensures var charge := RefundCommit(w, t, refundId).0.charges[t.charge];
            && charge.refunded == t.snapshot.refunded + Money.ToColumn(t.dollars)
            && (charge.status == w.charges[t.charge].status || charge.status == Refunded)
            && RefundCommit(w, t, refundId).0.charges == w.charges[t.charge := charge]
            && charge == w.charges[t.charge].(refunded := charge.refunded, status := charge.status)
  {
    Money.ToColumnShift(t.snapshot.refunded, t.dollars);
  }

  lemma RefundChargeKeeps(w: World, c: nat, dollars: real)
    requires Ledger(w)
    ensures Ledger(RefundCharge(w, c, dollars).0) && Advances(w, RefundCharge(w, c, dollars).0)
  {
    BooksUntouched(w, w);
    if RefundRead(w, c, dollars).Success? {
      var t := RefundRead(w, c, dollars).value;
      RefundCallKeeps(w, t);
      var (called, refund) := RefundCall(w, t);
      if refund.Success? && RefundCommit(called, t, refund.value).1.Success? {
        CommitStoresTheSum(called, t, refund.value);
        var done := RefundCommit(called, t, refund.value).0;
        assert ChargeLinked(c, w.charges[c], w.stripe.sessions);
        ChargeChanged(called, done, c, done.charges[c]);
        AdvancesTransitive(w, called, done);
      }
    }
  }

  lemma CancelKeeps(w: World, id: nat, now: int)
    requires Ledger(w)
    ensures Ledger(Cancel(w, id, now).0) && Advances(w, Cancel(w, id, now).0)
  {
    BooksUntouched(w, w);
    if CancelRead(w, id, now).Success? {
      var t := CancelRead(w, id, now).value;
      var (claimed, won) := CancelClaim(w, t);
      BooksUntouched(w, claimed);
      if won {
        CancelRefundKeeps(claimed, t);
        var (paid, refund) := CancelRefund(claimed, t);
        AdvancesTransitive(w, claimed, paid);
        if refund.Success? {
          var done := CancelCommit(paid, t, refund.value).0;
          if CancelCommit(paid, t, refund.value).1.Failure? || refund.value == 0 {
            BooksUntouched(paid, done);
          } else {
            var c := t.charge.value;
            assert ChargeLinked(c, w.charges[c], w.stripe.sessions);
            ChargeChanged(paid, done, c, done.charges[c]);
          }
          AdvancesTransitive(w, paid, done);
        }
      }
    }
  }

  lemma CancelRefundKeeps(w: World, t: CancelTicket)
    requires Ledger(w)
    ensures Ledger(CancelRefund(w, t).0) && Advances(w, CancelRefund(w, t).0)
    ensures CancelRefund(w, t).0 == w.(stripe := CancelRefund(w, t).0.stripe)
    ensures CancelRefund(w, t).1.Success? ==> CancelRefund(w, t).1.value == CancelRefundCents(t)
    ensures CancelRefund(w, t).1.Success? && CancelRefundCents(t) > 0 ==>
              var pi := t.snapshot.value.paymentIntentId.value;
              && pi < |w.stripe.sessions|
              && CancelRefund(w, t).0.stripe.sessions[pi].refunded == w.stripe.sessions[pi].refunded + CancelRefundCents(t)
  {
    var cents := CancelRefundCents(t);
    if cents > 0 && CancelRefund(w, t).1.Success? {
      RefundAtStripe(w.stripe, t.snapshot.value.paymentIntentId.value, cents);
      StripeMoves(w, CancelRefund(w, t).0);
    } else {
      BooksUntouched(w, w);
    }
  }

  lemma ModifyDatesKeeps(w: World, id: nat, checkIn: int, checkOut: int, timestamp: int)
    requires Ledger(w)
    ensures Ledger(ModifyDates(w, id, checkIn, checkOut, timestamp).0)
    ensures Advances(w, ModifyDates(w, id, checkIn, checkOut, timestamp).0)
  {
    BooksUntouched(w, w);
    var done := ModifyDates(w, id, checkIn, checkOut, timestamp).0;
    if done == w {
    } else {
      var b := w.bookings[id];
      var q := Pricing.GetQuote(w.property, w.jurisdictions, checkIn, checkOut).value;
      var cents := DropRefundCents(w, id, q.subtotal + q.totalTax - b.Total());
      if cents == 0 {
        BooksUntouched(w, done);
      } else {
        var c := FindInitial(w.charges, id).value;
        var pi := w.charges[c].paymentIntentId.value;
        RefundAtStripe(w.stripe, pi, cents);
        var called := w.(stripe := Stripe.CreateRefund(w.stripe, pi, cents).value);
        StripeMoves(w, called);
        if ModifyDates(w, id, checkIn, checkOut, timestamp).1.Success? {
          assert ChargeLinked(c, w.charges[c], w.stripe.sessions);
          ChargeChanged(called, done, c, done.charges[c]);
          AdvancesTransitive(w, called, done);
        } else {
          assert done == called;
        }
      }
    }
  }

  /** A payment may record the PaymentIntent late; refund events seen before that are in the outbox
      as unmatched. */
  lemma CheckoutKeeps(w: World, session: nat, pi: Option<nat>)
    requires Ledger(w) && Stripe.Truthful(w.stripe, Stripe.CheckoutCompleted(session, pi))
    ensures Ledger(HandleCheckoutSucceeded(w, session, pi).0) && Advances(w, HandleCheckoutSucceeded(w, session, pi).0)
    ensures HandleCheckoutSucceeded(w, session, pi).0.stripe == w.stripe
  {
    BooksUntouched(w, w);
    var w' := HandleCheckoutSucceeded(w, session, pi).0;
    if w' != w {
      var c := FindBySession(w.charges, session).value;
      assert ChargeLinked(c, w.charges[c], w.stripe.sessions);
      assert SessionSound(w.stripe.sessions[session]);
      forall d | 0 <= d < |w'.charges| ensures ChargeLinked(d, w'.charges[d], w'.stripe.sessions) {
        assert ChargeLinked(d, w.charges[d], w.stripe.sessions);
      }
      forall e: nat | Processed(w', e) ensures Reflected(w', e) {
        assert Processed(w, e);
        ReflectionLasts(w, w', e);
      }
    }
  }

  lemma HandleRefundKeeps(w: World, event: nat)
    requires Ledger(w) && event < |w.stripe.events| && w.stripe.events[event].ChargeRefunded?
    ensures var e := w.stripe.events[event];
            var (w', r) := HandleChargeRefunded(w, event, e.paymentIntent, e.amountRefunded, e.full);
            && Ledger(w') && Advances(w, w') && w'.stripe == w.stripe
            && (r.Success? ==> Reflected(w', event))
  {
    var e := w.stripe.events[event];
    var total := if e.amountRefunded.Some? then e.amountRefunded.value else 0;
    var (w', r) := HandleChargeRefunded(w, event, e.paymentIntent, e.amountRefunded, e.full);
    var found := FindByPaymentIntent(w.charges, e.paymentIntent);
    BooksUntouched(w, w);
    assert Stripe.Truthful(w.stripe, e);
    if found.None? {
      BooksUntouched(w, w');
      if r.Success? {
        assert w'.outbox[|w.outbox|] == RefundedExternally(None, event, total);
      }
    } else {
      var c := found.value;
      assert ChargeLinked(c, w.charges[c], w.stripe.sessions);
      if !Money.Covers(w.charges[c].refunded, total) {
        ChargeChanged(w, w', c, w'.charges[c]);
      }
      assert e.amountRefunded.Some? ==> Shows(w'.charges[c], e.paymentIntent, total);
    }
  }

  lemma HandleKeeps(w: World, event: nat)
    requires Ledger(w) && event < |w.stripe.events|
    ensures var (w', r) := Handle(w, event, w.stripe.events[event]);
            && Ledger(w') && Advances(w, w') && w'.stripe == w.stripe
            && (r.Success? ==> Reflected(w', event))
  {
    var e := w.stripe.events[event];
    var (w', r) := Handle(w, event, e);
    match e
    case CheckoutCompleted(s, pi) => CheckoutKeeps(w, s, pi);
    case ChargeRefunded(pi, total, full) => HandleRefundKeeps(w, event);
    case _ => BooksUntouched(w, w');
  }

  lemma EventRowAdded(w: World, event: nat, w': World)
    requires Ledger(w) && event < |w.stripe.events| && event !in w.webhookEvents
    requires w' == w.(webhookEvents := w.webhookEvents[event := false])
    ensures Ledger(w') && Advances(w, w')
  {
    forall e: nat | Processed(w', e) ensures Reflected(w', e) {
      assert Processed(w, e);
      ReflectionLasts(w, w', e);
    }
  }

  lemma ReceiveKeeps(w: World, event: nat)
    requires Ledger(w)
    ensures Ledger(Receive(w, event).0) && Advances(w, Receive(w, event).0)
  {
    BooksUntouched(w, w);
    if event < |w.stripe.events| && event !in w.webhookEvents {
      var recorded := w.(webhookEvents := w.webhookEvents[event := false]);
      EventRowAdded(w, event, recorded);
      HandleKeeps(recorded, event);
      var (handled, r) := Handle(recorded, event, w.stripe.events[event]);
      AdvancesTransitive(w, recorded, handled);
      if r.Success? {
        var done := Receive(w, event).0;
        assert done == handled.(webhookEvents := handled.webhookEvents[event := true]);
        forall e: nat | Processed(done, e) ensures Reflected(done, e) {
          if e != event {
            assert Processed(handled, e);
          }
          assert Reflected(handled, e);
          assert Unmatched(done, e) == Unmatched(handled, e);
        }
      }
    }
  }

  lemma DieInReceiveKeeps(w: World, event: nat)
    requires Ledger(w)
    ensures Ledger(DieInReceive(w, event)) && Advances(w, DieInReceive(w, event))
  {
    BooksUntouched(w, w);
    if event < |w.stripe.events| && event !in w.webhookEvents {
      var recorded := w.(webhookEvents := w.webhookEvents[event := false]);
      EventRowAdded(w, event, recorded);
      HandleKeeps(recorded, event);
      AdvancesTransitive(w, recorded, DieInReceive(w, event));
    }
  }

  lemma PayKeeps(w: World, session: nat, named: bool)
    requires Ledger(w)
    ensures var w' := w.(stripe := Stripe.Pay(w.stripe, session, named));
            Ledger(w') && Advances(w, w')
  {
    var b := Stripe.Pay(w.stripe, session, named);
    if b == w.stripe {
      BooksUntouched(w, w);
      assert w.(stripe := b) == w;
    } else {
      EventAtStripe(w.stripe, b, b.events[|w.stripe.events|]);
      StripeMoves(w, w.(stripe := b));
    }
  }

  lemma EmitKeeps(w: World, e: Stripe.Event)
    requires Ledger(w)
    ensures var w' := w.(stripe := Stripe.Emit(w.stripe, e));
            Ledger(w') && Advances(w, w')
  {
    var b := Stripe.Emit(w.stripe, e);
    if Stripe.Truthful(w.stripe, e) {
      EventAtStripe(w.stripe, b, e);
      StripeMoves(w, w.(stripe := b));
    } else {
      BooksUntouched(w, w);
      assert w.(stripe := b) == w;
    }
  }

  lemma ChargeOpKeeps(w: World, op: Op)
    requires Ledger(w) && (op.DoApprove? || op.DoAdHocCharge? || op.CrashInApprove? || op.CrashInAdHocCharge?)
    ensures Ledger(Apply(w, op)) && Advances(w, Apply(w, op))
  {
    hide Ledger, Advances, HasRealConflict, Money.ToColumn;
    var w' := Apply(w, op);
    if w'.charges == w.charges {
      BooksUntouched(w, w');
    } else {
      ChargeAdded(w, w', w'.charges[|w.charges|]);
    }
  }

  lemma OutsideRefundKeeps(w: World, op: Op)
    requires Ledger(w) && op.RefundOutside?
    ensures Ledger(Apply(w, op)) && Advances(w, Apply(w, op))
  {
    if Stripe.CreateRefund(w.stripe, op.paymentIntent, op.cents).Success? {
      RefundAtStripe(w.stripe, op.paymentIntent, op.cents);
      hide Stripe.CreateRefund;
      StripeMoves(w, Apply(w, op));
    } else {
      BooksUntouched(w, w);
    }
  }

  /** The operations that touch no charge, nothing at Stripe and no event row. */
  lemma QuietOpKeeps(w: World, op: Op)
    requires Ledger(w)
    requires op.DoCreateInquiry? || op.DoTransition? || op.DoConvert? || op.DoDecline? || op.CrashInCancel? || op.SetBlocks? || op.SetPrices?
    ensures Ledger(Apply(w, op)) && Advances(w, Apply(w, op))
  {
    hide Ledger, Advances, CanEnqueue, Pricing.GetQuote, CancelRead;
    BooksUntouched(w, Apply(w, op));
  }

  /** Every operation keeps the books and never lowers a refunded amount. */
  lemma StepKeepsLedger(w: World, op: Op)
    requires Ledger(w)
    ensures Ledger(Apply(w, op)) && Advances(w, Apply(w, op))
  {
    hide Ledger, Advances, Stripe.CreateRefund, Stripe.Pay, Stripe.Emit;
    hide CreateInquiry, TransitionInquiry, ConvertInquiry, Approve, DieInApprove, Decline, Cancel, DieInCancel;
    hide ModifyDates, CreateAdHocCharge, DieInAdHocCharge, RefundCharge, Receive, DieInReceive;
    match op
    case DoApprove(_, _) => ChargeOpKeeps(w, op);
    case DoAdHocCharge(_, _, _, _, _) => ChargeOpKeeps(w, op);
    case CrashInApprove(_, _) => ChargeOpKeeps(w, op);
    case CrashInAdHocCharge(_, _, _, _, _) => ChargeOpKeeps(w, op);
    case CrashInDelivery(e) => DieInReceiveKeeps(w, e);
    case DoCancel(id, now) => CancelKeeps(w, id, now);
    case DoModifyDates(id, i, o, ts) => ModifyDatesKeeps(w, id, i, o, ts);
    case DoRefund(c, dollars) => RefundChargeKeeps(w, c, dollars);
    case Deliver(e) => ReceiveKeeps(w, e);
    case LoseDelivery(e) =>
      if Apply(w, op) != w { EventRowAdded(w, e, Apply(w, op)); } else { BooksUntouched(w, w); }
    case GuestPays(s, named) => PayKeeps(w, s, named);
    case RefundOutside(pi, cents) => OutsideRefundKeeps(w, op);
    case StripeEmits(e) => EmitKeeps(w, e);
    case _ => QuietOpKeeps(w, op);
  }

  // ---- the results over runs ----

  lemma {:induction false} RunKeepsLedger(w: World, ops: seq<Op>)
    requires Ledger(w)
    ensures Ledger(Run(w, ops)) && Advances(w, Run(w, ops))
    decreases |ops|
  {
    if ops == [] {
      BooksUntouched(w, w);
    } else {
      StepKeepsLedger(w, ops[0]);
      RunKeepsLedger(Apply(w, ops[0]), ops[1..]);
      AdvancesTransitive(w, Apply(w, ops[0]), Run(w, ops));
    }
  }

  /** In every run: local refundedAmount <= Stripe's total <= amount, and refundedAmount never falls. */
  lemma RefundLedger(unique: bool, before: seq<Op>, after: seq<Op>, c: nat)
    requires c < |Run(Empty(unique), before).charges|
    requires Run(Empty(unique), before).charges[c].paymentIntentId.Some?
    ensures var mid := Run(Empty(unique), before);
            var end := Run(mid, after);
            var pi := mid.charges[c].paymentIntentId.value;
            && c < |end.charges| && pi < |end.stripe.sessions|
            && mid.charges[c].refunded <= end.charges[c].refunded
            && end.charges[c].refunded <= end.stripe.sessions[pi].refunded <= end.charges[c].amount
  {
    assert Ledger(Empty(unique));
    RunKeepsLedger(Empty(unique), before);
    var mid := Run(Empty(unique), before);
    RunKeepsLedger(mid, after);
    var end := Run(mid, after);
    assert ChargeLinked(c, mid.charges[c], mid.stripe.sessions);
    assert ChargeLinked(c, end.charges[c], end.stripe.sessions);
    assert SessionSound(end.stripe.sessions[mid.charges[c].paymentIntentId.value]);
  }

  /** Every refund event of this PaymentIntent was handled to its end. */
  ghost predicate AllProcessed(w: World, pi: nat) {
    forall e: nat :: e < |w.stripe.events| && w.stripe.events[e].ChargeRefunded? && w.stripe.events[e].paymentIntent == Some(pi)
                     ==> Processed(w, e)
  }

  /** Every refund event of this PaymentIntent was handled to the end, with the PaymentIntent on file. */
  ghost predicate AllRefundEventsHandled(w: World, pi: nat) {
    forall e: nat :: e < |w.stripe.events| && w.stripe.events[e].ChargeRefunded? && w.stripe.events[e].paymentIntent == Some(pi)
                     ==> Processed(w, e) && !Unmatched(w, e)
  }

  /** Once every refund event has been handled, the local column equals Stripe's total. */
  lemma SettledOnceHandled(w: World, c: nat)
    requires Ledger(w) && c < |w.charges| && w.charges[c].paymentIntentId.Some?
    requires AllRefundEventsHandled(w, w.charges[c].paymentIntentId.value)
    ensures w.charges[c].refunded == w.stripe.sessions[w.charges[c].paymentIntentId.value].refunded
  {
    var pi := w.charges[c].paymentIntentId.value;
    assert ChargeLinked(c, w.charges[c], w.stripe.sessions);
    var total := w.stripe.sessions[pi].refunded;
    if total > 0 {
      var e :| 0 <= e < |w.stripe.events| && Reports(w.stripe.events[e], pi, total);
      assert Processed(w, e) && Reflected(w, e);
      var d :| 0 <= d < |w.charges| && Shows(w.charges[d], Some(pi), total);
      PaymentIntentUnique(w, c, d);
    }
  }

  /** A delivery whose handler failed is never made up for: later deliveries of the event stop at its row. */
  lemma {:induction false} FailedDeliveryStaysLost(w: World, ops: seq<Op>, e: nat)
    requires Ledger(w) && e in w.webhookEvents && !w.webhookEvents[e]
    ensures var end := Run(w, ops);
            && e in end.webhookEvents && !Processed(end, e)
            && Apply(end, Deliver(e)) == end
  {
    RunKeepsLedger(w, ops);
  }

  /** In every run: once each refund event of the charge's PaymentIntent has been handled with the
      PaymentIntent on file, the local column and Stripe agree. */
  lemma LocalEqualsStripeOnceHandled(unique: bool, ops: seq<Op>, c: nat)
    requires var w := Run(Empty(unique), ops);
             && c < |w.charges| && w.charges[c].paymentIntentId.Some?
             && AllRefundEventsHandled(w, w.charges[c].paymentIntentId.value)
    ensures var w := Run(Empty(unique), ops);
            && w.charges[c].paymentIntentId.value < |w.stripe.sessions|
            && w.charges[c].refunded == w.stripe.sessions[w.charges[c].paymentIntentId.value].refunded
  {
    RunKeepsLedger(Empty(unique), ops);
    var w := Run(Empty(unique), ops);
    assert ChargeLinked(c, w.charges[c], w.stripe.sessions);
    SettledOnceHandled(w, c);
  }
}
