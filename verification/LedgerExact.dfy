/** Exactly when the books agree once every refund event of a charge has been handled. */
module LedgerExact {
  import opened Wrappers
  import opened Schema
  import opened Operations
  import opened Ledger
  import Money
  import Pricing
  import Scenarios
  import Stripe

  /** Some event reports this total of the PaymentIntent and did not come while no charge carried it. */
  ghost predicate Matched(w: World, pi: nat, total: int) {
    exists e :: 0 <= e < |w.stripe.events| && Reports(w.stripe.events[e], pi, total) && !Unmatched(w, e)
  }

  predicate NoChargeFound(row: OutboxRow) {
    row.RefundedExternally? && row.matched == None
  }

  /** Delivered events exist; an unmatched event was delivered; a charge that agrees with Stripe owes it
      to an event that is not unmatched. */
  ghost predicate Tracked(w: World) {
    && (forall e :: e in w.webhookEvents ==> e < |w.stripe.events|)
    && (forall k :: 0 <= k < |w.outbox| && NoChargeFound(w.outbox[k]) ==> w.outbox[k].event in w.webhookEvents)
    && (forall c :: 0 <= c < |w.charges| ==> Settled(w, c))
  }

  ghost predicate Settled(w: World, c: nat)
    requires c < |w.charges|
  {
    w.charges[c].paymentIntentId.Some? ==>
      var pi := w.charges[c].paymentIntentId.value;
      pi < |w.stripe.sessions|
      && (w.charges[c].refunded == w.stripe.sessions[pi].refunded > 0 ==> Matched(w, pi, w.stripe.sessions[pi].refunded))
  }

  lemma UnmatchedIsDelivered(w: World, e: nat)
    requires Tracked(w) && Unmatched(w, e)
    ensures e in w.webhookEvents && e < |w.stripe.events|
  {
    var k :| 0 <= k < |w.outbox| && NoChargeFound(w.outbox[k]) && w.outbox[k].event == e;
  }

  // ---- everything but deliveries ----

  /** No event is delivered, and a local amount only moves together with Stripe's. */
  ghost predicate MovesWithStripe(w: World, w': World) {
    && w'.webhookEvents == w.webhookEvents
    && |w.charges| <= |w'.charges|
    && (forall c :: 0 <= c < |w.charges| ==>
          && w'.charges[c].paymentIntentId == w.charges[c].paymentIntentId
          && (w'.charges[c].refunded != w.charges[c].refunded ==> StripePaid(w, w', w.charges[c].paymentIntentId)))
    && (forall c :: |w.charges| <= c < |w'.charges| ==> w'.charges[c].refunded == 0)
    && w.outbox <= w'.outbox
    && (forall k :: |w.outbox| <= k < |w'.outbox| ==> !NoChargeFound(w'.outbox[k]))
  }

  predicate StripePaid(w: World, w': World, pi: Option<nat>) {
    && pi.Some? && pi.value < |w.stripe.sessions| && pi.value < |w'.stripe.sessions|
    && w'.stripe.sessions[pi.value].refunded > w.stripe.sessions[pi.value].refunded
  }

  lemma SameUnmatched(w: World, w': World, e: nat)
    requires w.outbox <= w'.outbox && forall k :: |w.outbox| <= k < |w'.outbox| ==> !NoChargeFound(w'.outbox[k])
    ensures Unmatched(w', e) ==> Unmatched(w, e)
  {
    if Unmatched(w', e) {
      var k :| 0 <= k < |w'.outbox| && NoChargeFound(w'.outbox[k]) && w'.outbox[k].event == e;
      assert w.outbox[k] == w'.outbox[k];
    }
  }

  lemma MatchLasts(w: World, w': World, pi: nat, total: int)
    requires Matched(w, pi, total) && w.stripe.events <= w'.stripe.events
    requires w.outbox <= w'.outbox && forall k :: |w.outbox| <= k < |w'.outbox| ==> !NoChargeFound(w'.outbox[k])
    ensures Matched(w', pi, total)
  {
    var e :| 0 <= e < |w.stripe.events| && Reports(w.stripe.events[e], pi, total) && !Unmatched(w, e);
    SameUnmatched(w, w', e);
    assert w'.stripe.events[e] == w.stripe.events[e];
  }

  /** A total that grew is reported by a new event, which was not delivered yet. */
  lemma NewTotalIsMatched(w: World, w': World, pi: nat)
    requires Ledger.Ledger(w) && Ledger.Ledger(w') && Tracked(w) && MovesWithStripe(w, w') && StripeGrows(w.stripe, w'.stripe)
    requires StripePaid(w, w', Some(pi))
    ensures Matched(w', pi, w'.stripe.sessions[pi].refunded)
  {
    var total := w'.stripe.sessions[pi].refunded;
    assert SessionSound(w.stripe.sessions[pi]);
    var e :| 0 <= e < |w'.stripe.events| && Reports(w'.stripe.events[e], pi, total);
    if e < |w.stripe.events| {
      assert Stripe.Truthful(w.stripe, w.stripe.events[e]);
    }
    SameUnmatched(w, w', e);
    if Unmatched(w, e) {
      UnmatchedIsDelivered(w, e);
    }
  }

  lemma MoveKeepsSettled(w: World, w': World, c: nat)
    requires Ledger.Ledger(w) && Ledger.Ledger(w') && Advances(w, w') && Tracked(w) && MovesWithStripe(w, w') && c < |w'.charges|
    ensures Settled(w', c)
  {
    assert ChargeLinked(c, w'.charges[c], w'.stripe.sessions);
    if c < |w.charges| && w.charges[c].paymentIntentId.Some? {
      var pi := w.charges[c].paymentIntentId.value;
      assert ChargeLinked(c, w.charges[c], w.stripe.sessions);
      assert Settled(w, c);
      if StripePaid(w, w', Some(pi)) {
        NewTotalIsMatched(w, w', pi);
      } else if w.charges[c].refunded == w.stripe.sessions[pi].refunded > 0 {
        MatchLasts(w, w', pi, w.stripe.sessions[pi].refunded);
      }
    }
  }

  lemma MoveKeepsTracked(w: World, w': World)
    requires Ledger.Ledger(w) && Ledger.Ledger(w') && Advances(w, w') && Tracked(w) && MovesWithStripe(w, w')
    ensures Tracked(w')
  {
    forall c | 0 <= c < |w'.charges| ensures Settled(w', c) {
      MoveKeepsSettled(w, w', c);
    }
  }

  // ---- which operations these are ----

  lemma RefundChargeMoves(w: World, c: nat, dollars: real)
    requires Ledger.Ledger(w)
    ensures MovesWithStripe(w, RefundCharge(w, c, dollars).0)
  {
    if RefundRead(w, c, dollars).Success? {
      var t := RefundRead(w, c, dollars).value;
      assert ChargeLinked(c, w.charges[c], w.stripe.sessions);
      hide Ledger.Ledger, CanEnqueue, Money.ToColumn;
    }
  }

  /** The commit of a cancellation that Stripe has paid for, if it refunds anything. */
  lemma CommitMovesWithStripe(w: World, paid: World, t: CancelTicket, cents: int)
    requires paid == w.(stripe := paid.stripe, bookings := paid.bookings)
    requires cents > 0 && t.charge.Some? && t.charge.value < |w.charges| ==>
               t.snapshot.Some? && t.snapshot.value == w.charges[t.charge.value] && StripePaid(w, paid, t.snapshot.value.paymentIntentId)
    ensures MovesWithStripe(w, CancelCommit(paid, t, cents).0)
  {
    hide CanEnqueue, Money.Covers;
  }

  lemma CancelMovesWithStripe(w: World, id: nat, now: int)
    requires Ledger.Ledger(w)
    ensures MovesWithStripe(w, Cancel(w, id, now).0)
  {
    if CancelRead(w, id, now).Success? {
      var t := CancelRead(w, id, now).value;
      var (claimed, won) := CancelClaim(w, t);
      BooksUntouched(w, claimed);
      CancelRefundKeeps(claimed, t);
      var (paid, refund) := CancelRefund(claimed, t);
      assert claimed == w.(bookings := claimed.bookings);
      assert t.charge.Some? ==> t.charge.value < |w.charges| && t.snapshot == Some(w.charges[t.charge.value]);
      hide Ledger.Ledger, CancelRead, CancelClaim, CancelRefund, CancelCommit;
      if won && refund.Success? {
        CommitMovesWithStripe(w, paid, t, refund.value);
      }
    }
  }

  lemma NewDatesMoveWithStripe(w: World, id: nat, checkIn: int, checkOut: int, q: Pricing.Quote, timestamp: int)
    requires id < |w.bookings|
    ensures MovesWithStripe(w, ApplyNewDates(w, id, checkIn, checkOut, q, timestamp).0)
  {
    hide FindInitial, CanEnqueue;
  }

  lemma ModifyMovesWithStripe(w: World, id: nat, checkIn: int, checkOut: int, timestamp: int)
    ensures MovesWithStripe(w, ModifyDates(w, id, checkIn, checkOut, timestamp).0)
  {
    hide ApplyNewDates, HasRealConflict, Pricing.GetQuote;
    var quote := Pricing.GetQuote(w.property, w.jurisdictions, checkIn, checkOut);
    if id < |w.bookings| && quote.Success? {
      NewDatesMoveWithStripe(w, id, checkIn, checkOut, quote.value, timestamp);
    }
  }

  lemma NewChargesMoveWithStripe(w: World, op: Op)
    requires op.DoApprove? || op.CrashInApprove? || op.DoAdHocCharge? || op.CrashInAdHocCharge?
    ensures MovesWithStripe(w, Apply(w, op))
  {
    hide CanEnqueue, HasRealConflict, Money.ToColumn;
  }

  lemma ServiceOthersMoveWithStripe(w: World, op: Op)
    requires !op.DoCancel? && !op.DoModifyDates? && !op.DoRefund? && !op.Deliver? && !op.LoseDelivery? && !op.CrashInDelivery?
    requires !op.DoApprove? && !op.CrashInApprove? && !op.DoAdHocCharge? && !op.CrashInAdHocCharge?
    requires !ByEnvironment(op)
    ensures MovesWithStripe(w, Apply(w, op))
  {
    hide CanEnqueue, Pricing.GetQuote, CancelRead;
  }

  lemma OthersMoveWithStripe(w: World, op: Op)
    requires !op.DoCancel? && !op.DoModifyDates? && !op.DoRefund? && !op.Deliver? && !op.LoseDelivery? && !op.CrashInDelivery?
    ensures MovesWithStripe(w, Apply(w, op))
  {
    hide Apply;
    if ByEnvironment(op) { EnvironmentLeaves(w, op); }
    else if op.DoApprove? || op.CrashInApprove? || op.DoAdHocCharge? || op.CrashInAdHocCharge? { NewChargesMoveWithStripe(w, op); }
    else { ServiceOthersMoveWithStripe(w, op); }
  }

  // ---- deliveries ----

  lemma RowKeepsTracked(w: World, e: nat, recorded: World)
    requires Tracked(w) && e < |w.stripe.events| && e !in w.webhookEvents
    requires recorded == w.(webhookEvents := recorded.webhookEvents) && recorded.webhookEvents.Keys == w.webhookEvents.Keys + {e}
    ensures Tracked(recorded)
  {
    forall c | 0 <= c < |recorded.charges| ensures Settled(recorded, c) {
      assert Settled(w, c);
      assert forall k :: Unmatched(recorded, k) == Unmatched(w, k);
      if w.charges[c].paymentIntentId.Some? && w.charges[c].refunded == w.stripe.sessions[w.charges[c].paymentIntentId.value].refunded > 0 {
        MatchLasts(w, recorded, w.charges[c].paymentIntentId.value, w.charges[c].refunded);
      }
    }
  }

  lemma CheckoutKeepsTracked(w: World, session: nat, pi: Option<nat>)
    requires Ledger.Ledger(w) && Tracked(w) && Stripe.Truthful(w.stripe, Stripe.CheckoutCompleted(session, pi))
    ensures Tracked(HandleCheckoutSucceeded(w, session, pi).0)
  {
    var w' := HandleCheckoutSucceeded(w, session, pi).0;
    CheckoutKeeps(w, session, pi);
    hide Ledger.Ledger, FindBySession, Settled;
    forall c | 0 <= c < |w'.charges| ensures Settled(w', c) {
      PaidStaysSettled(w, w', c);
    }
  }

  /** A charge with refunds had its PaymentIntent before. */
  lemma PaidStaysSettled(w: World, w': World, c: nat)
    requires Ledger.Ledger(w) && Ledger.Ledger(w') && w'.stripe == w.stripe && w.outbox <= w'.outbox
    requires forall k :: |w.outbox| <= k < |w'.outbox| ==> !NoChargeFound(w'.outbox[k])
    requires c < |w.charges| == |w'.charges| && w'.charges[c].refunded == w.charges[c].refunded && Settled(w, c)
    requires w.charges[c].paymentIntentId.Some? ==> w'.charges[c].paymentIntentId == w.charges[c].paymentIntentId
    ensures Settled(w', c)
  {
    assert ChargeLinked(c, w.charges[c], w.stripe.sessions) && ChargeLinked(c, w'.charges[c], w'.stripe.sessions);
    hide Ledger.Ledger;
    if w'.charges[c].refunded > 0 && w'.charges[c].refunded == w'.stripe.sessions[w'.charges[c].paymentIntentId.value].refunded {
      MatchLasts(w, w', w'.charges[c].paymentIntentId.value, w'.charges[c].refunded);
    }
  }

  /** The event is a new one, so no row calls it unmatched; if it matches now, the new row does not either. */
  lemma RefundEventKeepsTracked(w: World, e: nat)
    requires Ledger.Ledger(w) && Tracked(w) && e < |w.stripe.events| && w.stripe.events[e].ChargeRefunded?
    requires e in w.webhookEvents && !Unmatched(w, e)
    ensures Tracked(Handle(w, e, w.stripe.events[e]).0)
  {
    var event := w.stripe.events[e];
    HandleKeeps(w, e);
    var w' := Handle(w, e, event).0;
    forall c | 0 <= c < |w'.charges| ensures Settled(w', c) {
      RefundEventSettles(w, e, c);
    }
    hide Ledger.Ledger, Settled, FindByPaymentIntent, CanEnqueue;
  }

  lemma RefundEventSettles(w: World, e: nat, c: nat)
    requires Ledger.Ledger(w) && Tracked(w) && e < |w.stripe.events| && w.stripe.events[e].ChargeRefunded? && !Unmatched(w, e)
    requires c < |w.charges|
    ensures var w' := Handle(w, e, w.stripe.events[e]).0;
            |w'.charges| == |w.charges| && Settled(w', c)
  {
    var event := w.stripe.events[e];
    HandleKeeps(w, e);
    var w' := Handle(w, e, event).0;
    var found := FindByPaymentIntent(w.charges, event.paymentIntent);
    assert ChargeLinked(c, w.charges[c], w.stripe.sessions) && ChargeLinked(c, w'.charges[c], w'.stripe.sessions);
    assert Settled(w, c) && Stripe.Truthful(w.stripe, event);
    assert w.charges[c].paymentIntentId.Some? && w.charges[c].paymentIntentId == event.paymentIntent ==> found.Some?;
    if found.Some? {
      MatchedRow(w, e, c);
    } else if w.charges[c].refunded > 0 && w.charges[c].refunded == w.stripe.sessions[w.charges[c].paymentIntentId.value].refunded {
      OtherChargeStays(w, w', e, w.charges[c].paymentIntentId.value, w.charges[c].refunded);
    }
  }

  /** The charge is found: the new row is matched, so every match lasts. */
  lemma MatchedRow(w: World, e: nat, c: nat)
    requires Ledger.Ledger(w) && Tracked(w) && e < |w.stripe.events| && w.stripe.events[e].ChargeRefunded? && !Unmatched(w, e)
    requires c < |w.charges| && FindByPaymentIntent(w.charges, w.stripe.events[e].paymentIntent).Some?
    ensures var w' := Handle(w, e, w.stripe.events[e]).0;
            |w'.charges| == |w.charges| && Settled(w', c)
  {
    var event := w.stripe.events[e];
    var w' := Handle(w, e, event).0;
    var found := FindByPaymentIntent(w.charges, event.paymentIntent).value;
    assert ChargeLinked(c, w.charges[c], w.stripe.sessions) && ChargeLinked(found, w.charges[found], w.stripe.sessions);
    assert Settled(w, c) && Stripe.Truthful(w.stripe, event);
    assert SessionSound(w.stripe.sessions[event.paymentIntent.value]);
    hide FindByPaymentIntent, CanEnqueue, Ledger.Ledger;
    SameUnmatched(w, w', e);
    if w'.charges[c].refunded == w.charges[c].refunded {
      if w.charges[c].refunded > 0 && w.charges[c].refunded == w.stripe.sessions[w.charges[c].paymentIntentId.value].refunded {
        MatchLasts(w, w', w.charges[c].paymentIntentId.value, w.charges[c].refunded);
      }
    } else {
      assert Reports(w'.stripe.events[e], w'.charges[c].paymentIntentId.value, w'.charges[c].refunded);
    }
  }

  /** No charge is found: the new row names an event of a PaymentIntent that no charge carries. */
  lemma OtherChargeStays(w: World, w': World, e: nat, pi: nat, total: int)
    requires Matched(w, pi, total) && w'.stripe == w.stripe && e < |w.stripe.events|
    requires w.stripe.events[e].ChargeRefunded? && w.stripe.events[e].paymentIntent != Some(pi)
    requires w.outbox <= w'.outbox && |w'.outbox| <= |w.outbox| + 1
    requires |w'.outbox| > |w.outbox| && NoChargeFound(w'.outbox[|w.outbox|]) ==> w'.outbox[|w.outbox|].event == e
    ensures Matched(w', pi, total)
  {
    var k :| 0 <= k < |w.stripe.events| && Reports(w.stripe.events[k], pi, total) && !Unmatched(w, k);
    assert forall r :: 0 <= r < |w.outbox| ==> w.outbox[r] == w'.outbox[r];
    assert !Unmatched(w', k);
  }

  lemma HandlerKeepsTracked(w: World, e: nat)
    requires Ledger.Ledger(w) && Tracked(w) && e < |w.stripe.events| && e in w.webhookEvents && !Unmatched(w, e)
    ensures Tracked(Handle(w, e, w.stripe.events[e]).0)
  {
    var event := w.stripe.events[e];
    assert Stripe.Truthful(w.stripe, event);
    match event
    case CheckoutCompleted(s, pi) => CheckoutKeepsTracked(w, s, pi);
    case ChargeRefunded(_, _, _) => RefundEventKeepsTracked(w, e);
    case _ =>
      HandleKeeps(w, e);
      hide Ledger.Ledger;
      MoveKeepsTracked(w, Handle(w, e, event).0);
  }

  lemma DeliveryKeepsTracked(w: World, e: nat)
    requires Ledger.Ledger(w) && Tracked(w)
    ensures Tracked(Receive(w, e).0) && Tracked(DieInReceive(w, e))
  {
    if e < |w.stripe.events| && e !in w.webhookEvents {
      var recorded := w.(webhookEvents := w.webhookEvents[e := false]);
      EventRowAdded(w, e, recorded);
      RowKeepsTracked(w, e, recorded);
      if Unmatched(w, e) {
        UnmatchedIsDelivered(w, e);
      }
      HandlerKeepsTracked(recorded, e);
      var handled := Handle(recorded, e, w.stripe.events[e]).0;
      HandleKeeps(recorded, e);
      hide Handle, Ledger.Ledger, Tracked;
      StampKeepsTracked(handled, Receive(w, e).0, e);
    }
  }

  lemma StampKeepsTracked(w: World, w': World, e: nat)
    requires Tracked(w) && e in w.webhookEvents
    requires w' == w || w' == w.(webhookEvents := w.webhookEvents[e := true])
    ensures Tracked(w')
  {
    forall c | 0 <= c < |w'.charges| ensures Settled(w', c) {
      assert Settled(w, c);
      if w.charges[c].paymentIntentId.Some? && w.charges[c].refunded == w.stripe.sessions[w.charges[c].paymentIntentId.value].refunded > 0 {
        MatchLasts(w, w', w.charges[c].paymentIntentId.value, w.charges[c].refunded);
      }
    }
  }

  // ---- steps and runs ----

  predicate IsDelivery(op: Op) {
    op.Deliver? || op.CrashInDelivery? || op.LoseDelivery?
  }

  lemma StepMovesWithStripe(w: World, op: Op)
    requires Ledger.Ledger(w) && !IsDelivery(op)
    ensures MovesWithStripe(w, Apply(w, op))
  {
    hide Ledger.Ledger, MovesWithStripe;
    hide CreateInquiry, TransitionInquiry, ConvertInquiry, Approve, DieInApprove, Decline, Cancel, DieInCancel;
    hide ModifyDates, CreateAdHocCharge, DieInAdHocCharge, RefundCharge, Receive, DieInReceive;
    match op
    case DoCancel(id, now) => CancelMovesWithStripe(w, id, now);
    case DoModifyDates(id, i, o, ts) => ModifyMovesWithStripe(w, id, i, o, ts);
    case DoRefund(c, dollars) => RefundChargeMoves(w, c, dollars);
    case _ => OthersMoveWithStripe(w, op);
  }

  lemma LostDeliveryKeepsTracked(w: World, e: nat)
    requires Tracked(w)
    ensures Tracked(Apply(w, LoseDelivery(e)))
  {
    var w' := Apply(w, LoseDelivery(e));
    if w' != w {
      RowKeepsTracked(w, e, w');
    }
  }

  lemma StepKeepsTracked(w: World, op: Op)
    requires Ledger.Ledger(w) && Tracked(w)
    ensures Tracked(Apply(w, op))
  {
    hide Ledger.Ledger, Tracked, Advances, MovesWithStripe;
    hide CreateInquiry, TransitionInquiry, ConvertInquiry, Approve, DieInApprove, Decline, Cancel, DieInCancel;
    hide ModifyDates, CreateAdHocCharge, DieInAdHocCharge, RefundCharge, Receive, DieInReceive;
    match op
    case Deliver(e) => DeliveryKeepsTracked(w, e);
    case CrashInDelivery(e) => DeliveryKeepsTracked(w, e);
    case LoseDelivery(e) => LostDeliveryKeepsTracked(w, e);
    case _ =>
      hide Apply;
      StepKeepsLedger(w, op);
      StepMovesWithStripe(w, op);
      MoveKeepsTracked(w, Apply(w, op));
  }

  lemma {:induction false} RunKeepsTracked(w: World, ops: seq<Op>)
    requires Ledger.Ledger(w) && Tracked(w)
    ensures Ledger.Ledger(Run(w, ops)) && Tracked(Run(w, ops))
    decreases |ops|
  {
    hide Ledger.Ledger, Tracked, Apply;
    if ops != [] {
      StepKeepsLedger(w, ops[0]);
      StepKeepsTracked(w, ops[0]);
      RunKeepsTracked(Apply(w, ops[0]), ops[1..]);
    }
  }

  lemma AgreeIff(w: World, c: nat)
    requires Ledger.Ledger(w) && Tracked(w) && c < |w.charges| && w.charges[c].paymentIntentId.Some?
    requires AllProcessed(w, w.charges[c].paymentIntentId.value)
    ensures var pi := w.charges[c].paymentIntentId.value;
            && pi < |w.stripe.sessions|
            && var total := w.stripe.sessions[pi].refunded;
            w.charges[c].refunded == total <==> total == 0 || Matched(w, pi, total)
  {
    var pi := w.charges[c].paymentIntentId.value;
    assert ChargeLinked(c, w.charges[c], w.stripe.sessions) && Settled(w, c);
    assert SessionSound(w.stripe.sessions[pi]);
    var total := w.stripe.sessions[pi].refunded;
    if total > 0 && Matched(w, pi, total) {
      var e :| 0 <= e < |w.stripe.events| && Reports(w.stripe.events[e], pi, total) && !Unmatched(w, e);
      assert Processed(w, e) && Reflected(w, e);
      var d :| 0 <= d < |w.charges| && Shows(w.charges[d], Some(pi), total);
      PaymentIntentUnique(w, c, d);
    }
  }

  /** In every run: with all refund events of a charge handled, its local amount is Stripe's exactly if
      nothing was refunded or some event that reports the total came when the PaymentIntent was on file. */
  lemma LocalEqualsStripeIff(unique: bool, ops: seq<Op>, c: nat)
    requires var w := Run(Empty(unique), ops);
             && c < |w.charges| && w.charges[c].paymentIntentId.Some? && AllProcessed(w, w.charges[c].paymentIntentId.value)
    ensures var w := Run(Empty(unique), ops);
            var pi := w.charges[c].paymentIntentId.value;
            && pi < |w.stripe.sessions|
            && var total := w.stripe.sessions[pi].refunded;
            w.charges[c].refunded == total <==> total == 0 || Matched(w, pi, total)
  {
    RunKeepsTracked(Empty(unique), ops);
    AgreeIff(Run(Empty(unique), ops), c);
  }

  /** A run in which the books stay apart: the refund event overtakes the payment's. */
  lemma OvertakenRefundIsMissed(unique: bool, cents: int)
    requires 0 < cents <= 1000
    ensures var w := Run(Empty(unique), Scenarios.OvertakenRun(cents));
            && |w.charges| == 1 && w.charges[0].paymentIntentId == Some(0) && |w.stripe.sessions| == 1
            && (forall e: nat :: e < |w.stripe.events| ==> Processed(w, e))
            && w.charges[0].refunded == 0 && w.stripe.sessions[0].refunded == cents
  {
    Scenarios.AfterOvertaken(unique, cents);
    hide Run;
  }
}
