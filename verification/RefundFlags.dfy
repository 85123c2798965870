/**
 The status `refunded` against the refunded amount. A charge with the status is always refunded in full;
 which fully refunded charges lack the status, in every run.
 */
module RefundFlags {
  import opened Wrappers
  import opened Schema
  import opened Operations
  import Ledger
  import Money
  import Pricing
  import Scenarios
  import Stripe
  import Structure

  /** Something was charged, all of it was paid back, and the status does not say so. */
  predicate FullUnflagged(charges: seq<Charge>, c: nat) {
    c < |charges| && charges[c].refunded == charges[c].amount > 0 && charges[c].status != Refunded
  }

  /** Rounded to cents the request is all that is left, but it is more than a tenth of a cent short of it. */
  predicate JustShort(charge: Charge, dollars: real) {
    var rest := charge.amount - charge.refunded;
    rest as real - 0.5 <= dollars * 100.0 && dollars * 100.0 + 0.1 < rest as real
  }

  /** The event of a payment that is recorded for a charge which was paid back before. */
  ghost predicate PaysRefunded(w: World, e: nat, c: nat)
    requires c < |w.charges|
  {
    && e < |w.stripe.events| && e !in w.webhookEvents && w.stripe.events[e].CheckoutCompleted?
    && FindBySession(w.charges, w.stripe.events[e].session) == Some(c) && w.charges[c].status == Refunded
    && (w.uniqueKeys ==> !Structure.HasPaidCharge(w, w.charges[c].bookingId))
  }

  /** The three ways to lose the status: a refund request just short of the rest, a date change whose price
      drop is exactly the rest, and a payment recorded after the refund. */
  ghost predicate Unflags(w: World, op: Op, c: nat) {
    && c < |w.charges| && w.charges[c].amount > 0
    && var charge := w.charges[c];
       match op
       case DoRefund(k, dollars) => k == c && RefundCharge(w, c, dollars).1.Success? && JustShort(charge, dollars)
       case DoModifyDates(id, checkIn, checkOut, ts) =>
         && FindInitial(w.charges, id) == Some(c) && charge.status == Succeeded && charge.paymentIntentId.Some?
         && charge.refunded < charge.amount
         && ModifyDates(w, id, checkIn, checkOut, ts).1 == Success(charge.refunded - charge.amount)
       case Deliver(e) => PaysRefunded(w, e, c)
       case CrashInDelivery(e) => PaysRefunded(w, e, c)
       case _ => false
  }

  // ---- steps that keep the flag right ----

  predicate FlagKept(a: Charge, b: Charge) {
    && b.amount == a.amount
    && (|| (b.refunded == a.refunded && (b.status == Refunded <==> a.status == Refunded))
        || (a.refunded < a.amount && (b.refunded < b.amount || b.status == Refunded)))
  }

  /** Every row but possibly `except` keeps its flag right, and new rows have no refunds. */
  ghost predicate FlagsKept(a: seq<Charge>, b: seq<Charge>, except: Option<nat>) {
    && |a| <= |b|
    && (forall c :: 0 <= c < |a| && except != Some(c) ==> FlagKept(a[c], b[c]))
    && (forall c :: |a| <= c < |b| ==> b[c].refunded == 0)
  }

  lemma KeptIsSame(a: seq<Charge>, b: seq<Charge>, except: Option<nat>, c: nat)
    requires FlagsKept(a, b, except) && except != Some(c)
    ensures FullUnflagged(b, c) <==> FullUnflagged(a, c)
  {
  }

  lemma CancelKeepsFlags(w: World, id: nat, now: int)
    ensures FlagsKept(w.charges, Cancel(w, id, now).0.charges, None)
  {
    if CancelRead(w, id, now).Success? {
      var t := CancelRead(w, id, now).value;
      if CancelRefundCents(t) > 0 {
        TicketHasRest(t);
      }
      CommitKeepsFlags(w, id, now, t);
    }
  }

  lemma TicketHasRest(t: CancelTicket)
    requires CancelRefundCents(t) > 0
    ensures t.snapshot.Some? && t.snapshot.value.refunded < t.snapshot.value.amount
  {
    var charge := t.snapshot.value;
    if charge.refunded >= charge.amount {
      assert (0.0 * 100.0 * (t.tier.refundPercent as real / 100.0)).Floor == 0;
    }
  }

  lemma CommitKeepsFlags(w: World, id: nat, now: int, t: CancelTicket)
    requires CancelRead(w, id, now) == Success(t)
    requires CancelRefundCents(t) > 0 ==> t.snapshot.value.refunded < t.snapshot.value.amount
    ensures FlagsKept(w.charges, Cancel(w, id, now).0.charges, None)
  {
    CancelledCharges(w, id, now, t);
    hide Cancel, CancelRead, CancelRefundCents;
  }

  lemma CancelledCharges(w: World, id: nat, now: int, t: CancelTicket)
    requires CancelRead(w, id, now) == Success(t)
    ensures t.charge.Some? ==> t.charge.value < |w.charges| && t.snapshot == Some(w.charges[t.charge.value])
    ensures var charges := Cancel(w, id, now).0.charges;
            || charges == w.charges
            || (&& CancelRefundCents(t) > 0 && t.charge.Some?
                && var c := w.charges[t.charge.value];
                   charges == w.charges[t.charge.value := Booked(c, c.refunded, CancelRefundCents(t), c.amount)])
  {
    assert t.charge.Some? ==> t.charge.value < |w.charges| && t.snapshot == Some(w.charges[t.charge.value]);
    hide CancelRead, CancelRefundCents, CanEnqueue, Stripe.CreateRefund, Booked;
  }

  /** A refund that Stripe accepted leaves the charge within its amount. */
  lemma RefundFlag(w: World, c: nat, dollars: real)
    requires Ledger.Ledger(w) && Structure.RefundedMeansAll(w.charges)
    ensures var w' := RefundCharge(w, c, dollars).0;
            && FlagsKept(w.charges, w'.charges, Some(c))
            && (FullUnflagged(w'.charges, c) <==> FullUnflagged(w.charges, c) || Unflags(w, DoRefund(c, dollars), c))
  {
    var (w', r) := RefundCharge(w, c, dollars);
    if r.Success? {
      Structure.RefundStaysWithin(w, c, dollars);
      assert Ledger.ChargeLinked(c, w.charges[c], w.stripe.sessions);
      RefundedRow(w, c, dollars);
      hide RefundCharge, Ledger.Ledger;
      Money.ToColumnShift(w.charges[c].refunded, dollars);
      RoundedRest(w.charges[c].amount - w.charges[c].refunded, dollars);
    } else {
      FailedRefund(w, c, dollars);
    }
  }

  lemma FailedRefund(w: World, c: nat, dollars: real)
    requires RefundCharge(w, c, dollars).1.Failure?
    ensures RefundCharge(w, c, dollars).0.charges == w.charges
  {
    hide CanEnqueue;
  }

  /** The row after a refund: the cents that Stripe was asked for, and the status if the request comes
      within a tenth of a cent of the rest. */
  lemma RefundedRow(w: World, c: nat, dollars: real)
    requires RefundCharge(w, c, dollars).1.Success?
    ensures var charge := w.charges[c];
            && c < |w.charges| && Money.ToColumn(dollars) > 0
            && RefundCharge(w, c, dollars).0.charges == w.charges[c := charge.(
                 refunded := charge.refunded + Money.ToColumn(dollars),
                 status := if dollars * 100.0 + 0.1 >= (charge.amount - charge.refunded) as real then Refunded else charge.status)]
  {
    hide CanEnqueue;
    Money.ToColumnShift(w.charges[c].refunded, dollars);
    var before, amount := w.charges[c].refunded, w.charges[c].amount;
    assert Money.Dollars(before) + dollars + 0.001 >= Money.Dollars(amount) <==> dollars * 100.0 + 0.1 >= (amount - before) as real by {
      assert (Money.Dollars(before) + dollars + 0.001 - Money.Dollars(amount)) * 100.0 == before as real + dollars * 100.0 + 0.1 - amount as real;
    }
    hide Money.ToColumn;
  }

  lemma RoundedRest(rest: int, dollars: real)
    ensures Money.ToColumn(dollars) >= rest <==> rest as real - 0.5 <= dollars * 100.0
  {
  }

  lemma ModifyFlag(w: World, id: nat, checkIn: int, checkOut: int, timestamp: int, c: nat)
    requires Ledger.Ledger(w)
    ensures var w' := ModifyDates(w, id, checkIn, checkOut, timestamp).0;
            FullUnflagged(w'.charges, c) <==> FullUnflagged(w.charges, c) || Unflags(w, DoModifyDates(id, checkIn, checkOut, timestamp), c)
  {
    hide ModifyDates, FindInitial, Ledger.Ledger;
    Ledger.ModifyDatesKeeps(w, id, checkIn, checkOut, timestamp);
    ModifiedRow(w, id, checkIn, checkOut, timestamp);
    var w' := ModifyDates(w, id, checkIn, checkOut, timestamp).0;
    if FindInitial(w.charges, id) == Some(c) {
      LinkedWithin(w, c);
      LinkedWithin(w', c);
    }
  }

  lemma LinkedWithin(w: World, c: nat)
    requires Ledger.Ledger(w)
    ensures c < |w.charges| && w.charges[c].paymentIntentId.Some? ==> w.charges[c].refunded <= w.charges[c].amount
  {
    if c < |w.charges| && w.charges[c].paymentIntentId.Some? {
      assert Ledger.ChargeLinked(c, w.charges[c], w.stripe.sessions);
      assert Ledger.SessionSound(w.stripe.sessions[w.charges[c].paymentIntentId.value]);
    }
  }

  /** A successful date change books the drop, if there is one and it can be paid back, and nothing else. */
  lemma ModifiedRow(w: World, id: nat, checkIn: int, checkOut: int, timestamp: int)
    ensures var (w', r) := ModifyDates(w, id, checkIn, checkOut, timestamp);
            var found := FindInitial(w.charges, id);
            w'.charges ==
              if r.Success? && found.Some? && r.value < 0
                 && w.charges[found.value].status == Succeeded && w.charges[found.value].paymentIntentId.Some?
              then w.charges[found.value := w.charges[found.value].(refunded := w.charges[found.value].refunded - r.value)]
              else w.charges
  {
    hide FindInitial, CanEnqueue, Pricing.GetQuote, HasRealConflict, Stripe.CreateRefund;
  }

  lemma RefundEventKeepsFlags(w: World, e: nat)
    requires Ledger.Ledger(w) && e < |w.stripe.events| && w.stripe.events[e].ChargeRefunded?
    ensures FlagsKept(w.charges, Handle(w, e, w.stripe.events[e]).0.charges, None)
  {
    var event := w.stripe.events[e];
    assert Stripe.Truthful(w.stripe, event);
    var found := FindByPaymentIntent(w.charges, event.paymentIntent);
    if found.Some? {
      assert Ledger.ChargeLinked(found.value, w.charges[found.value], w.stripe.sessions);
      assert Ledger.SessionSound(w.stripe.sessions[event.paymentIntent.value]);
    }
    hide Ledger.Ledger, FindByPaymentIntent, CanEnqueue;
  }

  lemma PaymentFlag(w: World, recorded: World, e: nat, c: nat)
    requires Structure.Sound(w) && e < |w.stripe.events| && e !in w.webhookEvents && w.stripe.events[e].CheckoutCompleted?
    requires recorded == w.(webhookEvents := w.webhookEvents[e := false])
    ensures var charges := Handle(recorded, e, w.stripe.events[e]).0.charges;
            FullUnflagged(charges, c) <==> FullUnflagged(w.charges, c) || (c < |w.charges| && w.charges[c].amount > 0 && PaysRefunded(w, e, c))
  {
    var event := w.stripe.events[e];
    var found := FindBySession(w.charges, event.session);
    if found.Some? {
      var charge := w.charges[found.value];
      assert Structure.PaymentsAnnounced(w) && Structure.RefundedMeansAll(w.charges) && charge.bookingId < |w.bookings|;
      Structure.PaymentKeysFreeIff(recorded, charge.bookingId, found.value);
      SamePaid(w, recorded, charge.bookingId);
    }
    hide Structure.Sound, Structure.HasPaidCharge, CanEnqueue, FindBySession;
  }

  lemma SamePaid(w: World, w': World, b: nat)
    requires w'.outbox == w.outbox
    ensures Structure.HasPaidCharge(w', b) == Structure.HasPaidCharge(w, b)
  {
  }

  lemma DeliveryFlag(w: World, e: nat, c: nat)
    requires Ledger.Ledger(w) && Structure.Sound(w)
    ensures FullUnflagged(Receive(w, e).0.charges, c) <==> FullUnflagged(w.charges, c) || Unflags(w, Deliver(e), c)
    ensures FullUnflagged(DieInReceive(w, e).charges, c) <==> FullUnflagged(w.charges, c) || Unflags(w, CrashInDelivery(e), c)
  {
    hide Structure.Sound, Ledger.Ledger, Handle, FullUnflagged;
    if e < |w.stripe.events| && e !in w.webhookEvents {
      var recorded := w.(webhookEvents := w.webhookEvents[e := false]);
      var charges := Handle(recorded, e, w.stripe.events[e]).0.charges;
      match w.stripe.events[e]
      case CheckoutCompleted(_, _) => PaymentFlag(w, recorded, e, c);
      case ChargeRefunded(_, _, _) =>
        Ledger.EventRowAdded(w, e, recorded);
        RefundEventKeepsFlags(recorded, e);
        KeptIsSame(w.charges, charges, None, c);
      case _ => OtherEventKeeps(recorded, e);
    }
  }

  lemma OtherEventKeeps(w: World, e: nat)
    requires e < |w.stripe.events| && !w.stripe.events[e].CheckoutCompleted? && !w.stripe.events[e].ChargeRefunded?
    ensures Handle(w, e, w.stripe.events[e]).0.charges == w.charges
  {
  }

  lemma NewChargesKeepFlags(w: World, op: Op)
    requires op.DoApprove? || op.CrashInApprove? || op.DoAdHocCharge? || op.CrashInAdHocCharge?
    ensures FlagsKept(w.charges, Apply(w, op).charges, None)
  {
    hide CanEnqueue, HasRealConflict, Money.ToColumn;
  }

  lemma RequestsKeepCharges(w: World, op: Op)
    requires op.DoCreateInquiry? || op.DoConvert? || op.DoDecline? || op.CrashInCancel?
    ensures Apply(w, op).charges == w.charges
  {
    hide CanEnqueue, Pricing.GetQuote, CancelRead;
  }

  // ---- every step, every run ----

  lemma StepFlag(w: World, op: Op, c: nat)
    requires Ledger.Ledger(w) && Structure.Sound(w)
    ensures FullUnflagged(Apply(w, op).charges, c) <==> FullUnflagged(w.charges, c) || Unflags(w, op, c)
  {
    assert Structure.RefundedMeansAll(w.charges);
    hide Structure.Sound, Ledger.Ledger, FullUnflagged, FlagsKept, PaysRefunded, JustShort;
    hide CreateInquiry, TransitionInquiry, ConvertInquiry, Approve, DieInApprove, Decline, Cancel, DieInCancel;
    hide ModifyDates, CreateAdHocCharge, DieInAdHocCharge, RefundCharge, Receive, DieInReceive;
    match op
    case DoCancel(id, now) => CancelKeepsFlags(w, id, now); KeptIsSame(w.charges, Apply(w, op).charges, None, c);
    case DoRefund(k, dollars) =>
      RefundFlag(w, k, dollars);
      if k != c { KeptIsSame(w.charges, Apply(w, op).charges, Some(k), c); }
    case DoModifyDates(id, i, o, ts) => ModifyFlag(w, id, i, o, ts, c);
    case Deliver(e) => DeliveryFlag(w, e, c);
    case CrashInDelivery(e) => DeliveryFlag(w, e, c);
    case _ => OtherFlag(w, op, c);
  }

  lemma OtherFlag(w: World, op: Op, c: nat)
    requires !op.DoCancel? && !op.DoRefund? && !op.DoModifyDates? && !op.Deliver? && !op.CrashInDelivery?
    ensures FullUnflagged(Apply(w, op).charges, c) <==> FullUnflagged(w.charges, c)
  {
    hide Apply, FullUnflagged, FlagsKept;
    if ByEnvironment(op) {
      EnvironmentLeaves(w, op);
    } else if op.DoApprove? || op.CrashInApprove? || op.DoAdHocCharge? || op.CrashInAdHocCharge? {
      NewChargesKeepFlags(w, op);
      KeptIsSame(w.charges, Apply(w, op).charges, None, c);
    } else {
      RequestsKeepCharges(w, op);
    }
  }

  /** Some step of the run takes the status from this charge, or leaves it without. */
  ghost predicate EverUnflags(w: World, ops: seq<Op>, c: nat)
    decreases |ops|
  {
    ops != [] && (Unflags(w, ops[0], c) || EverUnflags(Apply(w, ops[0]), ops[1..], c))
  }

  lemma {:induction false} RunFlag(w: World, ops: seq<Op>, c: nat)
    requires Ledger.Ledger(w) && Structure.Sound(w) && Structure.AllThroughApi(ops)
    ensures FullUnflagged(Run(w, ops).charges, c) <==> FullUnflagged(w.charges, c) || EverUnflags(w, ops, c)
    decreases |ops|
  {
    hide Structure.Sound, Ledger.Ledger, FullUnflagged, Unflags, Apply;
    if ops != [] {
      StepFlag(w, ops[0], c);
      Ledger.StepKeepsLedger(w, ops[0]);
      Structure.StepKeepsSound(w, ops[0]);
      RunFlag(Apply(w, ops[0]), ops[1..], c);
    }
  }

  /** In every run the status of a charge is `refunded` exactly when all of it was paid back, unless one of
      the three steps happened to it; and then it never is. */
  lemma RefundedStatusIff(unique: bool, ops: seq<Op>, c: nat)
    requires Structure.AllThroughApi(ops)
    requires c < |Run(Empty(unique), ops).charges| && Run(Empty(unique), ops).charges[c].amount > 0
    ensures var charge := Run(Empty(unique), ops).charges[c];
            && (charge.status == Refunded ==> charge.refunded == charge.amount)
            && ((charge.status == Refunded <==> charge.refunded == charge.amount) <==> !EverUnflags(Empty(unique), ops, c))
  {
    Structure.ReachableIsSound(unique, ops);
    Structure.ReachableIsSound(unique, []);
    RefundedInFull(Run(Empty(unique), ops), c);
    hide Structure.Sound, Ledger.Ledger, Run, EverUnflags;
    RunFlag(Empty(unique), ops, c);
  }

  lemma RefundedInFull(w: World, c: nat)
    requires Structure.Sound(w) && c < |w.charges|
    ensures w.charges[c].status == Refunded ==> w.charges[c].refunded == w.charges[c].amount
  {
  }

  /** Nine dollars and 99.6 cents of a charge of ten: Stripe pays back all ten, the status stays. */
  lemma JustShortStaysSucceeded(unique: bool)
    ensures var ops := Scenarios.PaidRun() + [DoRefund(0, 9.996)];
            var w := Run(Empty(unique), ops);
            && Structure.AllThroughApi(ops) && |w.charges| == 1 && |w.stripe.sessions| == 1
            && w.charges[0].refunded == w.charges[0].amount == w.stripe.sessions[0].refunded == 1000
            && w.charges[0].status == Succeeded
  {
    Scenarios.AfterPaid(unique);
    Scenarios.RunOneMore(Empty(unique), Scenarios.PaidRun(), DoRefund(0, 9.996));
    hide Run, Scenarios.PaidRun;
    RefundAlmostAll(unique);
    assert Structure.AllThroughApi(Scenarios.PaidRun() + [DoRefund(0, 9.996)]) by { PaidRunThroughApi(); }
  }

  lemma PaidRunThroughApi()
    ensures Structure.AllThroughApi(Scenarios.PaidRun())
  {
  }

  lemma RefundAlmostAll(unique: bool)
    ensures var w := RefundCharge(Scenarios.PaidStay(unique), 0, 9.996).0;
            && |w.charges| == 1 && |w.stripe.sessions| == 1
            && w.charges[0].refunded == w.charges[0].amount == w.stripe.sessions[0].refunded == 1000
            && w.charges[0].status == Succeeded
  {
    var w := Scenarios.PaidStay(unique);
    assert Money.ToColumn(9.996) == 1000;
    assert RefundCharge(w, 0, 9.996).1.Success?;
    RefundedRow(w, 0, 9.996);
    hide Money.ToColumn, CanEnqueue;
  }
}
