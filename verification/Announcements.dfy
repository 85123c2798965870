/**
 The transactional outbox (docs/ARCHITECTURE.md, section 7.3): a change and the row that announces it
 are written together. What the rows of the outbox say about the tables, and the tables about the
 rows, in every reachable state; and where a cancellation slips through.
 */
module Announcements {
  import opened Wrappers
  import opened Schema
  import opened Operations
  import Money
  import Pricing
  import Scenarios
  import Stripe
  import Structure

  /** Exactly the inquiries that exist are announced, to the admin and to the guest. */
  ghost predicate InquiriesAnnounced(inquiries: nat, outbox: seq<OutboxRow>) {
    && (forall i: nat :: InquiryNew(i) in outbox <==> i < inquiries)
    && (forall i: nat :: InquiryAcknowledged(i) in outbox <==> i < inquiries)
  }

  /** The row that carries a charge's payment link. */
  function Link(charges: seq<Charge>, c: nat): OutboxRow
    requires c < |charges|
  {
    if charges[c].kind == Initial then BookingApproved(charges[c].bookingId, c) else AdHocChargeSent(charges[c].bookingId, c)
  }

  predicate IsLink(row: OutboxRow) {
    row.BookingApproved? || row.AdHocChargeSent?
  }

  /** Every charge that no crash left behind has its link in the outbox, and every link there is that
      of such a charge. */
  ghost predicate ChargesAnnounced(charges: seq<Charge>, outbox: seq<OutboxRow>) {
    && Structure.OrphansUnlinked(charges)
    && (forall c :: 0 <= c < |charges| && !Structure.Orphan(charges[c]) ==> Link(charges, c) in outbox)
    && (forall row :: row in outbox && IsLink(row) ==>
          row.charge < |charges| && row == Link(charges, row.charge) && !Structure.Orphan(charges[row.charge]))
  }

  predicate IsEnding(row: OutboxRow) {
    row.BookingDeclined? || row.BookingCancelled? || row.RebuildCancelled?
  }

  /** A recorded refund amount was announced with a cancellation, or it is the 0 of a decline. */
  ghost predicate AmountAnnounced(b: nat, amount: int, outbox: seq<OutboxRow>) {
    || (amount == 0 && BookingDeclined(b) in outbox)
    || exists tier :: BookingCancelled(b, tier, amount) in outbox
  }

  ghost predicate CancelledRow(b: nat, outbox: seq<OutboxRow>) {
    exists tier, amount :: BookingCancelled(b, tier, amount) in outbox
  }

  ghost predicate EndingsAnnounced(bookings: seq<Booking>, outbox: seq<OutboxRow>) {
    && (forall b :: 0 <= b < |bookings| && bookings[b].refundAmount.Some? ==>
          AmountAnnounced(b, bookings[b].refundAmount.value, outbox))
    && (forall b :: 0 <= b < |bookings| && bookings[b].tierApplied == Some(Declined) ==> BookingDeclined(b) in outbox)
    && (forall row :: row in outbox && IsEnding(row) ==> row.booking < |bookings| && bookings[row.booking].status != PendingApproval)
    && (forall b: nat :: RebuildCancelled(b) in outbox <==> CancelledRow(b, outbox))
  }

  ghost predicate Announced(w: World) {
    && InquiriesAnnounced(|w.inquiries|, w.outbox)
    && ChargesAnnounced(w.charges, w.outbox)
    && EndingsAnnounced(w.bookings, w.outbox)
  }

  // ---- rows that announce something else ----

  lemma InquiriesKept(n: nat, outbox: seq<OutboxRow>, news: seq<OutboxRow>)
    requires InquiriesAnnounced(n, outbox)
    requires forall row :: row in news ==> !row.InquiryNew? && !row.InquiryAcknowledged?
    ensures InquiriesAnnounced(n, outbox + news)
  {
  }

  lemma ChargesKept(a: seq<Charge>, b: seq<Charge>, outbox: seq<OutboxRow>, news: seq<OutboxRow>)
    requires ChargesAnnounced(a, outbox) && ChargesFollow(a, b)
    requires forall row :: row in news ==> !IsLink(row)
    ensures ChargesAnnounced(b, outbox + news)
  {
    forall c | 0 <= c < |b| && !Structure.Orphan(b[c]) ensures Link(b, c) in outbox + news {
      assert Link(a, c) in outbox;
    }
  }

  /** New charges are orphans, the others keep what their link names. */
  ghost predicate ChargesFollow(a: seq<Charge>, b: seq<Charge>) {
    && |a| <= |b| && Structure.OrphansUnlinked(b)
    && (forall c :: 0 <= c < |a| ==>
          b[c].kind == a[c].kind && b[c].bookingId == a[c].bookingId && (Structure.Orphan(b[c]) <==> Structure.Orphan(a[c])))
    && (forall c :: |a| <= c < |b| ==> Structure.Orphan(b[c]))
  }

  /** New bookings are pending, the others stay away from pending and keep how they ended. */
  ghost predicate BookingsFollow(a: seq<Booking>, b: seq<Booking>) {
    && |a| <= |b|
    && (forall i :: 0 <= i < |a| ==>
          && b[i].refundAmount == a[i].refundAmount && b[i].tierApplied == a[i].tierApplied
          && (a[i].status != PendingApproval ==> b[i].status != PendingApproval))
    && (forall i :: |a| <= i < |b| ==> b[i].refundAmount == None && b[i].tierApplied == None)
  }

  lemma CancelledRowKept(b: nat, outbox: seq<OutboxRow>, news: seq<OutboxRow>)
    requires forall row :: row in news ==> !row.BookingCancelled?
    ensures CancelledRow(b, outbox + news) <==> CancelledRow(b, outbox)
  {
    if tier, amount :| BookingCancelled(b, tier, amount) in outbox {
      assert BookingCancelled(b, tier, amount) in outbox + news;
    }
    if tier, amount :| BookingCancelled(b, tier, amount) in outbox + news {
      assert BookingCancelled(b, tier, amount) in outbox;
    }
  }

  lemma AmountKept(b: nat, amount: int, outbox: seq<OutboxRow>, news: seq<OutboxRow>)
    requires AmountAnnounced(b, amount, outbox)
    ensures AmountAnnounced(b, amount, outbox + news)
  {
    if tier :| BookingCancelled(b, tier, amount) in outbox {
      assert BookingCancelled(b, tier, amount) in outbox + news;
    }
  }

  lemma EndingsKept(a: seq<Booking>, b: seq<Booking>, outbox: seq<OutboxRow>, news: seq<OutboxRow>)
    requires EndingsAnnounced(a, outbox) && BookingsFollow(a, b)
    requires forall row :: row in news ==> !IsEnding(row)
    ensures EndingsAnnounced(b, outbox + news)
  {
    forall i | 0 <= i < |b| && b[i].refundAmount.Some? ensures AmountAnnounced(i, b[i].refundAmount.value, outbox + news) {
      AmountKept(i, a[i].refundAmount.value, outbox, news);
    }
    forall i: nat ensures RebuildCancelled(i) in outbox + news <==> CancelledRow(i, outbox + news) {
      CancelledRowKept(i, outbox, news);
    }
  }

  /** A step that announces nothing of these kinds. */
  ghost predicate Neutral(w: World, w': World) {
    && |w'.inquiries| == |w.inquiries| && ChargesFollow(w.charges, w'.charges)
    && BookingsFollow(w.bookings, w'.bookings)
    && w.outbox <= w'.outbox
    && (forall k :: |w.outbox| <= k < |w'.outbox| ==>
          !w'.outbox[k].InquiryNew? && !w'.outbox[k].InquiryAcknowledged? && !IsLink(w'.outbox[k]) && !IsEnding(w'.outbox[k]))
  }

  lemma NeutralKeeps(w: World, w': World)
    requires Announced(w) && Neutral(w, w')
    ensures Announced(w')
  {
    var news := w'.outbox[|w.outbox|..];
    assert w'.outbox == w.outbox + news;
    hide InquiriesAnnounced, ChargesAnnounced, EndingsAnnounced, BookingsFollow, ChargesFollow;
    InquiriesKept(|w.inquiries|, w.outbox, news);
    ChargesKept(w.charges, w'.charges, w.outbox, news);
    EndingsKept(w.bookings, w'.bookings, w.outbox, news);
  }

  // ---- the steps that announce ----

  lemma InquiryKeysAreNew(w: World)
    requires InquiriesAnnounced(|w.inquiries|, w.outbox)
    ensures CanEnqueue(w.uniqueKeys, w.outbox, InquiryNew(|w.inquiries|))
    ensures CanEnqueue(w.uniqueKeys, w.outbox, InquiryAcknowledged(|w.inquiries|))
  {
  }

  lemma CreateInquiryAnnounces(w: World, email: string, checkIn: int, checkOut: int)
    requires Announced(w)
    ensures Announced(CreateInquiry(w, email, checkIn, checkOut).0)
  {
    InquiryKeysAreNew(w);
    var n := |w.inquiries|;
    var news := [InquiryNew(n), InquiryAcknowledged(n)];
    assert forall row :: row in w.outbox + news <==> row in w.outbox || row in news;
    ChargesKept(w.charges, w.charges, w.outbox, news);
    EndingsKept(w.bookings, w.bookings, w.outbox, news);
  }

  lemma LinkKeysAreNew(w: World, b: nat, row: OutboxRow)
    requires ChargesAnnounced(w.charges, w.outbox)
    requires row == BookingApproved(b, |w.charges|) || row == AdHocChargeSent(b, |w.charges|)
    ensures CanEnqueue(w.uniqueKeys, w.outbox, row)
  {
  }

  /** A new charge together with its link. */
  lemma ChargeAnnounced(charges: seq<Charge>, charge: Charge, outbox: seq<OutboxRow>)
    requires ChargesAnnounced(charges, outbox) && !Structure.Orphan(charge)
    ensures ChargesAnnounced(charges + [charge], outbox + [Link(charges + [charge], |charges|)])
  {
    var b, row := charges + [charge], Link(charges + [charge], |charges|);
    forall c | 0 <= c < |b| && !Structure.Orphan(b[c]) ensures Link(b, c) in outbox + [row] {
      if c < |charges| {
        assert Link(charges, c) in outbox;
      }
    }
  }

  lemma ApproveAnnounces(w: World, id: nat, reply: Stripe.SessionReply)
    requires Announced(w)
    ensures Announced(Approve(w, id, reply).0)
  {
    LinkKeysAreNew(w, id, BookingApproved(id, |w.charges|));
    var w' := Approve(w, id, reply).0;
    if w' != w {
      var charge := w'.charges[|w.charges|];
      ChargeAnnounced(w.charges, charge, w.outbox);
      hide Approve;
      InquiriesKept(|w.inquiries|, w.outbox, [BookingApproved(id, |w.charges|)]);
      EndingsKept(w.bookings, w'.bookings, w.outbox, [BookingApproved(id, |w.charges|)]);
    }
  }

  lemma AdHocAnnounces(w: World, id: nat, kind: ChargeKind, dollars: real, described: bool, reply: Stripe.SessionReply)
    requires Announced(w)
    ensures Announced(CreateAdHocCharge(w, id, kind, dollars, described, reply).0)
  {
    LinkKeysAreNew(w, id, AdHocChargeSent(id, |w.charges|));
    var w' := CreateAdHocCharge(w, id, kind, dollars, described, reply).0;
    if w' != w {
      var charge := w'.charges[|w.charges|];
      ChargeAnnounced(w.charges, charge, w.outbox);
      hide CreateAdHocCharge;
      InquiriesKept(|w.inquiries|, w.outbox, [AdHocChargeSent(id, |w.charges|)]);
      EndingsKept(w.bookings, w.bookings, w.outbox, [AdHocChargeSent(id, |w.charges|)]);
    }
  }

  /** A pending booking was never declined, so its key is free: declining succeeds exactly for pending bookings. */
  lemma DeclineSucceedsIff(w: World, id: nat)
    requires EndingsAnnounced(w.bookings, w.outbox)
    ensures Decline(w, id).1.Success? <==> id < |w.bookings| && w.bookings[id].status == PendingApproval
    ensures Decline(w, id).1.Success? ==> Decline(w, id).0.outbox == w.outbox + [BookingDeclined(id)]
  {
    if id < |w.bookings| && w.bookings[id].status == PendingApproval {
      forall row | row in w.outbox ensures KeyOf(row) != KeyOf(BookingDeclined(id)) {
        assert row.BookingDeclined? ==> IsEnding(row);
      }
    }
  }

  lemma DeclineAnnounces(w: World, id: nat)
    requires Announced(w)
    ensures Announced(Decline(w, id).0)
  {
    var w' := Decline(w, id).0;
    if w' != w {
      var news := [BookingDeclined(id)];
      InquiriesKept(|w.inquiries|, w.outbox, news);
      ChargesKept(w.charges, w.charges, w.outbox, news);
      forall i | 0 <= i < |w'.bookings| && w'.bookings[i].refundAmount.Some? ensures AmountAnnounced(i, w'.bookings[i].refundAmount.value, w'.outbox) {
        if i != id {
          AmountKept(i, w.bookings[i].refundAmount.value, w.outbox, news);
        } else {
          assert w'.outbox[|w.outbox|] == BookingDeclined(id);
        }
      }
      forall i: nat ensures RebuildCancelled(i) in w'.outbox <==> CancelledRow(i, w'.outbox) {
        CancelledRowKept(i, w.outbox, news);
      }
    }
  }

  // ---- cancellations ----

  /** The claim writes the tier of the policy, which is never "declined", and nothing into the outbox. */
  lemma ClaimKeeps(w: World, t: CancelTicket)
    requires Announced(w)
    ensures Announced(CancelClaim(w, t).0)
  {
    var w' := CancelClaim(w, t).0;
    assert w'.outbox == w.outbox + [];
    forall i | 0 <= i < |w'.bookings| && w'.bookings[i].refundAmount.Some? ensures AmountAnnounced(i, w'.bookings[i].refundAmount.value, w'.outbox) {
      assert w'.bookings[i].refundAmount == w.bookings[i].refundAmount;
    }
  }

  lemma DieInCancelKeeps(w: World, id: nat, now: int)
    requires Announced(w)
    ensures Announced(DieInCancel(w, id, now))
  {
    if CancelRead(w, id, now).Success? {
      ClaimKeeps(w, CancelRead(w, id, now).value);
    }
  }

  lemma CommitKeeps(w: World, t: CancelTicket, cents: int)
    requires Announced(w) && t.booking < |w.bookings| && w.bookings[t.booking].status != PendingApproval
    requires cents > 0 && t.charge.Some? && t.charge.value < |w.charges| ==> !Structure.Orphan(w.charges[t.charge.value])
    ensures Announced(CancelCommit(w, t, cents).0)
  {
    var w' := CancelCommit(w, t, cents).0;
    if w' != w {
      var row := BookingCancelled(t.booking, t.tier, cents);
      var news := [row, RebuildCancelled(t.booking)];
      assert w'.outbox == w.outbox + news;
      assert forall r :: r in w'.outbox <==> r in w.outbox || r in news;
      InquiriesKept(|w.inquiries|, w.outbox, news);
      ChargesKept(w.charges, w'.charges, w.outbox, news);
      assert row in news && RebuildCancelled(t.booking) in news;
      forall i | 0 <= i < |w'.bookings| && w'.bookings[i].refundAmount.Some? ensures AmountAnnounced(i, w'.bookings[i].refundAmount.value, w'.outbox) {
        if i != t.booking {
          AmountKept(i, w.bookings[i].refundAmount.value, w.outbox, news);
        } else {
          assert BookingCancelled(i, t.tier, cents) in w'.outbox;
        }
      }
      forall i: nat ensures RebuildCancelled(i) in w'.outbox <==> CancelledRow(i, w'.outbox) {
        CancelledAfter(i, w.outbox, t, cents);
      }
    }
  }

  lemma CancelledAfter(i: nat, outbox: seq<OutboxRow>, t: CancelTicket, cents: int)
    ensures var news := [BookingCancelled(t.booking, t.tier, cents), RebuildCancelled(t.booking)];
            CancelledRow(i, outbox + news) <==> i == t.booking || CancelledRow(i, outbox)
  {
    var news := [BookingCancelled(t.booking, t.tier, cents), RebuildCancelled(t.booking)];
    assert forall r :: r in outbox + news <==> r in outbox || r in news;
    if i == t.booking {
      assert BookingCancelled(i, t.tier, cents) in outbox + news;
    } else if tier, amount :| BookingCancelled(i, tier, amount) in outbox {
      assert BookingCancelled(i, tier, amount) in outbox + news;
    }
    if i != t.booking {
      if tier, amount :| BookingCancelled(i, tier, amount) in outbox + news {
        assert BookingCancelled(i, tier, amount) in outbox;
      }
    }
  }

  lemma CancelAnnounces(w: World, id: nat, now: int)
    requires Announced(w)
    ensures Announced(Cancel(w, id, now).0)
  {
    if CancelRead(w, id, now).Success? {
      var t := CancelRead(w, id, now).value;
      ClaimKeeps(w, t);
      var (claimed, won) := CancelClaim(w, t);
      var (paid, refund) := CancelRefund(claimed, t);
      assert paid.outbox == claimed.outbox && paid.charges == claimed.charges && paid.inquiries == claimed.inquiries;
      assert Announced(paid) by {
        hide InquiriesAnnounced, ChargesAnnounced, EndingsAnnounced;
      }
      if won && refund.Success? {
        hide Announced, CancelRead, CancelRefund;
        CommitKeeps(paid, t, refund.value);
      }
    }
  }

  /** Stripe will accept the refund of a cancellation: there is none, or the payment's balance covers it. */
  predicate RefundCovered(stripe: Stripe.Account, t: CancelTicket) {
    var cents := CancelRefundCents(t);
    cents == 0
    || (var pi := t.snapshot.value.paymentIntentId.value;
        pi < |stripe.sessions| && stripe.sessions[pi].paid && stripe.sessions[pi].refunded + cents <= stripe.sessions[pi].amount)
  }

  lemma RefundAcceptedIff(w: World, t: CancelTicket)
    ensures CancelRefund(w, t).1.Success? <==> RefundCovered(w.stripe, t)
    ensures CancelRefund(w, t).1.Success? ==> CancelRefund(w, t).1.value == CancelRefundCents(t)
  {
    hide CancelRefundCents;
  }

  /** Exactly when a cancellation that runs to its end is announced: Stripe's balance covers the refund,
      and, under the unique index, no cancellation of this booking was announced before. Otherwise the
      booking is cancelled all the same, but neither the outbox nor the refund columns say so, even if
      Stripe paid. */
  lemma CancelAnnouncedIff(w: World, id: nat, now: int)
    requires Announced(w) && CancelRead(w, id, now).Success?
    ensures var t := CancelRead(w, id, now).value;
            var (w', r) := Cancel(w, id, now);
            && id < |w'.bookings| && w'.bookings[id].status == Cancelled
            && (r.Success? <==> RefundCovered(w.stripe, t) && (w.uniqueKeys ==> !CancelledRow(id, w.outbox)))
            && (r.Success? ==> w'.outbox == w.outbox + [BookingCancelled(id, t.tier, CancelRefundCents(t)), RebuildCancelled(id)]
                               && w'.bookings[id].refundAmount == Some(CancelRefundCents(t)))
            && (r.Failure? ==> w'.outbox == w.outbox && w'.charges == w.charges
                               && w'.bookings[id].refundAmount == w.bookings[id].refundAmount
                               && w'.stripe == CancelRefund(CancelClaim(w, t).0, t).0.stripe)
  {
    var t := CancelRead(w, id, now).value;
    var (claimed, won) := CancelClaim(w, t);
    RefundAcceptedIff(claimed, t);
    CancelKeysFreeIff(w, id, t, CancelRefundCents(t));
    hide CancelRefund, CancelRefundCents, RefundCovered;
  }

  /** A cancellation that dies after its claim is never announced, whatever Stripe would have said. */
  lemma CrashedCancelIsSilent(w: World, id: nat, now: int)
    requires CancelRead(w, id, now).Success?
    ensures var w' := DieInCancel(w, id, now);
            && id < |w'.bookings| && w'.bookings[id].status == Cancelled
            && w'.bookings[id].refundAmount == w.bookings[id].refundAmount
            && w'.outbox == w.outbox && w'.charges == w.charges && w'.stripe == w.stripe
  {
  }

  /** A paid booking whose charge was paid back in the dashboard is cancelled before that event comes:
      Stripe refuses the refund, and nothing announces the cancellation. */
  lemma RefusedRefundIsSilent(unique: bool, now: int)
    ensures Structure.AllThroughApi(Scenarios.RefusedRun(now))
    ensures var w := Run(Empty(unique), Scenarios.RefusedRun(now));
            && |w.bookings| == 1 && w.bookings[0].status == Cancelled && w.bookings[0].refundAmount == None
            && !CancelledRow(0, w.outbox)
  {
    Scenarios.AfterRefused(unique, now);
    hide Run;
  }

  lemma CancelKeysFreeIff(w: World, id: nat, t: CancelTicket, cents: int)
    requires EndingsAnnounced(w.bookings, w.outbox)
    ensures CanEnqueue(w.uniqueKeys, w.outbox, BookingCancelled(id, t.tier, cents)) && CanEnqueue(w.uniqueKeys, w.outbox, RebuildCancelled(id))
            <==> (w.uniqueKeys ==> !CancelledRow(id, w.outbox))
  {
    if w.uniqueKeys {
      if CancelledRow(id, w.outbox) {
        assert RebuildCancelled(id) in w.outbox;
      } else {
        forall row | row in w.outbox
          ensures KeyOf(row) != KeyOf(BookingCancelled(id, t.tier, cents)) && KeyOf(row) != KeyOf(RebuildCancelled(id)) {
          assert row.BookingCancelled? ==> BookingCancelled(row.booking, row.tier, row.refund) in w.outbox;
          assert row.RebuildCancelled? ==> RebuildCancelled(row.booking) in w.outbox;
        }
      }
    }
  }

  // ---- all steps, all runs ----

  lemma NewDatesAreNeutral(w: World, id: nat, checkIn: int, checkOut: int, q: Pricing.Quote, timestamp: int)
    requires Structure.OrphansUnlinked(w.charges)
    requires id < |w.bookings|
    ensures Neutral(w, ApplyNewDates(w, id, checkIn, checkOut, q, timestamp).0)
  {
    hide FindInitial, CanEnqueue;
  }

  lemma ModifyIsNeutral(w: World, id: nat, checkIn: int, checkOut: int, timestamp: int)
    requires Structure.OrphansUnlinked(w.charges)
    ensures Neutral(w, ModifyDates(w, id, checkIn, checkOut, timestamp).0)
  {
    hide ApplyNewDates, HasRealConflict, Pricing.GetQuote;
    var quote := Pricing.GetQuote(w.property, w.jurisdictions, checkIn, checkOut);
    if id < |w.bookings| && quote.Success? {
      NewDatesAreNeutral(w, id, checkIn, checkOut, quote.value, timestamp);
    }
  }

  lemma RefundIsNeutral(w: World, c: nat, dollars: real)
    requires Structure.OrphansUnlinked(w.charges)
    ensures Neutral(w, RefundCharge(w, c, dollars).0)
  {
  }

  lemma CheckoutIsNeutral(w: World, session: nat, pi: Option<nat>)
    requires Structure.OrphansUnlinked(w.charges)
    ensures Neutral(w, HandleCheckoutSucceeded(w, session, pi).0)
  {
    hide FindBySession, CanEnqueue;
  }

  lemma HandleIsNeutral(w: World, event: nat, e: Stripe.Event)
    requires Structure.OrphansUnlinked(w.charges)
    ensures Neutral(w, Handle(w, event, e).0)
  {
    hide HandleChargeRefunded, HandleCheckoutSucceeded, CanEnqueue;
    match e
    case CheckoutCompleted(session, pi) => CheckoutIsNeutral(w, session, pi);
    case ChargeRefunded(pi, total, full) => RefundEventIsNeutral(w, event, pi, total, full);
    case _ =>
  }

  lemma RefundEventIsNeutral(w: World, event: nat, pi: Option<nat>, total: Option<int>, full: bool)
    requires Structure.OrphansUnlinked(w.charges)
    ensures Neutral(w, HandleChargeRefunded(w, event, pi, total, full).0)
  {
    hide FindByPaymentIntent, CanEnqueue;
  }

  lemma ReceiveIsNeutral(w: World, event: nat)
    requires Structure.OrphansUnlinked(w.charges)
    ensures Neutral(w, Receive(w, event).0) && Neutral(w, DieInReceive(w, event))
  {
    hide Handle;
    if event < |w.stripe.events| && event !in w.webhookEvents {
      HandleIsNeutral(w.(webhookEvents := w.webhookEvents[event := false]), event, w.stripe.events[event]);
    }
  }

  lemma ServiceOthersAreNeutral(w: World, op: Op)
    requires Structure.OrphansUnlinked(w.charges)
    requires !op.DoCreateInquiry? && !op.DoApprove? && !op.DoAdHocCharge? && !op.DoDecline? && !op.DoCancel?
    requires !op.DoModifyDates? && !op.DoRefund? && !op.Deliver? && !op.CrashInCancel? && !op.CrashInDelivery?
    requires !ByEnvironment(op)
    ensures Neutral(w, Apply(w, op))
  {
    hide CanEnqueue, HasRealConflict, Pricing.GetQuote, Money.ToColumn;
  }

  lemma OthersAreNeutral(w: World, op: Op)
    requires Structure.OrphansUnlinked(w.charges)
    requires !op.DoCreateInquiry? && !op.DoApprove? && !op.DoAdHocCharge? && !op.DoDecline? && !op.DoCancel?
    requires !op.DoModifyDates? && !op.DoRefund? && !op.Deliver? && !op.CrashInCancel? && !op.CrashInDelivery?
    ensures Neutral(w, Apply(w, op))
  {
    hide Apply;
    if ByEnvironment(op) { EnvironmentLeaves(w, op); } else { ServiceOthersAreNeutral(w, op); }
  }

  lemma StepIsNeutral(w: World, op: Op)
    requires Announced(w) && !op.DoCreateInquiry? && !op.DoApprove? && !op.DoAdHocCharge? && !op.DoDecline? && !op.DoCancel? && !op.CrashInCancel?
    ensures Neutral(w, Apply(w, op))
  {
    assert Structure.OrphansUnlinked(w.charges);
    hide Announced, Neutral;
    hide CreateInquiry, TransitionInquiry, ConvertInquiry, Approve, DieInApprove, Decline, Cancel, DieInCancel;
    hide ModifyDates, CreateAdHocCharge, DieInAdHocCharge, RefundCharge, Receive, DieInReceive;
    match op
    case DoModifyDates(id, i, o, ts) => ModifyIsNeutral(w, id, i, o, ts);
    case DoRefund(c, dollars) => RefundIsNeutral(w, c, dollars);
    case Deliver(e) => ReceiveIsNeutral(w, e);
    case CrashInDelivery(e) => ReceiveIsNeutral(w, e);
    case _ => OthersAreNeutral(w, op);
  }

  lemma StepAnnounces(w: World, op: Op)
    requires Announced(w)
    ensures Announced(Apply(w, op))
  {
    hide Announced, Neutral;
    hide CreateInquiry, TransitionInquiry, ConvertInquiry, Approve, DieInApprove, Decline, Cancel, DieInCancel;
    hide ModifyDates, CreateAdHocCharge, DieInAdHocCharge, RefundCharge, Receive, DieInReceive;
    match op
    case DoCreateInquiry(email, i, o) => CreateInquiryAnnounces(w, email, i, o);
    case DoApprove(id, reply) => ApproveAnnounces(w, id, reply);
    case DoAdHocCharge(id, kind, dollars, described, reply) => AdHocAnnounces(w, id, kind, dollars, described, reply);
    case DoDecline(id) => DeclineAnnounces(w, id);
    case DoCancel(id, now) => CancelAnnounces(w, id, now);
    case CrashInCancel(id, now) => DieInCancelKeeps(w, id, now);
    case _ =>
      hide Apply;
      StepIsNeutral(w, op);
      NeutralKeeps(w, Apply(w, op));
  }

  lemma {:induction false} RunAnnounces(w: World, ops: seq<Op>)
    requires Announced(w)
    ensures Announced(Run(w, ops))
    decreases |ops|
  {
    if ops != [] {
      StepAnnounces(w, ops[0]);
      RunAnnounces(Apply(w, ops[0]), ops[1..]);
    }
  }

  /** In every reachable state the outbox announces exactly the inquiries that exist, the charges that no
      crash left behind, every decline, and every refund amount that a cancellation recorded. */
  lemma OutboxMatchesTables(unique: bool, ops: seq<Op>)
    ensures Announced(Run(Empty(unique), ops))
  {
    RunAnnounces(Empty(unique), ops);
  }
}
