/**
 Which idempotency keys can repeat. The services rely on keys that name what they announce; this
 module says which of them name it uniquely, and which step repeats one of the others when the
 database does not stop it.
 */
module OutboxKeys {
  import opened Wrappers
  import opened Schema
  import opened Operations
  import Announcements
  import CancellationPolicy
  import Ledger
  import Money
  import Pricing
  import Scenarios
  import Structure

  ghost predicate Free(outbox: seq<OutboxRow>, row: OutboxRow) {
    forall r :: r in outbox ==> KeyOf(r) != KeyOf(row)
  }

  ghost predicate KeysDistinct(outbox: seq<OutboxRow>) {
    forall k, l :: 0 <= k < l < |outbox| ==> KeyOf(outbox[k]) != KeyOf(outbox[l])
  }

  /** Keys that only the payments, cancellations or date changes of a booking share. */
  predicate MayRepeat(row: OutboxRow) {
    row.BookingConfirmed? || row.RebuildConfirmed? || row.BookingCancelled? || row.RebuildCancelled? || row.DatesModified?
  }

  predicate FromEvent(row: OutboxRow) {
    row.RefundedExternally? || row.DisputeOpened? || row.DisputeSettled? || row.PaymentFailed?
  }

  /** The event or the refund that a row names has happened. */
  ghost predicate Known(w: World, row: OutboxRow) {
    && (FromEvent(row) ==> row.event in w.webhookEvents)
    && (row.ChargeRefundedByUs? ==> row.refundId < |w.stripe.events|)
  }

  ghost predicate Inv(w: World) {
    && Ledger.Ledger(w) && Structure.Sound(w) && Announcements.Announced(w)
    && (forall row :: row in w.outbox ==> Known(w, row))
  }

  ghost predicate SameTimestamp(id: nat, timestamp: int, outbox: seq<OutboxRow>) {
    exists delta, refund :: DatesModified(id, timestamp, delta, refund) in outbox
  }

  /** The payment is recorded, and the booking has a recorded payment. */
  ghost predicate SecondPayment(w: World, e: nat) {
    && e < |w.stripe.events| && e !in w.webhookEvents && w.stripe.events[e].CheckoutCompleted?
    && var c := FindBySession(w.charges, w.stripe.events[e].session);
    && c.Some? && w.charges[c.value].status != Succeeded && Structure.HasPaidCharge(w, w.charges[c.value].bookingId)
  }

  /** The call goes through and announces what was announced before: a second payment or a second
      cancellation of a booking, or two date changes of it in one millisecond. */
  ghost predicate Repeats(w: World, op: Op) {
    match op
    case Deliver(e) => SecondPayment(w, e)
    case CrashInDelivery(e) => SecondPayment(w, e)
    case DoCancel(id, now) => Cancel(w, id, now).1.Success? && Announcements.CancelledRow(id, w.outbox)
    case DoModifyDates(id, i, o, ts) => ModifyDates(w, id, i, o, ts).1.Success? && SameTimestamp(id, ts, w.outbox)
    case _ => false
  }

  function News(w: World, w': World): seq<OutboxRow>
    requires w.outbox <= w'.outbox
  {
    w'.outbox[|w.outbox|..]
  }

  /** What one operation appends: rows with different keys, whose ids exist now, of which only those
      that may repeat can find their key taken. */
  ghost predicate Appends(w: World, w': World, repeats: bool) {
    && w.outbox <= w'.outbox
    && var news := News(w, w');
    && KeysDistinct(news)
    && (forall row :: row in news ==> Known(w', row) && (MayRepeat(row) || Free(w.outbox, row)))
    && ((forall row :: row in news ==> Free(w.outbox, row)) <==> w.uniqueKeys || !repeats)
  }

  lemma NothingAppended(w: World, w': World, repeats: bool)
    requires w'.outbox == w.outbox && (repeats ==> w.uniqueKeys)
    ensures Appends(w, w', repeats)
  {
    assert News(w, w') == [];
  }

  lemma OneAppended(w: World, w': World, row: OutboxRow, repeats: bool)
    requires w'.outbox == w.outbox + [row] && Known(w', row) && (MayRepeat(row) || Free(w.outbox, row))
    requires Free(w.outbox, row) <==> w.uniqueKeys || !repeats
    ensures Appends(w, w', repeats)
  {
    assert News(w, w') == [row];
  }

  lemma TwoAppended(w: World, w': World, first: OutboxRow, second: OutboxRow, repeats: bool)
    requires w'.outbox == w.outbox + [first, second] && KeyOf(first) != KeyOf(second)
    requires Known(w', first) && Known(w', second)
    requires (MayRepeat(first) && MayRepeat(second)) || (Free(w.outbox, first) && Free(w.outbox, second))
    requires Free(w.outbox, first) && Free(w.outbox, second) <==> w.uniqueKeys || !repeats
    ensures Appends(w, w', repeats)
  {
    hide Free, Known, MayRepeat;
    var news := [first, second];
    assert News(w, w') == news && first in news && second in news;
  }

  // ---- the operations ----

  lemma InquiryKeysFree(w: World)
    requires Inv(w)
    ensures Free(w.outbox, InquiryNew(|w.inquiries|)) && Free(w.outbox, InquiryAcknowledged(|w.inquiries|))
  {
    Announcements.InquiryKeysAreNew(w);
    hide Inv;
  }

  lemma InquiryAppends(w: World, email: string, checkIn: int, checkOut: int)
    requires Inv(w)
    ensures Appends(w, CreateInquiry(w, email, checkIn, checkOut).0, false)
  {
    var w' := CreateInquiry(w, email, checkIn, checkOut).0;
    InquiryKeysFree(w);
    hide Inv, CanEnqueue, Free, KeysDistinct, Appends;
    if w'.outbox == w.outbox {
      NothingAppended(w, w', false);
    } else {
      TwoAppended(w, w', InquiryNew(|w.inquiries|), InquiryAcknowledged(|w.inquiries|), false);
    }
  }

  lemma LinkIsFree(w: World, row: OutboxRow)
    requires Inv(w) && Announcements.IsLink(row) && row.charge == |w.charges|
    ensures Free(w.outbox, row)
  {
  }

  lemma LinkOutbox(w: World, op: Op, row: OutboxRow)
    requires op.DoApprove? || op.DoAdHocCharge?
    requires row == if op.DoApprove? then BookingApproved(op.booking, |w.charges|) else AdHocChargeSent(op.booking, |w.charges|)
    ensures Apply(w, op).outbox == w.outbox || Apply(w, op).outbox == w.outbox + [row]
  {
    hide HasRealConflict, Money.ToColumn, CanEnqueue;
  }

  lemma LinkAppends(w: World, op: Op)
    requires Inv(w) && (op.DoApprove? || op.DoAdHocCharge?)
    ensures Appends(w, Apply(w, op), false)
  {
    var row := if op.DoApprove? then BookingApproved(op.booking, |w.charges|) else AdHocChargeSent(op.booking, |w.charges|);
    LinkIsFree(w, row);
    LinkOutbox(w, op, row);
    hide Inv, Apply, Appends, Free;
    if Apply(w, op).outbox == w.outbox {
      NothingAppended(w, Apply(w, op), false);
    } else {
      OneAppended(w, Apply(w, op), row, false);
    }
  }

  lemma DeclineAppends(w: World, id: nat)
    requires Inv(w)
    ensures Appends(w, Decline(w, id).0, false)
  {
    Announcements.DeclineSucceedsIff(w, id);
    if Decline(w, id).1.Success? {
      forall r | r in w.outbox ensures KeyOf(r) != KeyOf(BookingDeclined(id)) {
        assert r.BookingDeclined? ==> Announcements.IsEnding(r);
      }
      OneAppended(w, Decline(w, id).0, BookingDeclined(id), false);
    } else {
      NothingAppended(w, Decline(w, id).0, false);
    }
  }

  lemma CancelOutbox(w: World, id: nat, now: int)
    requires Inv(w)
    ensures var (w', r) := Cancel(w, id, now);
            if r.Success? then
              exists t, cents :: w'.outbox == w.outbox + [BookingCancelled(id, t, cents), RebuildCancelled(id)]
            else w'.outbox == w.outbox
    ensures Cancel(w, id, now).1.Success? && w.uniqueKeys ==> !Announcements.CancelledRow(id, w.outbox)
  {
    if CancelRead(w, id, now).Success? {
      assert Announcements.Announced(w);
      hide Inv, Announcements.Announced;
      Announcements.CancelAnnouncedIff(w, id, now);
    }
  }

  lemma CancelAppends(w: World, id: nat, now: int)
    requires Inv(w)
    ensures Appends(w, Cancel(w, id, now).0, Repeats(w, DoCancel(id, now)))
  {
    hide Inv, Cancel, Free, Announcements.CancelledRow;
    CancelOutbox(w, id, now);
    var (w', r) := Cancel(w, id, now);
    var repeats := Repeats(w, DoCancel(id, now));
    assert repeats == (r.Success? && Announcements.CancelledRow(id, w.outbox));
    hide Repeats;
    if r.Success? {
      var t, cents :| w'.outbox == w.outbox + [BookingCancelled(id, t, cents), RebuildCancelled(id)];
      CancelKeysFree(w, id, t, cents);
      hide Appends;
      TwoAppended(w, w', BookingCancelled(id, t, cents), RebuildCancelled(id), repeats);
    } else {
      NothingAppended(w, w', repeats);
    }
  }

  lemma CancelKeysFree(w: World, id: nat, tier: CancellationPolicy.Tier, cents: int)
    requires Inv(w)
    ensures Free(w.outbox, BookingCancelled(id, tier, cents)) && Free(w.outbox, RebuildCancelled(id))
            <==> !Announcements.CancelledRow(id, w.outbox)
  {
    Announcements.CancelKeysFreeIff(w.(uniqueKeys := true), id, CancelTicket(id, tier, None, None), cents);
  }

  lemma TimestampFreeIff(outbox: seq<OutboxRow>, id: nat, timestamp: int, delta: int, refund: Option<int>)
    ensures Free(outbox, DatesModified(id, timestamp, delta, refund)) <==> !SameTimestamp(id, timestamp, outbox)
  {
    var row := DatesModified(id, timestamp, delta, refund);
    if !SameTimestamp(id, timestamp, outbox) {
      forall r | r in outbox ensures KeyOf(r) != KeyOf(row) {
        assert r.DatesModified? ==> DatesModified(r.booking, r.timestamp, r.delta, r.refundIssued) in outbox;
      }
    }
  }

  lemma ModifyOutbox(w: World, id: nat, checkIn: int, checkOut: int, timestamp: int)
    ensures var (w', r) := ModifyDates(w, id, checkIn, checkOut, timestamp);
            && (r.Failure? ==> w'.outbox == w.outbox)
            && (r.Success? ==> exists refund :: w'.outbox == w.outbox + [DatesModified(id, timestamp, r.value, refund)]
                                                && CanEnqueue(w.uniqueKeys, w.outbox, DatesModified(id, timestamp, r.value, refund)))
  {
    hide Pricing.GetQuote, HasRealConflict, FindInitial, CanEnqueue;
    var (w', r) := ModifyDates(w, id, checkIn, checkOut, timestamp);
    if r.Success? {
      var row := w'.outbox[|w.outbox|];
      assert row == DatesModified(id, timestamp, r.value, row.refundIssued);
    }
  }

  lemma ModifyAppends(w: World, id: nat, checkIn: int, checkOut: int, timestamp: int)
    ensures Appends(w, ModifyDates(w, id, checkIn, checkOut, timestamp).0, Repeats(w, DoModifyDates(id, checkIn, checkOut, timestamp)))
  {
    ModifyOutbox(w, id, checkIn, checkOut, timestamp);
    var (w', r) := ModifyDates(w, id, checkIn, checkOut, timestamp);
    var repeats := Repeats(w, DoModifyDates(id, checkIn, checkOut, timestamp));
    assert repeats == (r.Success? && SameTimestamp(id, timestamp, w.outbox));
    hide ModifyDates, Repeats, SameTimestamp;
    if r.Success? {
      var refund :| w'.outbox == w.outbox + [DatesModified(id, timestamp, r.value, refund)]
                    && CanEnqueue(w.uniqueKeys, w.outbox, DatesModified(id, timestamp, r.value, refund));
      TimestampFreeIff(w.outbox, id, timestamp, r.value, refund);
      OneAppended(w, w', DatesModified(id, timestamp, r.value, refund), repeats);
    } else {
      NothingAppended(w, w', repeats);
    }
  }

  lemma RefundOutbox(w: World, c: nat, dollars: real)
    ensures var w' := RefundCharge(w, c, dollars).0;
            || w'.outbox == w.outbox
            || (&& c < |w.charges| && |w'.stripe.events| > |w.stripe.events|
                && w'.outbox == w.outbox + [ChargeRefundedByUs(w.charges[c].bookingId, c, |w.stripe.events|)])
  {
    hide CanEnqueue, Money.ToColumn;
  }

  lemma AllKnown(w: World)
    requires Inv(w)
    ensures forall row :: row in w.outbox ==> Known(w, row)
  {
  }

  lemma RefundKeyFree(w: World, row: OutboxRow)
    requires forall r :: r in w.outbox ==> Known(w, r)
    requires row.ChargeRefundedByUs? && row.refundId == |w.stripe.events|
    ensures Free(w.outbox, row)
  {
    forall r | r in w.outbox ensures KeyOf(r) != KeyOf(row) {
      assert Known(w, r);
    }
  }

  lemma RefundAppends(w: World, c: nat, dollars: real)
    requires Inv(w)
    ensures Appends(w, RefundCharge(w, c, dollars).0, false)
  {
    RefundOutbox(w, c, dollars);
    var w' := RefundCharge(w, c, dollars).0;
    if w'.outbox == w.outbox {
      NothingAppended(w, w', false);
    } else {
      var row := ChargeRefundedByUs(w.charges[c].bookingId, c, |w.stripe.events|);
      AllKnown(w);
      hide RefundCharge, Inv;
      RefundKeyFree(w, row);
      OneAppended(w, w', row, false);
    }
  }

  lemma PaymentKeysFreeIff(w: World, b: nat, c: nat)
    requires Structure.PaymentsAnnounced(w) && c < |w.charges| && w.charges[c].bookingId == b
    ensures Free(w.outbox, BookingConfirmed(b, c)) && Free(w.outbox, RebuildConfirmed(b)) <==> !Structure.HasPaidCharge(w, b)
  {
    Structure.PaymentKeysFreeIff(w.(uniqueKeys := true), b, c);
    assert Structure.HasPaidCharge(w.(uniqueKeys := true), b) == Structure.HasPaidCharge(w, b);
  }

  lemma PaymentOutbox(w: World, session: nat, pi: Option<nat>)
    ensures var (w', r) := HandleCheckoutSucceeded(w, session, pi);
            var found := FindBySession(w.charges, session);
            if found.Some? && w.charges[found.value].status != Succeeded
               && CanEnqueue(w.uniqueKeys, w.outbox, BookingConfirmed(w.charges[found.value].bookingId, found.value))
               && CanEnqueue(w.uniqueKeys, w.outbox, RebuildConfirmed(w.charges[found.value].bookingId))
            then w'.outbox == w.outbox + [BookingConfirmed(w.charges[found.value].bookingId, found.value), RebuildConfirmed(w.charges[found.value].bookingId)]
            else w'.outbox == w.outbox
  {
  }

  /** The handler runs after the event's row was inserted. */
  lemma PaymentAppends(w: World, recorded: World, e: nat)
    requires Inv(w) && e < |w.stripe.events| && e !in w.webhookEvents && w.stripe.events[e].CheckoutCompleted?
    requires recorded == w.(webhookEvents := w.webhookEvents[e := false])
    ensures Appends(w, Handle(recorded, e, w.stripe.events[e]).0, SecondPayment(w, e))
  {
    var event := w.stripe.events[e];
    PaymentOutbox(recorded, event.session, event.paymentIntent);
    var w' := Handle(recorded, e, event).0;
    assert w'.outbox == HandleCheckoutSucceeded(recorded, event.session, event.paymentIntent).0.outbox;
    var found := FindBySession(w.charges, event.session);
    var repeats := SecondPayment(w, e);
    assert repeats <==> found.Some? && w.charges[found.value].status != Succeeded && Structure.HasPaidCharge(w, w.charges[found.value].bookingId);
    PaymentsKnown(w);
    hide Handle, HandleCheckoutSucceeded, FindBySession, SecondPayment, Inv, Appends, Structure.HasPaidCharge, Structure.PaymentsAnnounced;
    if found.Some? && w.charges[found.value].status != Succeeded {
      PaymentRowsAppend(w, w', w.charges[found.value].bookingId, found.value);
    } else {
      NothingAppended(w, w', repeats);
    }
  }

  lemma PaymentRowsAppend(w: World, w': World, b: nat, c: nat)
    requires Structure.PaymentsAnnounced(w) && c < |w.charges| && w.charges[c].bookingId == b
    requires w'.outbox == if CanEnqueue(w.uniqueKeys, w.outbox, BookingConfirmed(b, c)) && CanEnqueue(w.uniqueKeys, w.outbox, RebuildConfirmed(b))
                          then w.outbox + [BookingConfirmed(b, c), RebuildConfirmed(b)] else w.outbox
    ensures Appends(w, w', Structure.HasPaidCharge(w, b))
  {
    PaymentKeysFreeIff(w, b, c);
    Structure.PaymentKeysFreeIff(w, b, c);
    var repeats := Structure.HasPaidCharge(w, b);
    hide Structure.PaymentsAnnounced, Structure.HasPaidCharge, CanEnqueue, Free, Appends;
    if w.uniqueKeys && repeats {
      NothingAppended(w, w', repeats);
    } else {
      TwoAppended(w, w', BookingConfirmed(b, c), RebuildConfirmed(b), repeats);
    }
  }

  lemma PaymentsKnown(w: World)
    requires Inv(w)
    ensures Structure.PaymentsAnnounced(w)
  {
  }

  lemma OtherEventAppends(w: World, recorded: World, e: nat)
    requires Inv(w) && e < |w.stripe.events| && e !in w.webhookEvents && !w.stripe.events[e].CheckoutCompleted?
    requires recorded == w.(webhookEvents := w.webhookEvents[e := false])
    ensures Appends(w, Handle(recorded, e, w.stripe.events[e]).0, false)
  {
    hide FindByPaymentIntent, Ledger.Ledger, Structure.Sound, Announcements.Announced;
    var w' := Handle(recorded, e, w.stripe.events[e]).0;
    if w'.outbox == w.outbox {
      NothingAppended(w, w', false);
    } else {
      var row := w'.outbox[|w.outbox|];
      assert w'.outbox == w.outbox + [row] && FromEvent(row) && row.event == e && e in w'.webhookEvents;
      AllKnown(w);
      hide Handle, Inv;
      forall r | r in w.outbox ensures KeyOf(r) != KeyOf(row) {
        assert Known(w, r);
      }
      OneAppended(w, w', row, false);
    }
  }

  lemma DeliveryAppends(w: World, e: nat)
    requires Inv(w)
    ensures Appends(w, Receive(w, e).0, SecondPayment(w, e))
    ensures Appends(w, DieInReceive(w, e), SecondPayment(w, e))
  {
    hide Handle, Inv;
    if e < |w.stripe.events| && e !in w.webhookEvents {
      var recorded := w.(webhookEvents := w.webhookEvents[e := false]);
      if w.stripe.events[e].CheckoutCompleted? {
        PaymentAppends(w, recorded, e);
      } else {
        OtherEventAppends(w, recorded, e);
        assert !SecondPayment(w, e);
      }
      var handled := Handle(recorded, e, w.stripe.events[e]).0;
      assert News(w, Receive(w, e).0) == News(w, handled);
    } else {
      NothingAppended(w, Receive(w, e).0, SecondPayment(w, e));
      NothingAppended(w, DieInReceive(w, e), SecondPayment(w, e));
    }
  }

  lemma ServiceOthersAppendNothing(w: World, op: Op)
    requires !op.DoCreateInquiry? && !op.DoApprove? && !op.DoAdHocCharge? && !op.DoDecline? && !op.DoCancel?
    requires !op.DoModifyDates? && !op.DoRefund? && !op.Deliver? && !op.CrashInDelivery?
    requires !ByEnvironment(op)
    ensures Apply(w, op).outbox == w.outbox
  {
    hide Pricing.GetQuote, HasRealConflict, CancelRead;
  }

  lemma OthersAppendNothing(w: World, op: Op)
    requires !op.DoCreateInquiry? && !op.DoApprove? && !op.DoAdHocCharge? && !op.DoDecline? && !op.DoCancel?
    requires !op.DoModifyDates? && !op.DoRefund? && !op.Deliver? && !op.CrashInDelivery?
    ensures Apply(w, op).outbox == w.outbox
  {
    hide Apply;
    if ByEnvironment(op) { EnvironmentLeaves(w, op); } else { ServiceOthersAppendNothing(w, op); }
  }

  /** The operations that never repeat a key. */
  lemma QuietAppends(w: World, op: Op)
    requires Inv(w) && !op.DoCancel? && !op.DoModifyDates? && !op.Deliver? && !op.CrashInDelivery?
    ensures Appends(w, Apply(w, op), false)
  {
    hide Inv, Appends;
    hide CreateInquiry, TransitionInquiry, ConvertInquiry, Approve, DieInApprove, Decline, Cancel, DieInCancel;
    hide ModifyDates, CreateAdHocCharge, DieInAdHocCharge, RefundCharge, Receive, DieInReceive;
    match op
    case DoCreateInquiry(email, i, o) => InquiryAppends(w, email, i, o);
    case DoApprove(_, _) => LinkAppends(w, op);
    case DoAdHocCharge(_, _, _, _, _) => LinkAppends(w, op);
    case DoDecline(id) => DeclineAppends(w, id);
    case DoRefund(c, dollars) => RefundAppends(w, c, dollars);
    case _ =>
      OthersAppendNothing(w, op);
      NothingAppended(w, Apply(w, op), false);
  }

  lemma StepAppends(w: World, op: Op)
    requires Inv(w)
    ensures Appends(w, Apply(w, op), Repeats(w, op))
  {
    hide SecondPayment, SameTimestamp, Inv, Appends;
    hide CreateInquiry, TransitionInquiry, ConvertInquiry, Approve, DieInApprove, Decline, Cancel, DieInCancel;
    hide ModifyDates, CreateAdHocCharge, DieInAdHocCharge, RefundCharge, Receive, DieInReceive;
    match op
    case DoCancel(id, now) => CancelAppends(w, id, now);
    case DoModifyDates(id, i, o, ts) => ModifyAppends(w, id, i, o, ts);
    case Deliver(e) => DeliveryAppends(w, e);
    case CrashInDelivery(e) => DeliveryAppends(w, e);
    case _ =>
      QuietAppends(w, op);
  }

  // ---- runs ----

  lemma KnownStays(w: World, w': World, repeats: bool)
    requires Appends(w, w', repeats) && forall row :: row in w.outbox ==> Known(w, row)
    requires w.webhookEvents.Keys <= w'.webhookEvents.Keys && |w.stripe.events| <= |w'.stripe.events|
    ensures forall row :: row in w'.outbox ==> Known(w', row)
  {
    hide KeysDistinct, Free, MayRepeat;
    var news := News(w, w');
    assert w'.outbox == w.outbox + news;
    forall row | row in w'.outbox ensures Known(w', row) {
      if row in w.outbox {
        assert Known(w, row);
      } else {
        assert row in news;
      }
    }
  }

  lemma EventsStay(w: World, w': World)
    requires Ledger.Advances(w, w')
    ensures w.webhookEvents.Keys <= w'.webhookEvents.Keys && |w.stripe.events| <= |w'.stripe.events|
  {
  }

  lemma StepKeepsInv(w: World, op: Op)
    requires Inv(w) && Structure.ThroughApi(op)
    ensures Inv(Apply(w, op))
  {
    StepAppends(w, op);
    hide Apply, Ledger.Ledger, Ledger.Advances, Structure.Sound, Announcements.Announced, Appends, Repeats, Known, Structure.ThroughApi;
    Ledger.StepKeepsLedger(w, op);
    Structure.StepKeepsSound(w, op);
    Announcements.StepAnnounces(w, op);
    EventsStay(w, Apply(w, op));
    KnownStays(w, Apply(w, op), Repeats(w, op));
  }

  lemma Grown(outbox: seq<OutboxRow>, news: seq<OutboxRow>)
    requires KeysDistinct(outbox) && KeysDistinct(news)
    ensures KeysDistinct(outbox + news) <==> forall row :: row in news ==> Free(outbox, row)
  {
    if KeysDistinct(outbox + news) {
      forall row, r | row in news && r in outbox ensures KeyOf(r) != KeyOf(row) {
        var k :| 0 <= k < |outbox| && outbox[k] == r;
        var l :| 0 <= l < |news| && news[l] == row;
        assert (outbox + news)[k] == r && (outbox + news)[|outbox| + l] == row;
      }
    }
    if forall row :: row in news ==> Free(outbox, row) {
      forall k, l | 0 <= k < l < |outbox + news| ensures KeyOf((outbox + news)[k]) != KeyOf((outbox + news)[l]) {
        if k < |outbox| <= l {
          assert news[l - |outbox|] in news && outbox[k] in outbox;
        } else if |outbox| <= k {
          assert KeyOf(news[k - |outbox|]) != KeyOf(news[l - |outbox|]);
        } else {
          assert KeyOf(outbox[k]) != KeyOf(outbox[l]);
        }
      }
    }
  }

  lemma GrownStep(w: World, w': World, repeats: bool)
    requires Appends(w, w', repeats) && KeysDistinct(w.outbox)
    ensures KeysDistinct(w'.outbox) <==> w.uniqueKeys || !repeats
  {
    hide KeysDistinct, Free, Known, MayRepeat;
    assert w'.outbox == w.outbox + News(w, w');
    Grown(w.outbox, News(w, w'));
  }

  ghost predicate NoStepRepeats(w: World, ops: seq<Op>)
    decreases |ops|
  {
    ops != [] ==> !Repeats(w, ops[0]) && NoStepRepeats(Apply(w, ops[0]), ops[1..])
  }

  lemma {:induction false} RepeatsStay(w: World, ops: seq<Op>)
    requires Ledger.Ledger(w) && !KeysDistinct(w.outbox)
    ensures !KeysDistinct(Run(w, ops).outbox)
  {
    Ledger.RunKeepsLedger(w, ops);
    var k, l :| 0 <= k < l < |w.outbox| && KeyOf(w.outbox[k]) == KeyOf(w.outbox[l]);
    var end := Run(w, ops).outbox;
    assert w.outbox <= end && end[k] == w.outbox[k] && end[l] == w.outbox[l];
  }

  lemma {:induction false} RunKeysIff(w: World, ops: seq<Op>)
    requires Inv(w) && Structure.AllThroughApi(ops) && KeysDistinct(w.outbox)
    ensures KeysDistinct(Run(w, ops).outbox) <==> w.uniqueKeys || NoStepRepeats(w, ops)
    decreases |ops|
  {
    if ops != [] {
      hide Apply, Inv, Repeats, Appends, KeysDistinct;
      var w' := Apply(w, ops[0]);
      StepAppends(w, ops[0]);
      StepKeepsInv(w, ops[0]);
      GrownStep(w, w', Repeats(w, ops[0]));
      if KeysDistinct(w'.outbox) {
        RunKeysIff(w', ops[1..]);
      } else {
        assert Ledger.Ledger(w') by { InvHasLedger(w'); }
        RepeatsStay(w', ops[1..]);
      }
    }
  }

  lemma InvHasLedger(w: World)
    requires Inv(w)
    ensures Ledger.Ledger(w)
  {
  }

  lemma EmptyInv(unique: bool)
    ensures Inv(Empty(unique))
  {
    assert Ledger.Ledger(Empty(unique));
    assert Structure.Sound(Empty(unique));
    hide Ledger.Ledger, Structure.Sound;
  }

  /** A run repeats a key exactly when the index is not there and one of its steps is a second payment,
      a second cancellation, or a second date change in the same millisecond, of one booking. */
  lemma KeysRepeatIff(unique: bool, ops: seq<Op>)
    requires Structure.AllThroughApi(ops)
    ensures KeysDistinct(Run(Empty(unique), ops).outbox) <==> unique || NoStepRepeats(Empty(unique), ops)
  {
    EmptyInv(unique);
    hide Inv, Run, NoStepRepeats;
    RunKeysIff(Empty(unique), ops);
  }

  /** A run without the index that repeats a key: two date changes in one millisecond. */
  lemma TwoChangesRepeat(timestamp: int)
    ensures Structure.AllThroughApi(Scenarios.TwoChangesRun(timestamp))
    ensures !KeysDistinct(Run(Empty(false), Scenarios.TwoChangesRun(timestamp)).outbox)
  {
    Scenarios.AfterTwoChanges(timestamp);
    hide Run;
    var outbox := Run(Empty(false), Scenarios.TwoChangesRun(timestamp)).outbox;
    assert outbox[2] == outbox[3] == DatesModified(0, timestamp, 0, None);
  }

  /** The keys of all other rows never repeat, with or without the index. */
  ghost predicate OthersDistinct(outbox: seq<OutboxRow>) {
    forall k, l :: 0 <= k < l < |outbox| && !MayRepeat(outbox[l]) ==> KeyOf(outbox[k]) != KeyOf(outbox[l])
  }

  lemma OthersGrow(outbox: seq<OutboxRow>, news: seq<OutboxRow>)
    requires OthersDistinct(outbox) && KeysDistinct(news)
    requires forall row :: row in news ==> MayRepeat(row) || Free(outbox, row)
    ensures OthersDistinct(outbox + news)
  {
    var all := outbox + news;
    forall k, l | 0 <= k < l < |all| && !MayRepeat(all[l]) ensures KeyOf(all[k]) != KeyOf(all[l]) {
      if k < |outbox| <= l {
        assert news[l - |outbox|] in news && outbox[k] in outbox;
      } else if |outbox| <= k {
        assert KeyOf(news[k - |outbox|]) != KeyOf(news[l - |outbox|]);
      } else {
        assert KeyOf(outbox[k]) != KeyOf(outbox[l]);
      }
    }
  }

  lemma {:induction false} RunOthersDistinct(w: World, ops: seq<Op>)
    requires Inv(w) && Structure.AllThroughApi(ops) && OthersDistinct(w.outbox)
    ensures OthersDistinct(Run(w, ops).outbox)
    decreases |ops|
  {
    hide Inv, Apply, Repeats, OthersDistinct, KeysDistinct, Free, Known;
    if ops != [] {
      StepAppends(w, ops[0]);
      StepKeepsInv(w, ops[0]);
      var news := News(w, Apply(w, ops[0]));
      assert Apply(w, ops[0]).outbox == w.outbox + news;
      OthersGrow(w.outbox, news);
      RunOthersDistinct(Apply(w, ops[0]), ops[1..]);
    }
  }

  /** Inquiry, approval, ad-hoc, decline, refund and event rows: their keys are unique by what they name. */
  lemma OtherKeysNeverRepeat(unique: bool, ops: seq<Op>)
    requires Structure.AllThroughApi(ops)
    ensures OthersDistinct(Run(Empty(unique), ops).outbox)
  {
    EmptyInv(unique);
    hide Inv, Run;
    RunOthersDistinct(Empty(unique), ops);
  }
}
