/**
 What the other calls of the services answer and write, row by row: who is let through, which columns
 change, and that nothing else does.
 */
module Outcomes {
  import opened Wrappers
  import opened Schema
  import opened Operations
  import Availability
  import ConflictChecks
  import Money
  import OutboxKeys
  import Pricing
  import RefundFlags
  import Stripe
  import Structure

  // ---- inquiries ----

  /** An inquiry that has ended moves no more; an open one moves forward, to whatever it is not yet. */
  lemma TransitionsGoForward(w: World, id: nat, next: InquiryStatus)
    ensures var (w', r) := TransitionInquiry(w, id, next);
            && (r == Failure(NotFound) <==> id >= |w.inquiries|)
            && (r.Success? <==>
                  && id < |w.inquiries| && w.inquiries[id].status != Converted && w.inquiries[id].status != Closed
                  && next != New && next != w.inquiries[id].status)
            && (r.Failure? ==> w' == w && (r.error == NotFound || r.error == ValidationFailed))
            && (r.Success? ==>
                  && w' == w.(inquiries := w'.inquiries) && |w'.inquiries| == |w.inquiries|
                  && w'.inquiries[id] == w.inquiries[id].(status := next)
                  && forall i :: 0 <= i < |w.inquiries| && i != id ==> w'.inquiries[i] == w.inquiries[i])
  {
  }

  /** A request is stored as it came, and announced to both sides. */
  lemma InquiryIsStored(w: World, email: string, checkIn: int, checkOut: int)
    requires Structure.KeysBounded(w)
    ensures var (w', r) := CreateInquiry(w, email, checkIn, checkOut);
            && r == Success(|w.inquiries|)
            && |w'.inquiries| == |w.inquiries| + 1 && w.inquiries <= w'.inquiries
            && var row := w'.inquiries[|w.inquiries|];
            && row.email == email && row.checkIn == checkIn && row.checkOut == checkOut
            && row.status == New && row.convertedBookingId == None
            && w' == w.(inquiries := w'.inquiries,
                        outbox := w.outbox + [InquiryNew(|w.inquiries|)] + [InquiryAcknowledged(|w.inquiries|)])
  {
    Structure.InquiryKeysFresh(w, |w.inquiries|);
    hide CanEnqueue, Structure.KeysBounded;
    assert w.outbox + [InquiryNew(|w.inquiries|), InquiryAcknowledged(|w.inquiries|)]
        == w.outbox + [InquiryNew(|w.inquiries|)] + [InquiryAcknowledged(|w.inquiries|)];
  }

  // ---- payment links ----

  /** A request for these dollars rounds to these cents. */
  predicate RoundsTo(dollars: real, cents: int) {
    cents as real - 0.5 <= dollars * 100.0 < cents as real + 0.5
  }

  /** A new charge with its session: Stripe is asked for the charge's own amount and told its id, and the
      PaymentIntent is on file if Stripe revealed it. */
  ghost predicate LinkSent(w: World, w': World, booking: nat, kind: ChargeKind, amount: int, revealed: bool, row: OutboxRow) {
    var c, s := |w.charges|, |w.stripe.sessions|;
    && |w'.charges| == c + 1 && w.charges <= w'.charges
    && var charge := w'.charges[c];
    && charge.bookingId == booking && charge.kind == kind && charge.amount == amount && charge.refunded == 0
    && charge.status == Sent && charge.sessionId == Some(s) && charge.paymentIntentId == (if revealed then Some(s) else None)
    && w'.stripe.sessions == w.stripe.sessions + [Stripe.Session(c, amount, false, 0)] && w'.stripe.events == w.stripe.events
    && w'.outbox == w.outbox + [row]
  }

  /** Approve goes through exactly for a pending booking with a guest, no other range in the way, and a
      session that Stripe opened; then the booking is approved and the guest gets a link for its total. */
  lemma ApproveGoesThroughIff(w: World, id: nat, reply: Stripe.SessionReply)
    requires Structure.Sound(w)
    ensures var (w', r) := Approve(w, id, reply);
            && (r.Success? <==>
                  && id < |w.bookings| && w.bookings[id].status == PendingApproval && w.bookings[id].guest.Some?
                  && !ConflictChecks.InTheWay(w, w.bookings[id].checkIn, w.bookings[id].checkOut,
                                              Availability.Range(w.bookings[id].checkIn, w.bookings[id].checkOut))
                  && reply.Opened? && w.bookings[id].subtotal + w.bookings[id].totalTax >= 0)
            && (r.Failure? ==> w' == w)
            && (r == Failure(NotFound) <==> id >= |w.bookings|)
            && (r == Failure(Conflict) <==> id < |w.bookings| && w.bookings[id].status != PendingApproval)
            && (r == Failure(ValidationFailed) <==>
                  id < |w.bookings| && w.bookings[id].status == PendingApproval && w.bookings[id].guest.None?)
            && (r.Success? ==>
                  && r.value == |w.charges|
                  && LinkSent(w, w', id, Initial, w.bookings[id].subtotal + w.bookings[id].totalTax, reply.revealsPaymentIntent,
                              BookingApproved(id, |w.charges|))
                  && w'.bookings == w.bookings[id := w.bookings[id].(status := Approved)]
                  && w' == w.(charges := w'.charges, bookings := w'.bookings, outbox := w'.outbox, stripe := w'.stripe))
  {
    if id < |w.bookings| {
      var b := w.bookings[id];
      assert Structure.BookingSound(b);
      ConflictChecks.ConflictIff(w, b.checkIn, b.checkOut, Availability.Range(b.checkIn, b.checkOut));
      Structure.ChargeKeysFresh(w, id, |w.charges|);
    }
    hide HasRealConflict, ConflictChecks.InTheWay, CanEnqueue, Structure.Sound;
  }

  /** The row that a crash leaves, and the session if Stripe had opened one already. */
  ghost predicate OrphanLeft(w: World, w': World, booking: nat, kind: ChargeKind, amount: int, atStripe: bool) {
    && w'.charges == w.charges + [Charge(booking, kind, amount, Pending, None, None, 0)]
    && w'.stripe.events == w.stripe.events
    && w'.stripe.sessions == w.stripe.sessions + (if atStripe then [Stripe.Session(|w.charges|, amount, false, 0)] else [])
    && w' == w.(charges := w'.charges, stripe := w'.stripe)
  }

  /** Dying between the two writes of approve or of an ad-hoc charge leaves a pending row for the full amount,
      exactly where the call would have gone on to Stripe. */
  lemma CrashesLeaveOrphans(w: World, id: nat, kind: ChargeKind, dollars: real, described: bool, atStripe: bool)
    requires Structure.BookingsSound(w.bookings)
    ensures var w' := DieInApprove(w, id, atStripe);
            if id < |w.bookings| && w.bookings[id].status == PendingApproval && w.bookings[id].guest.Some?
               && !ConflictChecks.InTheWay(w, w.bookings[id].checkIn, w.bookings[id].checkOut,
                                           Availability.Range(w.bookings[id].checkIn, w.bookings[id].checkOut))
            then
              var total := w.bookings[id].subtotal + w.bookings[id].totalTax;
              OrphanLeft(w, w', id, Initial, total, atStripe && total >= 0)
            else w' == w
    ensures var w' := DieInAdHocCharge(w, id, kind, dollars, described, atStripe);
            if kind != Initial && 0.0 < dollars <= 50000.0 && described
               && id < |w.bookings| && w.bookings[id].status != Cancelled && w.bookings[id].guest.Some?
            then exists amount :: RoundsTo(dollars, amount) && OrphanLeft(w, w', id, kind, amount, atStripe)
            else w' == w
  {
    if id < |w.bookings| {
      var b := w.bookings[id];
      assert Structure.BookingSound(b);
      ConflictChecks.ConflictIff(w, b.checkIn, b.checkOut, Availability.Range(b.checkIn, b.checkOut));
    }
    assert RoundsTo(dollars, Money.ToColumn(dollars));
    hide HasRealConflict, ConflictChecks.InTheWay;
  }

  /** An ad-hoc charge goes through exactly for the other kinds, a described amount up to 50000 dollars, a
      booking that is not cancelled and has a guest, and a session that Stripe opened; it is for the
      requested dollars, to the nearest cent. */
  lemma AdHocGoesThroughIff(w: World, id: nat, kind: ChargeKind, dollars: real, described: bool, reply: Stripe.SessionReply)
    requires Structure.KeysBounded(w)
    ensures var (w', r) := CreateAdHocCharge(w, id, kind, dollars, described, reply);
            && (r.Success? <==>
                  && kind != Initial && 0.0 < dollars <= 50000.0 && described
                  && id < |w.bookings| && w.bookings[id].status != Cancelled && w.bookings[id].guest.Some? && reply.Opened?)
            && (r.Failure? ==> w' == w)
            && (r.Success? ==>
                  && r.value == |w.charges| < |w'.charges|
                  && var amount := w'.charges[|w.charges|].amount;
                  && RoundsTo(dollars, amount)
                  && LinkSent(w, w', id, kind, amount, reply.revealsPaymentIntent, AdHocChargeSent(id, |w.charges|))
                  && w' == w.(charges := w'.charges, outbox := w'.outbox, stripe := w'.stripe))
  {
    Structure.ChargeKeysFresh(w, id, |w.charges|);
    hide CanEnqueue, Structure.KeysBounded;
  }

  /** Why an ad-hoc charge is refused. */
  lemma AdHocRefuses(w: World, id: nat, kind: ChargeKind, dollars: real, described: bool, reply: Stripe.SessionReply)
    requires Structure.KeysBounded(w)
    requires CreateAdHocCharge(w, id, kind, dollars, described, reply).1.Failure?
    ensures CreateAdHocCharge(w, id, kind, dollars, described, reply).1.error ==
            if kind == Initial || !(0.0 < dollars <= 50000.0) || !described then ValidationFailed
            else if id >= |w.bookings| then NotFound
            else if w.bookings[id].status == Cancelled then Conflict
            else if w.bookings[id].guest.None? then ValidationFailed
            else StripeError
  {
    Structure.ChargeKeysFresh(w, id, |w.charges|);
    hide CanEnqueue, Structure.KeysBounded;
  }

  /** Why a refund is refused before Stripe is asked. */
  lemma RefundRefuses(w: World, c: nat, dollars: real)
    ensures var (w', r) := RefundCharge(w, c, dollars);
            && (dollars <= 0.0 ==> r == Failure(ValidationFailed) && w' == w)
            && (dollars > 0.0 && c >= |w.charges| ==> r == Failure(NotFound) && w' == w)
            && (dollars > 0.0 && c < |w.charges| ==>
                  var charge := w.charges[c];
                  if charge.status != Succeeded && charge.status != Refunded then r == Failure(Conflict) && w' == w
                  else (charge.paymentIntentId.None? || dollars * 100.0 > (charge.amount - charge.refunded) as real + 0.1 ==>
                          r == Failure(ValidationFailed) && w' == w))
  {
    if c < |w.charges| {
      GuardInCents(dollars, w.charges[c].amount - w.charges[c].refunded);
    }
    hide RefundCall, RefundCommit;
  }

  // ---- endings ----

  /** Decline: exactly for pending bookings, and it leaves no refund owed. */
  lemma DeclineEnds(w: World, id: nat)
    ensures var (w', r) := Decline(w, id);
            && (r == Failure(NotFound) <==> id >= |w.bookings|)
            && (r == Failure(Conflict) <==> id < |w.bookings| && w.bookings[id].status != PendingApproval)
            && (r.Failure? ==> w' == w)
            && (r.Success? ==>
                  && |w'.bookings| == |w.bookings| && w'.outbox == w.outbox + [BookingDeclined(id)]
                  && w'.bookings[id].status == Cancelled && w'.bookings[id].refundAmount == Some(0)
                  && w'.bookings[id].tierApplied == Some(Declined)
                  && w' == w.(outbox := w'.outbox,
                              bookings := w.bookings[id := w.bookings[id].(status := Cancelled, refundAmount := Some(0), tierApplied := Some(Declined))]))
  {
  }

  // ---- date changes ----

  /** Who may change dates, and the refund of a drop: exactly the drop, from the first initial charge if it
      is paid, without a change of that charge's status. */
  lemma ModifyRefusesIff(w: World, id: nat, checkIn: int, checkOut: int, timestamp: int)
    ensures var (w', r) := ModifyDates(w, id, checkIn, checkOut, timestamp);
            && (r == Failure(NotFound) ==> id >= |w.bookings| || Pricing.GetQuote(w.property, w.jurisdictions, checkIn, checkOut) == Failure(NotFound))
            && (id >= |w.bookings| ==> r == Failure(NotFound))
            && (r == Failure(Conflict) <==> id < |w.bookings| && (w.bookings[id].status == Cancelled || w.bookings[id].status == Completed))
            && (r == Failure(ValidationFailed) <==>
                  id < |w.bookings| && w.bookings[id].status != Cancelled && w.bookings[id].status != Completed && checkOut <= checkIn)
            && (r.Failure? ==> w' == w.(stripe := w'.stripe))
  {
    var quote := Pricing.GetQuote(w.property, w.jurisdictions, checkIn, checkOut);
    assert checkIn < checkOut ==> quote != Failure(ValidationFailed) && quote != Failure(Conflict);
    hide HasRealConflict, FindInitial, CanEnqueue, Pricing.GetQuote;
  }

  ghost predicate DropPaid(w: World, w': World, c: nat, cents: int) {
    && c < |w.charges| && w.charges[c].paymentIntentId.Some? && w.charges[c].paymentIntentId.value < |w.stripe.sessions|
    && var pi := w.charges[c].paymentIntentId.value;
       var s := w.stripe.sessions[pi];
       && s.paid && 0 < cents && s.refunded + cents <= s.amount
       && w'.stripe.sessions == w.stripe.sessions[pi := s.(refunded := s.refunded + cents)]
       && w'.stripe.events == w.stripe.events + [Stripe.ChargeRefunded(Some(pi), Some(s.refunded + cents), s.refunded + cents == s.amount)]
       && w'.charges == w.charges[c := w.charges[c].(refunded := w.charges[c].refunded + cents)]
  }

  lemma ModifyPaysDrop(w: World, id: nat, checkIn: int, checkOut: int, timestamp: int)
    requires ModifyDates(w, id, checkIn, checkOut, timestamp).1.Success?
    ensures var (w', r) := ModifyDates(w, id, checkIn, checkOut, timestamp);
            var c := FindInitial(w.charges, id);
            var due := r.value < 0 && c.Some? && w.charges[c.value].status == Succeeded && w.charges[c.value].paymentIntentId.Some?;
            && w'.outbox == w.outbox + [DatesModified(id, timestamp, r.value, if due then Some(-r.value) else None)]
            && (if due then DropPaid(w, w', c.value, -r.value) else w'.charges == w.charges && w'.stripe == w.stripe)
            && w' == w.(bookings := w'.bookings, charges := w'.charges, outbox := w'.outbox, stripe := w'.stripe)
  {
    hide HasRealConflict, FindInitial, CanEnqueue, Pricing.GetQuote;
  }

  // ---- refunds by the admin ----

  /** refundCharge goes through exactly for a positive amount within what the row has left, on a paid or
      partly refunded charge with a PaymentIntent that Stripe can pay at least one cent from. */
  lemma RefundGoesThroughIff(w: World, c: nat, dollars: real, cents: int)
    requires OutboxKeys.Inv(w) && RoundsTo(dollars, cents)
    ensures RefundCharge(w, c, dollars).1.Success?
            <==> && dollars > 0.0 && c < |w.charges|
                 && (w.charges[c].status == Succeeded || w.charges[c].status == Refunded)
                 && w.charges[c].paymentIntentId.Some?
                 && dollars * 100.0 <= (w.charges[c].amount - w.charges[c].refunded) as real + 0.1
                 && w.charges[c].paymentIntentId.value < |w.stripe.sessions|
                 && var s := w.stripe.sessions[w.charges[c].paymentIntentId.value];
                    s.paid && cents > 0 && s.refunded + cents <= s.amount
  {
    assert Money.ToColumn(dollars) == cents;
    if c < |w.charges| {
      var row := ChargeRefundedByUs(w.charges[c].bookingId, c, |w.stripe.events|);
      OutboxKeys.AllKnown(w);
      OutboxKeys.RefundKeyFree(w, row);
      FreeCanEnqueue(w, row);
      GuardInCents(dollars, w.charges[c].amount - w.charges[c].refunded);
    }
    hide OutboxKeys.Inv, OutboxKeys.Free, CanEnqueue, Money.ToColumn;
  }

  lemma FreeCanEnqueue(w: World, row: OutboxRow)
    requires OutboxKeys.Free(w.outbox, row)
    ensures CanEnqueue(w.uniqueKeys, w.outbox, row)
  {
  }

  lemma GuardInCents(dollars: real, rest: int)
    ensures dollars <= Money.Dollars(rest) + 0.001 <==> dollars * 100.0 <= rest as real + 0.1
  {
    assert (Money.Dollars(rest) + 0.001 - dollars) * 100.0 == rest as real + 0.1 - dollars * 100.0;
  }

  /** What it writes: the cents on the row and at Stripe, the status when the request is all but a tenth of a
      cent of the rest, one event and one announcement. */
  lemma RefundBooks(w: World, c: nat, dollars: real, cents: int)
    requires RefundCharge(w, c, dollars).1.Success? && RoundsTo(dollars, cents)
    ensures var w' := RefundCharge(w, c, dollars).0;
            && c < |w.charges| && w.charges[c].paymentIntentId.Some? && w.charges[c].paymentIntentId.value < |w.stripe.sessions|
            && var charge := w.charges[c];
            var pi := charge.paymentIntentId.value;
            var total := w.stripe.sessions[pi].refunded + cents;
            && w'.charges == w.charges[c := charge.(
                 refunded := charge.refunded + cents,
                 status := if dollars * 100.0 + 0.1 >= (charge.amount - charge.refunded) as real then Refunded else charge.status)]
            && w'.stripe.sessions == w.stripe.sessions[pi := w.stripe.sessions[pi].(refunded := total)]
            && w'.stripe.events == w.stripe.events + [Stripe.ChargeRefunded(Some(pi), Some(total), total == w.stripe.sessions[pi].amount)]
            && w'.outbox == w.outbox + [ChargeRefundedByUs(charge.bookingId, c, |w.stripe.events|)]
            && w' == w.(charges := w'.charges, outbox := w'.outbox, stripe := w'.stripe)
  {
    assert Money.ToColumn(dollars) == cents;
    RefundFlags.RefundedRow(w, c, dollars);
    hide CanEnqueue, Money.ToColumn;
  }

  // ---- events ----

  /** No charge carries this session. */
  ghost predicate NoSession(charges: seq<Charge>, session: nat) {
    forall c :: 0 <= c < |charges| ==> charges[c].sessionId != Some(session)
  }

  /** A completed checkout: an unknown session and a charge that succeeded before change nothing; otherwise
      the charge succeeds, keeps or learns its PaymentIntent, and its booking is confirmed, unless the
      database refuses one of the two announcements. */
  lemma CheckoutConfirms(w: World, session: nat, pi: Option<nat>, c: nat)
    requires forall d :: 0 <= d < |w.charges| && w.charges[d].sessionId == Some(session) ==> d == c
    ensures var (w', r) := HandleCheckoutSucceeded(w, session, pi);
            && (NoSession(w.charges, session) ==> r == Success(None) && w' == w)
            && (c < |w.charges| && w.charges[c].sessionId == Some(session) && w.charges[c].status == Succeeded ==>
                  r == Success(Some(c)) && w' == w)
            && (r.Failure? ==> r.error == UniqueViolation && w' == w)
            && (c < |w.charges| && w.charges[c].sessionId == Some(session) && w.charges[c].status != Succeeded && r.Success? ==>
                  && r == Success(Some(c)) && |w'.charges| == |w.charges| && |w'.bookings| == |w.bookings|
                  && var charge := w.charges[c];
                  && w'.charges == w.charges[c := charge.(status := Succeeded, paymentIntentId := if pi.None? then charge.paymentIntentId else pi)]
                  && (charge.bookingId < |w.bookings| ==>
                        w'.bookings == w.bookings[charge.bookingId := w.bookings[charge.bookingId].(status := Confirmed)])
                  && w' == w.(charges := w'.charges, bookings := w'.bookings,
                              outbox := w.outbox + [BookingConfirmed(charge.bookingId, c), RebuildConfirmed(charge.bookingId)]))
  {
    hide CanEnqueue;
  }

  /** A refund that Stripe reports: nothing for a charge that shows it already; otherwise the charge shows the
      reported total, is refunded if that is all of it or Stripe says so, and the admin is told. */
  lemma RefundEventBooks(w: World, event: nat, pi: Option<nat>, amount: Option<int>, full: bool, c: nat)
    requires forall d :: 0 <= d < |w.charges| && pi.Some? && w.charges[d].paymentIntentId == pi ==> d == c
    ensures var (w', r) := HandleChargeRefunded(w, event, pi, amount, full);
            var total := if amount.None? then 0 else amount.value;
            if c < |w.charges| && pi.Some? && w.charges[c].paymentIntentId == pi then
              if total <= w.charges[c].refunded then r == Success(()) && w' == w
              else
                && w'.charges == w.charges[c := w.charges[c].(
                     refunded := total, status := if full || w.charges[c].amount <= total then Refunded else w.charges[c].status)]
                && (r.Success? ==> w' == w.(charges := w'.charges, outbox := w.outbox + [RefundedExternally(Some(c), event, total)]))
                && (r.Failure? ==> w' == w.(charges := w'.charges))
            else
              if r.Success? then w' == w.(outbox := w.outbox + [RefundedExternally(None, event, total)]) else w' == w
  {
    hide CanEnqueue;
  }

  /** Disputes and failed payments only tell the admin, and about the charge that carries the PaymentIntent. */
  lemma NoticesOnlyTell(w: World, event: nat, e: Stripe.Event, c: nat)
    requires e.DisputeCreated? || e.DisputeClosed? || e.PaymentFailed?
    requires forall d :: 0 <= d < |w.charges| && e.paymentIntent.Some? && w.charges[d].paymentIntentId == e.paymentIntent ==> d == c
    ensures var (w', r) := Handle(w, event, e);
            var about := if c < |w.charges| && e.paymentIntent.Some? && w.charges[c].paymentIntentId == e.paymentIntent then Some(c) else None;
            var row := if e.DisputeCreated? then DisputeOpened(about, event)
                       else if e.DisputeClosed? then DisputeSettled(about, event)
                       else PaymentFailed(about, event);
            if r.Success? then w' == w.(outbox := w.outbox + [row]) else w' == w && r.error == UniqueViolation
  {
    hide CanEnqueue;
  }

  /** Which handler an event reaches; events of other kinds change nothing. */
  lemma EventsAreDispatched(w: World, event: nat, e: Stripe.Event)
    ensures var (w', r) := Handle(w, event, e);
            && (e.OtherEvent? ==> w' == w && r == Success(()))
            && (e.CheckoutCompleted? ==> w' == HandleCheckoutSucceeded(w, e.session, e.paymentIntent).0
                                         && r.Success? == HandleCheckoutSucceeded(w, e.session, e.paymentIntent).1.Success?)
            && (e.ChargeRefunded? ==> (w', r) == HandleChargeRefunded(w, event, e.paymentIntent, e.amountRefunded, e.full))
  {
  }

  /** A delivery: unknown events are refused, known rows stop it, and otherwise the event's row is there
      afterwards, stamped exactly if the handler returned. */
  lemma DeliveryStamps(w: World, event: nat)
    ensures var (w', r) := Receive(w, event);
            && (r == Failure(BadSignature) <==> event >= |w.stripe.events|)
            && (event >= |w.stripe.events| || event in w.webhookEvents ==> w' == w)
            && (event < |w.stripe.events| && event !in w.webhookEvents ==>
                  && w'.webhookEvents == w.webhookEvents[event := r.Success?]
                  && w'.webhookEvents.Keys == w.webhookEvents.Keys + {event})
  {
    HandlersLeaveEventRows(w, event);
    hide Handle;
  }

  lemma HandlersLeaveEventRows(w: World, event: nat)
    ensures event < |w.stripe.events| ==>
              var recorded := w.(webhookEvents := w.webhookEvents[event := false]);
              var (w', r) := Handle(recorded, event, w.stripe.events[event]);
              && w'.webhookEvents == recorded.webhookEvents
              && (r.Failure? ==> r.error != BadSignature)
  {
    hide CanEnqueue, FindBySession, FindByPaymentIntent;
  }
}
