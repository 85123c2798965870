/**
 The services as they run: methods that read rows, call Stripe and write tables in the source's
 order, each proved to do to the World exactly what Operations says.
 */
module Services {
  import opened Wrappers
  import opened Schema
  import opened Database
  import Availability
  import CancellationPolicy
  import Money
  import Operations
  import Pricing
  import Stripe

  /** apps/api/src/booking/booking.service.ts */
  class BookingService {
    const db: Tables
    const stripe: StripeAccount
    const availability: Availability.AvailabilityService

    constructor (db: Tables, stripe: StripeAccount, availability: Availability.AvailabilityService)
      requires availability.db == db
      ensures this.db == db && this.stripe == stripe && this.availability == availability
    {
      this.db, this.stripe, this.availability := db, stripe, availability;
    }

    ghost predicate Wired() {
      availability.db == db
    }

    function Now(): World
      reads db, stripe
    {
      WorldOf(db, stripe)
    }

    method ConvertInquiry(id: nat) returns (r: Result<nat>)
      modifies db
      ensures (Now(), r) == Operations.ConvertInquiry(old(Now()), id)
    {
      if id >= |db.inquiries| { return Failure(NotFound); }
      var inquiry := db.inquiries[id];
      if inquiry.status == Converted { return Failure(Conflict); }
      if inquiry.status == Closed { return Failure(ValidationFailed); }
      if db.property.None? { return Failure(NotFound); }
      var quote := Pricing.GetQuote(db.property, db.jurisdictions, inquiry.checkIn, inquiry.checkOut);
      if quote.Failure? { return Failure(quote.error); }
      var created := |db.bookings|;
      db.bookings := db.bookings + [Operations.NewBooking(inquiry, quote.value)];
      db.inquiries := db.inquiries[id := inquiry.(status := Converted, convertedBookingId := Some(created))];
      return Success(created);
    }

    method Approve(id: nat, reply: Stripe.SessionReply) returns (r: Result<nat>)
      requires Wired()
      modifies db, stripe
      ensures (Now(), r) == Operations.Approve(old(Now()), id, reply)
    {
      if id >= |db.bookings| { return Failure(NotFound); }
      var b := db.bookings[id];
      if b.status != PendingApproval { return Failure(Conflict); }
      if b.guest.None? { return Failure(ValidationFailed); }
      var conflicts := availability.ListUnavailableInRange(b.checkIn, b.checkOut);
      var remaining := Availability.RealConflicts(conflicts, Availability.Range(b.checkIn, b.checkOut));
      Availability.ConflictsAgree(Now(), conflicts, b.checkIn, b.checkOut, b.checkIn, b.checkOut);
      hide Availability.RealConflicts, Operations.HasRealConflict, CanEnqueue;
      if |remaining| > 0 { return Failure(DoubleBooking); }

      // the charge row comes first, so that the session can name it
      var c := |db.charges|;
      ghost var before := db.charges;
      db.charges := db.charges + [Charge(id, Initial, b.Total(), Pending, None, None, 0)];
      var session := stripe.CreateCheckoutSession(c, b.Total(), reply);
      if session.Failure? {
        db.charges := db.charges[..c];
        assert db.charges == before;
        return Failure(session.error);
      }
      var ok := CommitApproval(id, c, session.value.0, session.value.1);
      return if ok then Success(c) else Failure(UniqueViolation);
    }

    /** The transaction of approve: charge sent, booking approved, one outbox row, or nothing. */
    method CommitApproval(id: nat, c: nat, session: nat, pi: Option<nat>) returns (ok: bool)
      requires id < |db.bookings| && c == |db.charges| - 1
      modifies db
      ensures ok == CanEnqueue(db.uniqueKeys, old(db.outbox), BookingApproved(id, c))
      ensures !ok ==> Now() == old(Now())
      ensures ok ==> Now() == old(Now()).(
                charges := old(db.charges)[..c] + [old(db.charges[c]).(status := Sent, sessionId := Some(session), paymentIntentId := pi)],
                bookings := WithStatus(old(db.bookings), id, Approved),
                outbox := old(db.outbox) + [BookingApproved(id, c)])
    {
      hide CanEnqueue;
      var charges, bookings := db.charges, db.bookings;
      db.charges := db.charges[c := db.charges[c].(status := Sent, sessionId := Some(session), paymentIntentId := pi)];
      db.bookings := WithStatus(db.bookings, id, Approved);
      ok := db.Enqueue(BookingApproved(id, c));
      if !ok {
        db.charges, db.bookings := charges, bookings;
      }
    }

    method HandleCheckoutSucceeded(session: nat, pi: Option<nat>) returns (r: Result<Option<nat>>)
      modifies db
      ensures (Now(), r) == Operations.HandleCheckoutSucceeded(old(Now()), session, pi)
      ensures db.webhookEvents == old(db.webhookEvents)
    {
      hide CanEnqueue;
      var found := FindBySession(db.charges, session);
      if found.None? { return Success(None); }
      var c := found.value;
      var charge := db.charges[c];
      if charge.status == Succeeded { return Success(Some(c)); }
      var known := if pi.Some? then pi else charge.paymentIntentId;
      var charges, bookings, outbox := db.charges, db.bookings, db.outbox;
      db.charges := db.charges[c := charge.(status := Succeeded, paymentIntentId := known)];
      db.bookings := WithStatus(db.bookings, charge.bookingId, Confirmed);
      var ok := db.Enqueue(BookingConfirmed(charge.bookingId, c));
      EnqueueAnother(db.uniqueKeys, outbox, BookingConfirmed(charge.bookingId, c), RebuildConfirmed(charge.bookingId));
      if ok {
        ok := db.Enqueue(RebuildConfirmed(charge.bookingId));
      }
      if !ok {
        db.charges, db.bookings, db.outbox := charges, bookings, outbox;
        return Failure(UniqueViolation);
      }
      assert db.outbox == outbox + [BookingConfirmed(charge.bookingId, c), RebuildConfirmed(charge.bookingId)];
      return Success(Some(c));
    }

    method Decline(id: nat) returns (r: Result<()>)
      modifies db
      ensures (Now(), r) == Operations.Decline(old(Now()), id)
    {
      if id >= |db.bookings| { return Failure(NotFound); }
      var b := db.bookings[id];
      if b.status != PendingApproval { return Failure(Conflict); }
      var bookings := db.bookings;
      db.bookings := db.bookings[id := b.(status := Cancelled, tierApplied := Some(Declined), refundAmount := Some(0))];
      var ok := db.Enqueue(BookingDeclined(id));
      if !ok {
        db.bookings := bookings;
        return Failure(UniqueViolation);
      }
      return Success(());
    }

    method Cancel(id: nat, now: int) returns (r: Result<()>)
      modifies db, stripe
      ensures (Now(), r) == Operations.Cancel(old(Now()), id, now)
    {
      var read := LoadForCancel(id, now);
      if read.Failure? { return Failure(read.error); }
      var won := ClaimCancellation(read.value);
      if !won { return Failure(Conflict); }
      var refund := RefundCancellation(read.value);
      if refund.Failure? { return Failure(refund.error); }
      r := CommitCancellation(read.value, refund.value);
    }

    method LoadForCancel(id: nat, now: int) returns (r: Result<Operations.CancelTicket>)
      ensures r == Operations.CancelRead(Now(), id, now)
    {
      if id >= |db.bookings| { return Failure(NotFound); }
      var b := db.bookings[id];
      if !Operations.Active(b.status) { return Failure(Conflict); }
      if db.property.None? || db.property.value.tiers.None? { return Failure(ValidationFailed); }
      var resolved := CancellationPolicy.ResolveCancellation(db.property.value.tiers.value, b.checkIn, now);
      if resolved.Failure? { return Failure(resolved.error); }
      var initial := FindInitial(db.charges, id);
      return Success(Operations.CancelTicket(id, resolved.value, initial, if initial.Some? then Some(db.charges[initial.value]) else None));
    }

    /** updateMany where the status is still approved or confirmed; won means its count was one. */
    method ClaimCancellation(t: Operations.CancelTicket) returns (won: bool)
      modifies db
      ensures (Now(), won) == Operations.CancelClaim(old(Now()), t)
    {
      won := t.booking < |db.bookings| && Operations.Active(db.bookings[t.booking].status);
      if won {
        db.bookings := db.bookings[t.booking := db.bookings[t.booking].(status := Cancelled, tierApplied := Some(Applied(t.tier)))];
      }
    }

    method RefundCancellation(t: Operations.CancelTicket) returns (r: Result<int>)
      modifies stripe
      ensures (Now(), r) == Operations.CancelRefund(old(Now()), t)
    {
      if t.charge.Some? && t.snapshot.Some? && t.snapshot.value.status == Succeeded
         && t.snapshot.value.paymentIntentId.Some? && t.tier.refundPercent > 0 {
        var initial := t.snapshot.value;
        var cents := CancellationPolicy.CalculateRefundCents(initial.amount, initial.refunded, t.tier.refundPercent);
        if cents > 0 {
          var answer := stripe.CreateRefund(initial.paymentIntentId.value, cents);
          return if answer.Failure? then Failure(answer.error) else Success(cents);
        }
      }
      return Success(0);
    }

    method CommitCancellation(t: Operations.CancelTicket, cents: int) returns (r: Result<()>)
      modifies db
      ensures (Now(), r) == Operations.CancelCommit(old(Now()), t, cents)
    {
      hide CanEnqueue, Money.Covers;
      var bookings, charges, outbox := db.bookings, db.charges, db.outbox;
      if t.booking < |db.bookings| {
        db.bookings := db.bookings[t.booking := db.bookings[t.booking].(refundAmount := Some(cents))];
      }
      if cents > 0 && t.charge.Some? && t.charge.value < |db.charges| && t.snapshot.Some? {
        var newRefunded := t.snapshot.value.refunded + cents;
        var charge := db.charges[t.charge.value];
        var fully := Money.Covers(newRefunded, t.snapshot.value.amount);
        db.charges := db.charges[t.charge.value := charge.(refunded := newRefunded, status := if fully then Refunded else charge.status)];
      }
      var ok := db.Enqueue(BookingCancelled(t.booking, t.tier, cents));
      EnqueueAnother(db.uniqueKeys, outbox, BookingCancelled(t.booking, t.tier, cents), RebuildCancelled(t.booking));
      if ok {
        ok := db.Enqueue(RebuildCancelled(t.booking));
      }
      if !ok {
        db.bookings, db.charges, db.outbox := bookings, charges, outbox;
        return Failure(UniqueViolation);
      }
      assert db.outbox == outbox + [BookingCancelled(t.booking, t.tier, cents), RebuildCancelled(t.booking)];
      return Success(());
    }

    method ModifyDates(id: nat, checkIn: int, checkOut: int, timestamp: int) returns (r: Result<int>)
      requires Wired()
      modifies db, stripe
      ensures (Now(), r) == Operations.ModifyDates(old(Now()), id, checkIn, checkOut, timestamp)
    {
      if id >= |db.bookings| { return Failure(NotFound); }
      var b := db.bookings[id];
      if b.status == Cancelled || b.status == Completed { return Failure(Conflict); }
      if checkOut <= checkIn { return Failure(ValidationFailed); }
      var conflicts := availability.ListUnavailableInRange(checkIn, checkOut);
      var remaining := Availability.RealConflicts(conflicts, Availability.Range(b.checkIn, b.checkOut));
      Availability.ConflictsAgree(Now(), conflicts, checkIn, checkOut, b.checkIn, b.checkOut);
      if |remaining| > 0 { return Failure(DoubleBooking); }
      var quote := Pricing.GetQuote(db.property, db.jurisdictions, checkIn, checkOut);
      if quote.Failure? { return Failure(quote.error); }
      r := ApplyNewDates(id, checkIn, checkOut, quote.value, timestamp);
    }

    method ApplyNewDates(id: nat, checkIn: int, checkOut: int, q: Pricing.Quote, timestamp: int) returns (r: Result<int>)
      requires id < |db.bookings|
      modifies db, stripe
      ensures (Now(), r) == Operations.ApplyNewDates(old(Now()), id, checkIn, checkOut, q, timestamp)
    {
      var b := db.bookings[id];
      var delta := q.subtotal + q.totalTax - b.Total();
      var refundIssued: Option<int> := None;
      var newCharges := db.charges;
      if delta < 0 {
        var initial := FindInitial(db.charges, id);
        if initial.Some? && db.charges[initial.value].status == Succeeded && db.charges[initial.value].paymentIntentId.Some? {
          var charge := db.charges[initial.value];
          var cents := -delta;
          var answer := stripe.CreateRefund(charge.paymentIntentId.value, cents);
          if answer.Failure? { return Failure(answer.error); }
          refundIssued := Some(cents);
          newCharges := db.charges[initial.value := charge.(refunded := charge.refunded + cents)];
        }
      }
      r := CommitDates(id, checkIn, checkOut, q, timestamp, delta, newCharges, refundIssued);
    }

    method CommitDates(id: nat, checkIn: int, checkOut: int, q: Pricing.Quote, timestamp: int,
                       delta: int, newCharges: seq<Charge>, refundIssued: Option<int>) returns (r: Result<int>)
      requires id < |db.bookings|
      modifies db
      ensures (Now(), r) == Operations.CommitDates(old(Now()), id, checkIn, checkOut, q, timestamp, delta, newCharges, refundIssued)
    {
      var bookings, charges := db.bookings, db.charges;
      db.charges := newCharges;
      db.bookings := db.bookings[id := Operations.Requoted(db.bookings[id], checkIn, checkOut, q)];
      var ok := db.Enqueue(DatesModified(id, timestamp, delta, refundIssued));
      if !ok {
        db.bookings, db.charges := bookings, charges;
        return Failure(UniqueViolation);
      }
      return Success(delta);
    }

    method CreateAdHocCharge(id: nat, kind: ChargeKind, dollars: real, described: bool, reply: Stripe.SessionReply) returns (r: Result<nat>)
      modifies db, stripe
      ensures (Now(), r) == Operations.CreateAdHocCharge(old(Now()), id, kind, dollars, described, reply)
    {
      if kind == Initial || dollars <= 0.0 || dollars > 50000.0 || !described { return Failure(ValidationFailed); }
      if id >= |db.bookings| { return Failure(NotFound); }
      if db.bookings[id].status == Cancelled { return Failure(Conflict); }
      if db.bookings[id].guest.None? { return Failure(ValidationFailed); }
      var c, amount := |db.charges|, Money.ToColumn(dollars);
      ghost var before := db.charges;
      db.charges := db.charges + [Charge(id, kind, amount, Pending, None, None, 0)];
      var session := stripe.CreateCheckoutSession(c, amount, reply);
      if session.Failure? {
        db.charges := db.charges[..c];
        assert db.charges == before;
        return Failure(session.error);
      }
      var charges := db.charges;
      db.charges := db.charges[c := db.charges[c].(status := Sent, sessionId := Some(session.value.0), paymentIntentId := session.value.1)];
      var ok := db.Enqueue(AdHocChargeSent(id, c));
      if !ok {
        db.charges := charges;
        return Failure(UniqueViolation);
      }
      assert db.charges == before + [db.charges[c]];
      return Success(c);
    }

    method RefundCharge(c: nat, dollars: real) returns (r: Result<()>)
      modifies db, stripe
      ensures (Now(), r) == Operations.RefundCharge(old(Now()), c, dollars)
    {
      if dollars <= 0.0 { return Failure(ValidationFailed); }
      if c >= |db.charges| { return Failure(NotFound); }
      var charge := db.charges[c];
      if charge.status != Succeeded && charge.status != Refunded { return Failure(Conflict); }
      if charge.paymentIntentId.None? { return Failure(ValidationFailed); }
      if dollars > Money.Dollars(charge.amount - charge.refunded) + 0.001 { return Failure(ValidationFailed); }
      var answer := stripe.CreateRefund(charge.paymentIntentId.value, Money.ToColumn(dollars));
      if answer.Failure? { return Failure(answer.error); }
      var newRefunded := Money.Dollars(charge.refunded) + dollars;
      var fully := newRefunded + 0.001 >= Money.Dollars(charge.amount);
      var charges := db.charges;
      db.charges := db.charges[c := charge.(refunded := Money.ToColumn(newRefunded), status := if fully then Refunded else charge.status)];
      var ok := db.Enqueue(ChargeRefundedByUs(charge.bookingId, c, answer.value));
      if !ok {
        db.charges := charges;
        return Failure(UniqueViolation);
      }
      return Success(());
    }
  }

  /** apps/api/src/inquiry/inquiry.service.ts */
  class InquiryService {
    const db: Tables
    const bookings: BookingService

    constructor (db: Tables, bookings: BookingService)
      requires bookings.db == db
      ensures this.db == db && this.bookings == bookings
    {
      this.db, this.bookings := db, bookings;
    }

    method Create(email: string, checkIn: int, checkOut: int) returns (r: Result<nat>)
      requires bookings.db == db
      modifies db
      ensures (bookings.Now(), r) == Operations.CreateInquiry(old(bookings.Now()), email, checkIn, checkOut)
    {
      var id := |db.inquiries|;
      var inquiries, outbox := db.inquiries, db.outbox;
      db.inquiries := db.inquiries + [Inquiry(email, checkIn, checkOut, New, None)];
      var ok := db.Enqueue(InquiryNew(id));
      if ok {
        ok := db.Enqueue(InquiryAcknowledged(id));
      }
      if !ok {
        db.inquiries, db.outbox := inquiries, outbox;
        return Failure(UniqueViolation);
      }
      assert db.outbox == outbox + [InquiryNew(id), InquiryAcknowledged(id)];
      return Success(id);
    }

    method Transition(id: nat, next: InquiryStatus) returns (r: Result<()>)
      requires bookings.db == db
      modifies db
      ensures (bookings.Now(), r) == Operations.TransitionInquiry(old(bookings.Now()), id, next)
    {
      if id >= |db.inquiries| { return Failure(NotFound); }
      if next !in Operations.AllowedTransitions(db.inquiries[id].status) { return Failure(ValidationFailed); }
      db.inquiries := db.inquiries[id := db.inquiries[id].(status := next)];
      return Success(());
    }

    method Convert(id: nat) returns (r: Result<nat>)
      requires bookings.db == db
      modifies db
      ensures (bookings.Now(), r) == Operations.ConvertInquiry(old(bookings.Now()), id)
    {
      r := bookings.ConvertInquiry(id);
    }
  }

  /** apps/api/src/webhooks/stripe-webhook.controller.ts */
  class StripeWebhookController {
    const db: Tables
    const stripe: StripeAccount
    const bookings: BookingService

    constructor (db: Tables, stripe: StripeAccount, bookings: BookingService)
      requires bookings.db == db && bookings.stripe == stripe
      ensures this.db == db && this.stripe == stripe && this.bookings == bookings
    {
      this.db, this.stripe, this.bookings := db, stripe, bookings;
    }

    ghost predicate Wired() {
      bookings.db == db && bookings.stripe == stripe
    }

    /** One POST whose signature names event `event`; an unsigned or unknown one is refused. */
    method Receive(event: nat) returns (r: Result<()>)
      requires Wired()
      modifies db
      ensures (bookings.Now(), r) == Operations.Receive(old(bookings.Now()), event)
    {
      if event >= |stripe.account.events| { return Failure(BadSignature); }
      if event in db.webhookEvents { return Success(()); }
      db.webhookEvents := db.webhookEvents[event := false];
      r := Handle(event, stripe.account.events[event]);
      if r.Failure? { return; }
      db.webhookEvents := db.webhookEvents[event := true];
    }

    method Handle(event: nat, e: Stripe.Event) returns (r: Result<()>)
      requires Wired()
      modifies db
      ensures (bookings.Now(), r) == Operations.Handle(old(bookings.Now()), event, e)
    {
      match e {
        case CheckoutCompleted(s, pi) =>
          var done := bookings.HandleCheckoutSucceeded(s, pi);
          r := if done.Success? then Success(()) else Failure(done.error);
        case DisputeCreated(pi) =>
          r := Notify(DisputeOpened(FindByPaymentIntent(db.charges, pi), event));
        case DisputeClosed(pi) =>
          r := Notify(DisputeSettled(FindByPaymentIntent(db.charges, pi), event));
        case ChargeRefunded(pi, total, full) =>
          r := HandleChargeRefunded(event, pi, total, full);
        case PaymentFailed(pi) =>
          r := Notify(Schema.PaymentFailed(FindByPaymentIntent(db.charges, pi), event));
        case OtherEvent =>
          r := Success(());
      }
    }

    method Notify(row: OutboxRow) returns (r: Result<()>)
      requires Wired()
      modifies db
      ensures (bookings.Now(), r) == Operations.Enqueued(old(bookings.Now()), row)
    {
      var ok := db.Enqueue(row);
      r := if ok then Success(()) else Failure(UniqueViolation);
    }

    method HandleChargeRefunded(event: nat, pi: Option<nat>, amountRefunded: Option<int>, full: bool) returns (r: Result<()>)
      requires Wired()
      modifies db
      ensures (bookings.Now(), r) == Operations.HandleChargeRefunded(old(bookings.Now()), event, pi, amountRefunded, full)
    {
      var found := FindByPaymentIntent(db.charges, pi);
      var total := if amountRefunded.Some? then amountRefunded.value else 0;
      if found.Some? && Money.Covers(db.charges[found.value].refunded, total) { return Success(()); }
      if found.Some? {
        var charge := db.charges[found.value];
        var fully := full || Money.Covers(total, charge.amount);
        db.charges := db.charges[found.value := charge.(refunded := total, status := if fully then Refunded else charge.status)];
      }
      r := Notify(RefundedExternally(found, event, total));
    }
  }
}
