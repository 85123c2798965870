/**
 What each call of the services does to the World, as functions: the specification that the
 methods in Services.dfy meet and that every result about runs is proved on. Calls that other
 work can interleave with (refundCharge, cancel) are composed from their steps.
 */
module Operations {
  import opened Wrappers
  import opened Schema
  import CancellationPolicy
  import Money
  import Pricing
  import Stripe
  import Tax

  // ---- apps/api/src/inquiry/inquiry.service.ts ----

  function CreateInquiry(w: World, email: string, checkIn: int, checkOut: int): (r: (World, Result<nat>))
    ensures r.0.uniqueKeys == w.uniqueKeys
  {
    var id := |w.inquiries|;
    if !CanEnqueue(w.uniqueKeys, w.outbox, InquiryNew(id)) || !CanEnqueue(w.uniqueKeys, w.outbox, InquiryAcknowledged(id)) then
      (w, Failure(UniqueViolation))
    else
      (w.(inquiries := w.inquiries + [Inquiry(email, checkIn, checkOut, New, None)],
          outbox := w.outbox + [InquiryNew(id), InquiryAcknowledged(id)]),
       Success(id))
  }

  function AllowedTransitions(status: InquiryStatus): set<InquiryStatus> {
    match status
    case New => {Responded, Closed, Converted}
    case Responded => {Closed, Converted}
    case Converted => {}
    case Closed => {}
  }

  function TransitionInquiry(w: World, id: nat, next: InquiryStatus): (r: (World, Result<()>))
    ensures r.0.uniqueKeys == w.uniqueKeys
  {
    if id >= |w.inquiries| then (w, Failure(NotFound))
    else if next !in AllowedTransitions(w.inquiries[id].status) then (w, Failure(ValidationFailed))
    else (w.(inquiries := w.inquiries[id := w.inquiries[id].(status := next)]), Success(()))
  }

  // ---- apps/api/src/booking/booking.service.ts ----

  function NewBooking(inquiry: Inquiry, q: Pricing.Quote): Booking {
    Booking(Some(inquiry.email), PendingApproval, inquiry.checkIn, inquiry.checkOut, q.nights,
            q.nightlyRate, q.subtotal, q.stateTax, q.cityTax, q.totalTax, None, None)
  }

  function ConvertInquiry(w: World, id: nat): (r: (World, Result<nat>))
    ensures r.0.uniqueKeys == w.uniqueKeys
  {
    if id >= |w.inquiries| then (w, Failure(NotFound))
    else
      var inquiry := w.inquiries[id];
      if inquiry.status == Converted then (w, Failure(Conflict))
      else if inquiry.status == Closed then (w, Failure(ValidationFailed))
      else if w.property.None? then (w, Failure(NotFound))
      else
        match Pricing.GetQuote(w.property, w.jurisdictions, inquiry.checkIn, inquiry.checkOut)
        case Failure(e) => (w, Failure(e))
        case Success(q) =>
          var b := |w.bookings|;
          (w.(bookings := w.bookings + [NewBooking(inquiry, q)],
              inquiries := w.inquiries[id := inquiry.(status := Converted, convertedBookingId := Some(b))]),
           Success(b))
  }

  // ---- conflict check (apps/api/src/calendar/availability.service.ts) ----

  predicate Blocking(status: BookingStatus) {
    status in {PendingApproval, Approved, Confirmed, Completed}
  }

  predicate Overlaps(start1: int, end1: int, start2: int, end2: int) {
    start1 < end2 && start2 < end1
  }

  /** Some unavailable range in [from, to) is left after ranges equal to [ownIn, ownOut) are dropped. */
  predicate HasRealConflict(w: World, from: int, to: int, ownIn: int, ownOut: int) {
    && from < to
    && (|| (exists b :: 0 <= b < |w.bookings|
              && Blocking(w.bookings[b].status)
              && Overlaps(w.bookings[b].checkIn, w.bookings[b].checkOut, from, to)
              && !(w.bookings[b].checkIn == ownIn && w.bookings[b].checkOut == ownOut))
        || (exists k :: 0 <= k < |w.blocks|
              && Overlaps(w.blocks[k].startDate, w.blocks[k].endDate, from, to)
              && !(w.blocks[k].startDate == ownIn && w.blocks[k].endDate == ownOut)))
  }

  function PaymentIntentIf(revealed: bool, session: nat): Option<nat> {
    if revealed then Some(session) else None
  }

  function Approve(w: World, id: nat, reply: Stripe.SessionReply): (r: (World, Result<nat>))
    ensures r.0.uniqueKeys == w.uniqueKeys
  {
    if id >= |w.bookings| then (w, Failure(NotFound))
    else
      var b := w.bookings[id];
      if b.status != PendingApproval then (w, Failure(Conflict))
      else if b.guest.None? then (w, Failure(ValidationFailed))
      else if HasRealConflict(w, b.checkIn, b.checkOut, b.checkIn, b.checkOut) then (w, Failure(DoubleBooking))
      else if Stripe.Refuses(reply, b.Total()) then (w, Failure(StripeError))
      else
        var c, s := |w.charges|, |w.stripe.sessions|;
        var pending := Charge(id, Initial, b.Total(), Pending, None, None, 0);
        var stripe := Stripe.OpenSession(w.stripe, c, b.Total());
        if !CanEnqueue(w.uniqueKeys, w.outbox, BookingApproved(id, c)) then
          (w.(charges := w.charges + [pending], stripe := stripe), Failure(UniqueViolation))
        else
          var sent := pending.(status := Sent, sessionId := Some(s), paymentIntentId := PaymentIntentIf(reply.revealsPaymentIntent, s));
          (w.(charges := w.charges + [sent],
              bookings := WithStatus(w.bookings, id, Approved),
              outbox := w.outbox + [BookingApproved(id, c)],
              stripe := stripe),
           Success(c))
  }

  /** The charge row that approve and createAdHocCharge write first, and the session if Stripe opened one. */
  function Orphaned(w: World, id: nat, kind: ChargeKind, amount: int, atStripe: bool): (r: World)
    ensures r.uniqueKeys == w.uniqueKeys
  {
    w.(charges := w.charges + [Charge(id, kind, amount, Pending, None, None, 0)],
       stripe := if atStripe && amount >= 0 then Stripe.OpenSession(w.stripe, |w.charges|, amount) else w.stripe)
  }

  /** The process dies inside approve, after the charge row was written and before the transaction. */
  function DieInApprove(w: World, id: nat, atStripe: bool): (r: World)
    ensures r.uniqueKeys == w.uniqueKeys
  {
    if id >= |w.bookings| then w
    else
      var b := w.bookings[id];
      if b.status != PendingApproval || b.guest.None? || HasRealConflict(w, b.checkIn, b.checkOut, b.checkIn, b.checkOut) then w
      else Orphaned(w, id, Initial, b.Total(), atStripe)
  }

  function HandleCheckoutSucceeded(w: World, session: nat, pi: Option<nat>): (r: (World, Result<Option<nat>>))
    ensures r.0.uniqueKeys == w.uniqueKeys
  {
    match FindBySession(w.charges, session)
    case None => (w, Success(None))
    case Some(c) =>
      var charge := w.charges[c];
      if charge.status == Succeeded then (w, Success(Some(c)))
      else if !CanEnqueue(w.uniqueKeys, w.outbox, BookingConfirmed(charge.bookingId, c))
           || !CanEnqueue(w.uniqueKeys, w.outbox, RebuildConfirmed(charge.bookingId)) then
        (w, Failure(UniqueViolation))
      else
        var known := if pi.Some? then pi else charge.paymentIntentId;
        (w.(charges := w.charges[c := charge.(status := Succeeded, paymentIntentId := known)],
            bookings := WithStatus(w.bookings, charge.bookingId, Confirmed),
            outbox := w.outbox + [BookingConfirmed(charge.bookingId, c), RebuildConfirmed(charge.bookingId)]),
         Success(Some(c)))
  }

  function Decline(w: World, id: nat): (r: (World, Result<()>))
    ensures r.0.uniqueKeys == w.uniqueKeys
  {
    if id >= |w.bookings| then (w, Failure(NotFound))
    else
      var b := w.bookings[id];
      if b.status != PendingApproval then (w, Failure(Conflict))
      else if !CanEnqueue(w.uniqueKeys, w.outbox, BookingDeclined(id)) then (w, Failure(UniqueViolation))
      else
        (w.(bookings := w.bookings[id := b.(status := Cancelled, tierApplied := Some(Declined), refundAmount := Some(0))],
            outbox := w.outbox + [BookingDeclined(id)]),
         Success(()))
  }

  // ---- cancel, step by step ----

  predicate Active(status: BookingStatus) {
    status == Approved || status == Confirmed
  }

  /** What one cancel call remembers from its read: the tier and the initial charge as it was then. */
  datatype CancelTicket = CancelTicket(booking: nat, tier: CancellationPolicy.Tier, charge: Option<nat>, snapshot: Option<Charge>)

  function CancelRead(w: World, id: nat, now: int): Result<CancelTicket> {
    if id >= |w.bookings| then Failure(NotFound)
    else
      var b := w.bookings[id];
      if !Active(b.status) then Failure(Conflict)
      else if w.property.None? || w.property.value.tiers.None? then Failure(ValidationFailed)
      else
        match CancellationPolicy.ResolveCancellation(w.property.value.tiers.value, b.checkIn, now)
        case Failure(e) => Failure(e)
        case Success(tier) =>
          var c := FindInitial(w.charges, id);
          Success(CancelTicket(id, tier, c, if c.Some? then Some(w.charges[c.value]) else None))
  }

  /** The conditional updateMany: it wins only if the row is still approved or confirmed. */
  function CancelClaim(w: World, t: CancelTicket): (r: (World, bool))
    ensures r.0.uniqueKeys == w.uniqueKeys
  {
    if t.booking < |w.bookings| && Active(w.bookings[t.booking].status) then
      (w.(bookings := w.bookings[t.booking := w.bookings[t.booking].(status := Cancelled, tierApplied := Some(Applied(t.tier)))]), true)
    else (w, false)
  }

  /** Cents to refund; 0 means no Stripe call. */
  function CancelRefundCents(t: CancelTicket): (cents: int)
    ensures cents >= 0
    ensures cents > 0 ==> t.charge.Some? && t.snapshot.Some? && t.snapshot.value.paymentIntentId.Some?
  {
    if t.charge.Some? && t.snapshot.Some? && t.snapshot.value.status == Succeeded
       && t.snapshot.value.paymentIntentId.Some? && t.tier.refundPercent > 0 then
      var cents := CancellationPolicy.CalculateRefundCents(t.snapshot.value.amount, t.snapshot.value.refunded, t.tier.refundPercent);
      if cents > 0 then cents else 0
    else 0
  }

  function CancelRefund(w: World, t: CancelTicket): (r: (World, Result<int>))
    ensures r.0.uniqueKeys == w.uniqueKeys && r.0.bookings == w.bookings
  {
    var cents := CancelRefundCents(t);
    if cents == 0 then (w, Success(0))
    else
      match Stripe.CreateRefund(w.stripe, t.snapshot.value.paymentIntentId.value, cents)
      case Failure(e) => (w, Failure(e))
      case Success(a) => (w.(stripe := a), Success(cents))
  }

  /** The row after `refundedAmount: snapshot + cents`, flipped to refunded when that covers the amount. */
  function Booked(charge: Charge, before: int, cents: int, amount: int): Charge {
    var total := before + cents;
    charge.(refunded := total, status := if Money.Covers(total, amount) then Refunded else charge.status)
  }

  function CancelCommit(w: World, t: CancelTicket, cents: int): (r: (World, Result<()>))
    ensures r.0.uniqueKeys == w.uniqueKeys
  {
    var row := BookingCancelled(t.booking, t.tier, cents);
    if !CanEnqueue(w.uniqueKeys, w.outbox, row) || !CanEnqueue(w.uniqueKeys, w.outbox, RebuildCancelled(t.booking)) then
      (w, Failure(UniqueViolation))
    else
      var bookings := if t.booking < |w.bookings| then w.bookings[t.booking := w.bookings[t.booking].(refundAmount := Some(cents))] else w.bookings;
      var charges :=
        if cents > 0 && t.charge.Some? && t.charge.value < |w.charges| && t.snapshot.Some? then
          w.charges[t.charge.value := Booked(w.charges[t.charge.value], t.snapshot.value.refunded, cents, t.snapshot.value.amount)]
        else w.charges;
      (w.(bookings := bookings, charges := charges, outbox := w.outbox + [row, RebuildCancelled(t.booking)]), Success(()))
  }

  function Cancel(w: World, id: nat, now: int): (r: (World, Result<()>))
    ensures r.0.uniqueKeys == w.uniqueKeys
  {
    match CancelRead(w, id, now)
    case Failure(e) => (w, Failure(e))
    case Success(t) =>
      var (claimed, won) := CancelClaim(w, t);
      if !won then (w, Failure(Conflict))
      else
        var (paid, refund) := CancelRefund(claimed, t);
        match refund
        case Failure(e) => (paid, Failure(e))
        case Success(cents) => CancelCommit(paid, t, cents)
  }

  /** The process dies inside cancel, after the claim. */
  function DieInCancel(w: World, id: nat, now: int): (r: World)
    ensures r.uniqueKeys == w.uniqueKeys
  {
    match CancelRead(w, id, now)
    case Failure(_) => w
    case Success(t) => CancelClaim(w, t).0
  }

  // ---- modifyDates ----

  /** The Stripe refund that a price drop triggers: 0 for none. Not capped at the remaining balance. */
  function DropRefundCents(w: World, id: nat, delta: int): (cents: int)
    ensures cents >= 0
    ensures cents > 0 ==>
              var c := FindInitial(w.charges, id);
              c.Some? && w.charges[c.value].status == Succeeded && w.charges[c.value].paymentIntentId.Some? && cents == -delta
  {
    var c := FindInitial(w.charges, id);
    if delta < 0 && c.Some? && w.charges[c.value].status == Succeeded && w.charges[c.value].paymentIntentId.Some? then -delta else 0
  }

  function Requoted(b: Booking, checkIn: int, checkOut: int, q: Pricing.Quote): Booking {
    b.(checkIn := checkIn, checkOut := checkOut, numNights := q.nights, nightlyRate := q.nightlyRate,
       subtotal := q.subtotal, stateTax := q.stateTax, cityTax := q.cityTax, totalTax := q.totalTax)
  }

  function ModifyDates(w: World, id: nat, checkIn: int, checkOut: int, timestamp: int): (r: (World, Result<int>))
    ensures r.0.uniqueKeys == w.uniqueKeys
  {
    if id >= |w.bookings| then (w, Failure(NotFound))
    else
      var b := w.bookings[id];
      if b.status == Cancelled || b.status == Completed then (w, Failure(Conflict))
      else if checkOut <= checkIn then (w, Failure(ValidationFailed))
      else if HasRealConflict(w, checkIn, checkOut, b.checkIn, b.checkOut) then (w, Failure(DoubleBooking))
      else
        match Pricing.GetQuote(w.property, w.jurisdictions, checkIn, checkOut)
        case Failure(e) => (w, Failure(e))
        case Success(q) => ApplyNewDates(w, id, checkIn, checkOut, q, timestamp)
  }

  /** The part of modifyDates after all checks: refund a drop at Stripe, then write everything. */
  function ApplyNewDates(w: World, id: nat, checkIn: int, checkOut: int, q: Pricing.Quote, timestamp: int): (r: (World, Result<int>))
    requires id < |w.bookings|
    ensures r.0.uniqueKeys == w.uniqueKeys
  {
    var delta := q.subtotal + q.totalTax - w.bookings[id].Total();
    var cents := DropRefundCents(w, id, delta);
    if cents == 0 then CommitDates(w, id, checkIn, checkOut, q, timestamp, delta, w.charges, None)
    else
      var c := FindInitial(w.charges, id).value;
      match Stripe.CreateRefund(w.stripe, w.charges[c].paymentIntentId.value, cents)
      case Failure(e) => (w, Failure(e))
      case Success(a) =>
        CommitDates(w.(stripe := a), id, checkIn, checkOut, q, timestamp, delta,
                    w.charges[c := w.charges[c].(refunded := w.charges[c].refunded + cents)], Some(cents))
  }

  function CommitDates(w: World, id: nat, checkIn: int, checkOut: int, q: Pricing.Quote, timestamp: int,
                       delta: int, charges: seq<Charge>, refund: Option<int>): (r: (World, Result<int>))
    requires id < |w.bookings|
    ensures r.0.uniqueKeys == w.uniqueKeys
  {
    var row := DatesModified(id, timestamp, delta, refund);
    if !CanEnqueue(w.uniqueKeys, w.outbox, row) then (w, Failure(UniqueViolation))
    else
      (w.(charges := charges, bookings := w.bookings[id := Requoted(w.bookings[id], checkIn, checkOut, q)], outbox := w.outbox + [row]),
       Success(delta))
  }

  // ---- createAdHocCharge ----

  function CreateAdHocCharge(w: World, id: nat, kind: ChargeKind, dollars: real, described: bool, reply: Stripe.SessionReply): (r: (World, Result<nat>))
    ensures r.0.uniqueKeys == w.uniqueKeys
  {
    if kind == Initial || dollars <= 0.0 || dollars > 50000.0 || !described then (w, Failure(ValidationFailed))
    else if id >= |w.bookings| then (w, Failure(NotFound))
    else if w.bookings[id].status == Cancelled then (w, Failure(Conflict))
    else if w.bookings[id].guest.None? then (w, Failure(ValidationFailed))
    else if Stripe.Refuses(reply, Money.ToColumn(dollars)) then (w, Failure(StripeError))
    else
      var c, s, amount := |w.charges|, |w.stripe.sessions|, Money.ToColumn(dollars);
      var pending := Charge(id, kind, amount, Pending, None, None, 0);
      var stripe := Stripe.OpenSession(w.stripe, c, amount);
      if !CanEnqueue(w.uniqueKeys, w.outbox, AdHocChargeSent(id, c)) then
        (w.(charges := w.charges + [pending], stripe := stripe), Failure(UniqueViolation))
      else
        var sent := pending.(status := Sent, sessionId := Some(s), paymentIntentId := PaymentIntentIf(reply.revealsPaymentIntent, s));
        (w.(charges := w.charges + [sent], outbox := w.outbox + [AdHocChargeSent(id, c)], stripe := stripe), Success(c))
  }

  /** The process dies inside createAdHocCharge, between the same two writes. */
  function DieInAdHocCharge(w: World, id: nat, kind: ChargeKind, dollars: real, described: bool, atStripe: bool): (r: World)
    ensures r.uniqueKeys == w.uniqueKeys
  {
    if kind == Initial || dollars <= 0.0 || dollars > 50000.0 || !described then w
    else if id >= |w.bookings| || w.bookings[id].status == Cancelled || w.bookings[id].guest.None? then w
    else Orphaned(w, id, kind, Money.ToColumn(dollars), atStripe)
  }

  // ---- refundCharge, step by step ----

  /** What one refundCharge call remembers from its read; the amount is in dollars as requested. */
  datatype RefundTicket = RefundTicket(charge: nat, snapshot: Charge, dollars: real)

  function RefundRead(w: World, c: nat, dollars: real): (r: Result<RefundTicket>)
    ensures r.Success? ==> r.value.snapshot.paymentIntentId.Some? && r.value.charge == c < |w.charges| && r.value.snapshot == w.charges[c]
  {
    if dollars <= 0.0 then Failure(ValidationFailed)
    else if c >= |w.charges| then Failure(NotFound)
    else
      var charge := w.charges[c];
      if charge.status != Succeeded && charge.status != Refunded then Failure(Conflict)
      else if charge.paymentIntentId.None? then Failure(ValidationFailed)
      else if dollars > Money.Dollars(charge.amount - charge.refunded) + 0.001 then Failure(ValidationFailed)
      else Success(RefundTicket(c, charge, dollars))
  }

  /** The Stripe call; the refund's id is the number of the event that reports it. */
  function RefundCall(w: World, t: RefundTicket): (r: (World, Result<nat>))
    ensures r.0.uniqueKeys == w.uniqueKeys
  {
    if t.snapshot.paymentIntentId.None? then (w, Failure(ValidationFailed))
    else
      match Stripe.CreateRefund(w.stripe, t.snapshot.paymentIntentId.value, Money.ToColumn(t.dollars))
      case Failure(e) => (w, Failure(e))
      case Success(a) => (w.(stripe := a), Success(|w.stripe.events|))
  }

  function RefundCommit(w: World, t: RefundTicket, refundId: nat): (r: (World, Result<()>))
    ensures r.0.uniqueKeys == w.uniqueKeys
  {
    var row := ChargeRefundedByUs(t.snapshot.bookingId, t.charge, refundId);
    if t.charge >= |w.charges| then (w, Failure(NotFound))
    else if !CanEnqueue(w.uniqueKeys, w.outbox, row) then (w, Failure(UniqueViolation))
    else
      var newRefunded := Money.Dollars(t.snapshot.refunded) + t.dollars;
      var fully := newRefunded + 0.001 >= Money.Dollars(t.snapshot.amount);
      var charge := w.charges[t.charge];
      (w.(charges := w.charges[t.charge := charge.(refunded := Money.ToColumn(newRefunded), status := if fully then Refunded else charge.status)],
          outbox := w.outbox + [row]),
       Success(()))
  }

  function RefundCharge(w: World, c: nat, dollars: real): (r: (World, Result<()>))
    ensures r.0.uniqueKeys == w.uniqueKeys
  {
    match RefundRead(w, c, dollars)
    case Failure(e) => (w, Failure(e))
    case Success(t) =>
      var (called, refund) := RefundCall(w, t);
      match refund
      case Failure(e) => (called, Failure(e))
      case Success(id) => RefundCommit(called, t, id)
  }

  // ---- apps/api/src/webhooks/stripe-webhook.controller.ts ----

  function Enqueued(w: World, row: OutboxRow): (r: (World, Result<()>))
    ensures r.0.uniqueKeys == w.uniqueKeys
  {
    if CanEnqueue(w.uniqueKeys, w.outbox, row) then (w.(outbox := w.outbox + [row]), Success(()))
    else (w, Failure(UniqueViolation))
  }

  function HandleChargeRefunded(w: World, event: nat, pi: Option<nat>, amountRefunded: Option<int>, full: bool): (r: (World, Result<()>))
    ensures r.0.uniqueKeys == w.uniqueKeys
  {
    var found := FindByPaymentIntent(w.charges, pi);
    var total := if amountRefunded.Some? then amountRefunded.value else 0;
    if found.Some? && Money.Covers(w.charges[found.value].refunded, total) then (w, Success(()))
    else
      var updated :=
        if found.Some? then
          var charge := w.charges[found.value];
          var fully := full || Money.Covers(total, charge.amount);
          w.(charges := w.charges[found.value := charge.(refunded := total, status := if fully then Refunded else charge.status)])
        else w;
      Enqueued(updated, RefundedExternally(found, event, total))
  }

  function Handle(w: World, event: nat, e: Stripe.Event): (r: (World, Result<()>))
    ensures r.0.uniqueKeys == w.uniqueKeys
  {
    match e
    case CheckoutCompleted(s, pi) =>
      var (w', r) := HandleCheckoutSucceeded(w, s, pi);
      (w', if r.Success? then Success(()) else Failure(r.error))
    case DisputeCreated(pi) => Enqueued(w, DisputeOpened(FindByPaymentIntent(w.charges, pi), event))
    case DisputeClosed(pi) => Enqueued(w, DisputeSettled(FindByPaymentIntent(w.charges, pi), event))
    case ChargeRefunded(pi, total, full) => HandleChargeRefunded(w, event, pi, total, full)
    case PaymentFailed(pi) => Enqueued(w, Schema.PaymentFailed(FindByPaymentIntent(w.charges, pi), event))
    case OtherEvent => (w, Success(()))
  }

  /** One POST of a signed event. The event row is inserted first; `processedAt` is set only if the
      handler returns. A repeat stops at the row, whatever became of the first delivery. */
  function Receive(w: World, event: nat): (r: (World, Result<()>))
    ensures r.0.uniqueKeys == w.uniqueKeys
  {
    if event >= |w.stripe.events| then (w, Failure(BadSignature))
    else if event in w.webhookEvents then (w, Success(()))
    else
      var recorded := w.(webhookEvents := w.webhookEvents[event := false]);
      var (handled, r) := Handle(recorded, event, w.stripe.events[event]);
      if r.Failure? then (handled, r)
      else (handled.(webhookEvents := handled.webhookEvents[event := true]), Success(()))
  }

  /** The process dies after the handler and before `processedAt` is set. */
  function DieInReceive(w: World, event: nat): (r: World)
    ensures r.uniqueKeys == w.uniqueKeys
  {
    if event >= |w.stripe.events| || event in w.webhookEvents then w
    else Handle(w.(webhookEvents := w.webhookEvents[event := false]), event, w.stripe.events[event]).0
  }

  // ---- which calls leave the bookings alone ----

  lemma RefundLeavesBookings(w: World, c: nat, dollars: real)
    ensures RefundCharge(w, c, dollars).0.bookings == w.bookings
  {
  }

  /** Of all events only a completed checkout writes a booking. */
  lemma HandlerLeavesBookings(w: World, event: nat, e: Stripe.Event)
    requires !e.CheckoutCompleted?
    ensures Handle(w, event, e).0.bookings == w.bookings
  {
  }

  // ---- runs ----

  /** Everything a serialised run consists of: calls of the services, deliveries, and what Stripe, the
      admin's other pages, failures and crashes do around them. A crash between a refund at Stripe and
      the writes after it is RefundOutside (after CrashInCancel, for a cancel); one before a handler
      has written anything is LoseDelivery. */
  datatype Op =
    | DoCreateInquiry(email: string, checkIn: int, checkOut: int)
    | DoTransition(inquiry: nat, next: InquiryStatus)
    | DoConvert(inquiry: nat)
    | DoApprove(booking: nat, reply: Stripe.SessionReply)
    | CrashInApprove(booking: nat, atStripe: bool)
    | CrashInAdHocCharge(booking: nat, kind: ChargeKind, dollars: real, described: bool, atStripe: bool)
    | CrashInCancel(booking: nat, now: int)
    | CrashInDelivery(event: nat)
    | DoDecline(booking: nat)
    | DoCancel(booking: nat, now: int)
    | DoModifyDates(booking: nat, checkIn: int, checkOut: int, timestamp: int)
    | DoAdHocCharge(booking: nat, kind: ChargeKind, dollars: real, described: bool, reply: Stripe.SessionReply)
    | DoRefund(charge: nat, dollars: real)
    | Deliver(event: nat)
    | LoseDelivery(event: nat)                      // the handler throws before it writes anything
    | GuestPays(session: nat, namesPaymentIntent: bool)
    | RefundOutside(paymentIntent: nat, cents: int) // in the Stripe dashboard
    | StripeEmits(e: Stripe.Event)                  // late, repeated or out of order
    | SetBlocks(blocks: seq<Block>)
    | SetPrices(property: Option<Pricing.Property>, jurisdictions: seq<Tax.Jurisdiction>)

  function Apply(w: World, op: Op): (r: World)
    ensures r.uniqueKeys == w.uniqueKeys
  {
    match op
    case DoCreateInquiry(email, i, o) => CreateInquiry(w, email, i, o).0
    case DoTransition(id, next) => TransitionInquiry(w, id, next).0
    case DoConvert(id) => ConvertInquiry(w, id).0
    case DoApprove(id, reply) => Approve(w, id, reply).0
    case CrashInApprove(id, atStripe) => DieInApprove(w, id, atStripe)
    case CrashInAdHocCharge(id, kind, dollars, described, atStripe) => DieInAdHocCharge(w, id, kind, dollars, described, atStripe)
    case CrashInCancel(id, now) => DieInCancel(w, id, now)
    case CrashInDelivery(e) => DieInReceive(w, e)
    case DoDecline(id) => Decline(w, id).0
    case DoCancel(id, now) => Cancel(w, id, now).0
    case DoModifyDates(id, i, o, ts) => ModifyDates(w, id, i, o, ts).0
    case DoAdHocCharge(id, kind, dollars, described, reply) => CreateAdHocCharge(w, id, kind, dollars, described, reply).0
    case DoRefund(c, dollars) => RefundCharge(w, c, dollars).0
    case Deliver(e) => Receive(w, e).0
    case LoseDelivery(e) => if e < |w.stripe.events| && e !in w.webhookEvents then w.(webhookEvents := w.webhookEvents[e := false]) else w
    case GuestPays(s, named) => w.(stripe := Stripe.Pay(w.stripe, s, named))
    case RefundOutside(pi, cents) =>
      var r := Stripe.CreateRefund(w.stripe, pi, cents);
      if r.Success? then w.(stripe := r.value) else w
    case StripeEmits(e) => w.(stripe := Stripe.Emit(w.stripe, e))
    case SetBlocks(blocks) => w.(blocks := blocks)
    case SetPrices(property, jurisdictions) => w.(property := property, jurisdictions := jurisdictions)
  }

  /** Steps that no service of this platform takes on bookings, charges or the outbox. */
  predicate ByEnvironment(op: Op) {
    op.GuestPays? || op.RefundOutside? || op.StripeEmits? || op.SetBlocks? || op.SetPrices? || op.LoseDelivery? || op.DoTransition?
  }

  lemma EnvironmentLeaves(w: World, op: Op)
    requires ByEnvironment(op)
    ensures var w' := Apply(w, op);
            && w'.bookings == w.bookings && w'.charges == w.charges && w'.outbox == w.outbox && |w'.inquiries| == |w.inquiries|
            && (!op.DoTransition? ==> w'.inquiries == w.inquiries)
            && (!op.LoseDelivery? ==> w'.webhookEvents == w.webhookEvents)
            && (!op.SetPrices? ==> w'.property == w.property)
  {
  }

  function Run(w: World, ops: seq<Op>): World
    decreases |ops|
  {
    if ops == [] then w else Run(Apply(w, ops[0]), ops[1..])
  }

  /** A fresh installation. */
  function Empty(unique: bool): World {
    World(unique, None, [], [], [], [], [], [], map[], Stripe.Account([], []))
  }
}
