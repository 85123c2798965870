/**
 The tables the services share (packages/prisma/prisma/schema.prisma). A row's id is its position,
 money is whole cents, calendar dates are day numbers.
 */
module Schema {
  import opened Wrappers
  import CancellationPolicy
  import Pricing
  import Stripe
  import Tax

  datatype InquiryStatus = New | Responded | Converted | Closed

  datatype Inquiry = Inquiry(
    email: string, checkIn: int, checkOut: int, status: InquiryStatus, convertedBookingId: Option<nat>)

  datatype BookingStatus = Inquired | PendingApproval | Approved | Confirmed | Cancelled | Completed

  datatype TierLabel = Declined | Applied(tier: CancellationPolicy.Tier)

  datatype Booking = Booking(
    guest: Option<string>, status: BookingStatus, checkIn: int, checkOut: int, numNights: int,
    nightlyRate: int, subtotal: int, stateTax: int, cityTax: int, totalTax: int,
    tierApplied: Option<TierLabel>, refundAmount: Option<int>)
  {
    function Total(): int { subtotal + totalTax }
  }

  datatype ChargeKind = Initial | Extension | Damage | Incidental

  datatype ChargeStatus = Pending | Sent | Succeeded | Failed | Refunded

  datatype Charge = Charge(
    bookingId: nat, kind: ChargeKind, amount: int, status: ChargeStatus,
    sessionId: Option<nat>, paymentIntentId: Option<nat>, refunded: int)

  datatype BlockReason = ManualBlock | Maintenance | OtaBooking

  datatype Block = Block(startDate: int, endDate: int, reason: BlockReason)

  /** One outbox row: the event it announces with the identifiers in its payload. */
  datatype OutboxRow =
    | InquiryNew(inquiry: nat)
    | InquiryAcknowledged(inquiry: nat)
    | BookingApproved(booking: nat, charge: nat)
    | BookingConfirmed(booking: nat, charge: nat)
    | RebuildConfirmed(booking: nat)
    | BookingDeclined(booking: nat)
    | BookingCancelled(booking: nat, tier: CancellationPolicy.Tier, refund: int)
    | RebuildCancelled(booking: nat)
    | DatesModified(booking: nat, timestamp: int, delta: int, refundIssued: Option<int>)
    | AdHocChargeSent(booking: nat, charge: nat)
    | ChargeRefundedByUs(booking: nat, charge: nat, refundId: nat)
    | RefundedExternally(matched: Option<nat>, event: nat, amount: int)
    | DisputeOpened(matched: Option<nat>, event: nat)
    | DisputeSettled(matched: Option<nat>, event: nat)
    | PaymentFailed(matched: Option<nat>, event: nat)

  datatype KeyPrefix =
    | KInquiryNew | KInquiryAcknowledged | KApproved | KConfirmed | KRebuildConfirmed | KDeclined
    | KCancelled | KRebuildCancelled | KDatesModified | KAdHoc | KChargeRefunded
    | KRefundedExternally | KDisputeOpened | KDisputeClosed | KPaymentFailed

  datatype Key = Key(prefix: KeyPrefix, id: nat, suffix: int)

  /** The row's idempotencyKey: what the source interpolates into it, nothing else of the row. */
  function KeyOf(row: OutboxRow): Key {
    match row
    case InquiryNew(i) => Key(KInquiryNew, i, 0)
    case InquiryAcknowledged(i) => Key(KInquiryAcknowledged, i, 0)
    case BookingApproved(b, c) => Key(KApproved, b, c)
    case BookingConfirmed(_, c) => Key(KConfirmed, c, 0)
    case RebuildConfirmed(b) => Key(KRebuildConfirmed, b, 0)
    case BookingDeclined(b) => Key(KDeclined, b, 0)
    case BookingCancelled(b, _, _) => Key(KCancelled, b, 0)
    case RebuildCancelled(b) => Key(KRebuildCancelled, b, 0)
    case DatesModified(b, ts, _, _) => Key(KDatesModified, b, ts)
    case AdHocChargeSent(_, c) => Key(KAdHoc, c, 0)
    case ChargeRefundedByUs(_, c, r) => Key(KChargeRefunded, c, r)
    case RefundedExternally(_, e, _) => Key(KRefundedExternally, e, 0)
    case DisputeOpened(_, e) => Key(KDisputeOpened, e, 0)
    case DisputeSettled(_, e) => Key(KDisputeClosed, e, 0)
    case PaymentFailed(_, e) => Key(KPaymentFailed, e, 0)
  }

  /**
   Everything the platform and Stripe remember. `uniqueKeys` says whether the database enforces the
   unique index on outbox.idempotency_key (schema.prisma:572 does); results about runs hold for both
   values unless they name one.
   */
  datatype World = World(
    uniqueKeys: bool,
    property: Option<Pricing.Property>,
    jurisdictions: seq<Tax.Jurisdiction>,
    inquiries: seq<Inquiry>,
    bookings: seq<Booking>,
    charges: seq<Charge>,
    blocks: seq<Block>,
    outbox: seq<OutboxRow>,
    webhookEvents: map<nat, bool>,   // event id -> processedAt is set
    stripe: Stripe.Account)

  /** outbox.create succeeds: no row carries this key yet, or the index is not there. */
  predicate CanEnqueue(unique: bool, outbox: seq<OutboxRow>, row: OutboxRow) {
    unique ==> forall r :: r in outbox ==> KeyOf(r) != KeyOf(row)
  }

  /** A row that was just written does not stand in the way of one with another key. */
  lemma EnqueueAnother(unique: bool, outbox: seq<OutboxRow>, first: OutboxRow, second: OutboxRow)
    requires KeyOf(first) != KeyOf(second)
    ensures CanEnqueue(unique, outbox + [first], second) <==> CanEnqueue(unique, outbox, second)
  {
    assert forall r :: r in outbox + [first] <==> r in outbox || r == first;
  }

  /** booking.update of one column; the foreign key makes the row exist. */
  function WithStatus(bookings: seq<Booking>, id: nat, status: BookingStatus): seq<Booking> {
    if id < |bookings| then bookings[id := bookings[id].(status := status)] else bookings
  }

  /** charges.find(c => c.kind === 'initial') among the charges of one booking. */
  function FindInitial(charges: seq<Charge>, booking: nat): (r: Option<nat>)
    ensures r.Some? ==> r.value < |charges| && charges[r.value].bookingId == booking && charges[r.value].kind == Initial
    ensures r.None? ==> forall c :: 0 <= c < |charges| && charges[c].kind == Initial ==> charges[c].bookingId != booking
    ensures r.Some? ==> forall c :: 0 <= c < r.value && charges[c].kind == Initial ==> charges[c].bookingId != booking
  {
    FindInitialFrom(charges, booking, 0)
  }

  function FindInitialFrom(charges: seq<Charge>, booking: nat, from: nat): (r: Option<nat>)
    requires from <= |charges|
    ensures r.Some? ==> from <= r.value < |charges| && charges[r.value].bookingId == booking && charges[r.value].kind == Initial
    ensures r.None? ==> forall c :: from <= c < |charges| && charges[c].kind == Initial ==> charges[c].bookingId != booking
    ensures r.Some? ==> forall c :: from <= c < r.value && charges[c].kind == Initial ==> charges[c].bookingId != booking
    decreases |charges| - from
  {
    if from == |charges| then None
    else if charges[from].bookingId == booking && charges[from].kind == Initial then Some(from)
    else FindInitialFrom(charges, booking, from + 1)
  }

  /** bookingCharge.findUnique by stripeCheckoutSessionId */
  function FindBySession(charges: seq<Charge>, session: nat): (r: Option<nat>)
    ensures r.Some? ==> r.value < |charges| && charges[r.value].sessionId == Some(session)
    ensures r.None? ==> forall c :: 0 <= c < |charges| ==> charges[c].sessionId != Some(session)
  {
    if charges == [] then None
    else
      var last := |charges| - 1;
      if charges[last].sessionId == Some(session) then Some(last)
      else FindBySession(charges[..last], session)
  }

  /** bookingCharge.findUnique by stripePaymentIntentId; null finds nothing. */
  function FindByPaymentIntent(charges: seq<Charge>, pi: Option<nat>): (r: Option<nat>)
    ensures r.Some? ==> pi.Some? && r.value < |charges| && charges[r.value].paymentIntentId == pi
    ensures r.None? && pi.Some? ==> forall c :: 0 <= c < |charges| ==> charges[c].paymentIntentId != pi
  {
    if charges == [] || pi.None? then None
    else
      var last := |charges| - 1;
      if charges[last].paymentIntentId == pi then Some(last)
      else FindByPaymentIntent(charges[..last], pi)
  }
}
