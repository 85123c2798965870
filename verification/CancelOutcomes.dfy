/**
 What a cancellation answers and what it pays, in terms of the booking, its charge and the property's
 policy.
 */
module CancelOutcomes {
  import opened Wrappers
  import opened Schema
  import opened Operations
  import Announcements
  import CancellationPolicy
  import Money
  import Stripe

  /** The first initial charge of the booking. */
  ghost predicate FirstInitial(charges: seq<Charge>, booking: nat, c: nat) {
    && c < |charges| && charges[c].bookingId == booking && charges[c].kind == Initial
    && forall d :: 0 <= d < c && charges[d].kind == Initial ==> charges[d].bookingId != booking
  }

  ghost predicate NoInitial(charges: seq<Charge>, booking: nat) {
    forall c :: 0 <= c < |charges| && charges[c].kind == Initial ==> charges[c].bookingId != booking
  }

  /** Exactly d whole days are left until the day begins. */
  predicate WholeDaysLeft(now: int, day: int, d: int) {
    now + d * 86_400_000 <= day * 86_400_000 < now + (d + 1) * 86_400_000
  }

  /** The share of what is left of a paid charge. */
  function ShareOf(charge: Charge, percent: int): int {
    if charge.status == Succeeded && charge.paymentIntentId.Some? && charge.refunded < charge.amount && percent > 0
    then (charge.amount - charge.refunded) * percent / 100
    else 0
  }

  // ---- when it gets past its checks ----

  /** Whatever the reason for a refusal, it is one of these three, and then nothing happened. */
  lemma CancelRefuses(w: World, id: nat, now: int)
    ensures var (w', r) := Cancel(w, id, now);
            && (r == Failure(NotFound) <==> id >= |w.bookings|)
            && (r == Failure(Conflict) <==> id < |w.bookings| && w.bookings[id].status != Approved && w.bookings[id].status != Confirmed)
            && (r == Failure(ValidationFailed) <==>
                  && id < |w.bookings| && (w.bookings[id].status == Approved || w.bookings[id].status == Confirmed)
                  && (w.property.None? || w.property.value.tiers.None? || w.property.value.tiers.value == []))
            && (r == Failure(NotFound) || r == Failure(Conflict) || r == Failure(ValidationFailed) ==> w' == w)
  {
    hide CancellationPolicy.ResolveForDays, CancelRefundCents, CanEnqueue, FindInitial;
  }

  /** The tier that a call reads: the right one for the whole days left until check-in. */
  lemma ReadTier(w: World, id: nat, now: int, d: int)
    requires CancelRead(w, id, now).Success? && WholeDaysLeft(now, w.bookings[id].checkIn, d)
    ensures w.property.Some? && w.property.value.tiers.Some? && w.property.value.tiers.value != []
    ensures CancelRead(w, id, now).value.tier == CancellationPolicy.ResolveForDays(w.property.value.tiers.value, d)
    ensures CancellationPolicy.IsRightTier(w.property.value.tiers.value, d, CancelRead(w, id, now).value.tier)
  {
    var day := w.bookings[id].checkIn;
    CancellationPolicy.DaysRemainingIsFloor(day, now);
    assert CancellationPolicy.DaysRemaining(day, now) == d;
    CancellationPolicy.ResolvesRightTier(w.property.value.tiers.value, d);
    hide CancellationPolicy.ResolveForDays, CancellationPolicy.IsRightTier, FindInitial;
  }

  lemma ReadCharge(w: World, id: nat, now: int)
    requires CancelRead(w, id, now).Success?
    ensures var t := CancelRead(w, id, now).value;
            && id < |w.bookings| && t.booking == id
            && (t.charge.None? ==> NoInitial(w.charges, id) && t.snapshot.None?)
            && (t.charge.Some? ==> FirstInitial(w.charges, id, t.charge.value) && t.snapshot == Some(w.charges[t.charge.value]))
  {
  }

  lemma TicketShare(t: CancelTicket)
    requires t.charge.Some? == t.snapshot.Some?
    ensures CancelRefundCents(t) == if t.snapshot.Some? then ShareOf(t.snapshot.value, t.tier.refundPercent) else 0
  {
    if t.snapshot.Some? {
      var charge := t.snapshot.value;
      if charge.refunded <= charge.amount {
        CancellationPolicy.RefundAsIntegers(charge.amount, charge.refunded, t.tier.refundPercent);
        if charge.refunded < charge.amount && t.tier.refundPercent > 0 {
          NonNegativeShare(charge.amount - charge.refunded, t.tier.refundPercent);
        }
      } else {
        assert CancellationPolicy.CalculateRefundCents(charge.amount, charge.refunded, t.tier.refundPercent) == 0;
      }
    }
  }

  lemma NonNegativeShare(rest: int, percent: int)
    requires rest > 0 && percent > 0
    ensures rest * percent / 100 >= 0
  {
  }

  // ---- what it does ----

  /** Stripe can pay these cents out of this charge. */
  predicate Payable(stripe: Stripe.Account, charge: Charge, cents: int) {
    cents == 0
    || (&& charge.paymentIntentId.Some? && charge.paymentIntentId.value < |stripe.sessions|
        && var s := stripe.sessions[charge.paymentIntentId.value];
           s.paid && s.refunded + cents <= s.amount)
  }

  /** The booking after a cancellation with this tier and refund. */
  function CancelledRow(b: Booking, tier: CancellationPolicy.Tier, cents: int): Booking {
    b.(status := Cancelled, tierApplied := Some(Applied(tier)), refundAmount := Some(cents))
  }

  /** A cancellation of a booking with an initial charge: it applies the right tier for the whole days
      until check-in, pays back that share of what is left of the charge, and books exactly that. */
  lemma CancelPaysShare(w: World, id: nat, now: int, c: nat, d: int)
    requires Cancel(w, id, now).1.Success? && FirstInitial(w.charges, id, c)
    requires id < |w.bookings| ==> WholeDaysLeft(now, w.bookings[id].checkIn, d)
    ensures var w' := Cancel(w, id, now).0;
            && id < |w.bookings| == |w'.bookings| && |w'.charges| == |w.charges|
            && w'.bookings[id].tierApplied.Some? && w'.bookings[id].tierApplied.value.Applied?
            && var tier := w'.bookings[id].tierApplied.value.tier;
            var cents := ShareOf(w.charges[c], tier.refundPercent);
            && w.property.Some? && w.property.value.tiers.Some?
            && CancellationPolicy.IsRightTier(w.property.value.tiers.value, d, tier)
            && w' == w.(bookings := w.bookings[id := CancelledRow(w.bookings[id], tier, cents)],
                        charges := w.charges[c := w'.charges[c]],
                        outbox := w.outbox + [BookingCancelled(id, tier, cents), RebuildCancelled(id)],
                        stripe := w'.stripe)
            && w'.charges[c] == w.charges[c].(
                 refunded := w.charges[c].refunded + cents,
                 status := if cents > 0 && w.charges[c].refunded + cents >= w.charges[c].amount then Refunded else w.charges[c].status)
            && PaidOut(w.stripe, w'.stripe, w.charges[c], cents)
  {
    var t := CancelRead(w, id, now).value;
    ReadCharge(w, id, now);
    ReadTier(w, id, now, d);
    OneFirstInitial(w.charges, id, c, t.charge);
    TicketShare(t);
    hide CancellationPolicy.IsRightTier, CancelRead, CancelRefundCents, CanEnqueue, ShareOf, FirstInitial;
    CommitRow(w, t, c, ShareOf(w.charges[c], t.tier.refundPercent));
  }

  lemma OneFirstInitial(charges: seq<Charge>, id: nat, c: nat, found: Option<nat>)
    requires FirstInitial(charges, id, c)
    requires if found.Some? then FirstInitial(charges, id, found.value) else NoInitial(charges, id)
    ensures found == Some(c)
  {
  }

  /** Stripe refunded exactly these cents of this charge, or was not asked. */
  ghost predicate PaidOut(a: Stripe.Account, b: Stripe.Account, charge: Charge, cents: int) {
    if cents == 0 then b == a
    else
      && charge.paymentIntentId.Some? && charge.paymentIntentId.value < |a.sessions|
      && var pi := charge.paymentIntentId.value;
         var s := a.sessions[pi];
         && s.paid && cents > 0 && s.refunded + cents <= s.amount
         && b.sessions == a.sessions[pi := s.(refunded := s.refunded + cents)]
         && b.events == a.events + [Stripe.ChargeRefunded(Some(pi), Some(s.refunded + cents), s.refunded + cents == s.amount)]
  }

  lemma CommitRow(w: World, t: CancelTicket, c: nat, cents: int)
    requires t.charge == Some(c) && c < |w.charges| && t.snapshot == Some(w.charges[c]) && t.booking < |w.bookings|
    requires cents == CancelRefundCents(t)
    requires Active(w.bookings[t.booking].status)
    requires CancelRefund(CancelClaim(w, t).0, t).1.Success?
    requires CancelCommit(CancelRefund(CancelClaim(w, t).0, t).0, t, cents).1.Success?
    ensures var paid := CancelRefund(CancelClaim(w, t).0, t).0;
            var w' := CancelCommit(paid, t, cents).0;
            && CancelRefund(CancelClaim(w, t).0, t).1 == Success(cents)
            && PaidOut(w.stripe, paid.stripe, w.charges[c], cents)
            && w' == w.(bookings := w.bookings[t.booking := CancelledRow(w.bookings[t.booking], t.tier, cents)],
                        charges := w.charges[c := w'.charges[c]],
                        outbox := w.outbox + [BookingCancelled(t.booking, t.tier, cents), RebuildCancelled(t.booking)],
                        stripe := paid.stripe)
            && w'.charges[c] == w.charges[c].(
                 refunded := w.charges[c].refunded + cents,
                 status := if cents > 0 && w.charges[c].refunded + cents >= w.charges[c].amount then Refunded else w.charges[c].status)
  {
    hide CancelRefundCents, CanEnqueue;
  }

  /** Without an initial charge nothing is paid back. */
  lemma CancelWithoutCharge(w: World, id: nat, now: int, d: int)
    requires Cancel(w, id, now).1.Success? && NoInitial(w.charges, id)
    requires id < |w.bookings| ==> WholeDaysLeft(now, w.bookings[id].checkIn, d)
    ensures var w' := Cancel(w, id, now).0;
            && id < |w.bookings| == |w'.bookings|
            && w'.bookings[id].tierApplied.Some? && w'.bookings[id].tierApplied.value.Applied?
            && var tier := w'.bookings[id].tierApplied.value.tier;
            && w.property.Some? && w.property.value.tiers.Some?
            && CancellationPolicy.IsRightTier(w.property.value.tiers.value, d, tier)
            && w' == w.(bookings := w.bookings[id := CancelledRow(w.bookings[id], tier, 0)],
                        outbox := w.outbox + [BookingCancelled(id, tier, 0), RebuildCancelled(id)])
  {
    var t := CancelRead(w, id, now).value;
    ReadCharge(w, id, now);
    ReadTier(w, id, now, d);
    assert t.charge.None?;
    hide CancellationPolicy.IsRightTier, CancelRead, CanEnqueue;
  }

  /** Exactly when a cancellation that passes its checks succeeds: Stripe can pay the share, and, under the
      unique index, no cancellation of the booking was announced before. */
  lemma CancelSucceedsIff(w: World, id: nat, now: int, c: nat, d: int)
    requires Announcements.Announced(w) && FirstInitial(w.charges, id, c) && id < |w.bookings|
    requires w.bookings[id].status == Approved || w.bookings[id].status == Confirmed
    requires w.property.Some? && w.property.value.tiers.Some? && w.property.value.tiers.value != []
    requires WholeDaysLeft(now, w.bookings[id].checkIn, d)
    ensures var tier := CancellationPolicy.ResolveForDays(w.property.value.tiers.value, d);
            Cancel(w, id, now).1.Success?
            <==> Payable(w.stripe, w.charges[c], ShareOf(w.charges[c], tier.refundPercent))
                 && (w.uniqueKeys ==> !Announcements.CancelledRow(id, w.outbox))
  {
    assert CancelRead(w, id, now).Success? by { hide CancellationPolicy.ResolveForDays, FindInitial; }
    var t := CancelRead(w, id, now).value;
    ReadCharge(w, id, now);
    ReadTier(w, id, now, d);
    OneFirstInitial(w.charges, id, c, t.charge);
    TicketShare(t);
    Announcements.CancelAnnouncedIff(w, id, now);
    hide Announcements.Announced, CancellationPolicy.IsRightTier, CancellationPolicy.ResolveForDays, CancelRead, CancelRefundCents, Cancel;
    hide FirstInitial, ShareOf;
  }
}
