/** When approve and modifyDates refuse a stay because of another one, in terms of rows and nights. */
module ConflictChecks {
  import opened Wrappers
  import opened Schema
  import opened Operations
  import opened Availability
  import Pricing
  import Stripe
  import Tax

  /** A row other than those with exactly the own dates is in the way. */
  ghost predicate InTheWay(w: World, from: int, to: int, own: Range) {
    exists x :: x != own && RangeOfRow(w.bookings, w.blocks, x) && Meets(x, from, to)
  }

  lemma ConflictIff(w: World, from: int, to: int, own: Range)
    requires from < to
    ensures HasRealConflict(w, from, to, own.startDate, own.endDate) <==> InTheWay(w, from, to, own)
  {
    forall x ensures Meets(x, from, to) <==> Overlaps(x.startDate, x.endDate, from, to) {
      MeetsIff(x, from, to);
    }
    hide Meets;
    if HasRealConflict(w, from, to, own.startDate, own.endDate) {
      if b :| 0 <= b < |w.bookings| && Blocking(w.bookings[b].status)
              && Overlaps(w.bookings[b].checkIn, w.bookings[b].checkOut, from, to)
              && !(w.bookings[b].checkIn == own.startDate && w.bookings[b].checkOut == own.endDate) {
        assert RangeOfRow(w.bookings, w.blocks, Range(w.bookings[b].checkIn, w.bookings[b].checkOut));
      } else {
        var k :| 0 <= k < |w.blocks| && Overlaps(w.blocks[k].startDate, w.blocks[k].endDate, from, to)
                 && !(w.blocks[k].startDate == own.startDate && w.blocks[k].endDate == own.endDate);
        assert RangeOfRow(w.bookings, w.blocks, Range(w.blocks[k].startDate, w.blocks[k].endDate));
      }
    }
  }

  /** Approve answers DOUBLE_BOOKING exactly when the booking is pending, has a guest, and another range is
      in the way of its nights; and then nothing was written. */
  lemma ApproveConflictsIff(w: World, id: nat, reply: Stripe.SessionReply)
    requires id < |w.bookings| && w.bookings[id].checkIn < w.bookings[id].checkOut
    ensures var b := w.bookings[id];
            && (Approve(w, id, reply).1 == Failure(DoubleBooking)
                <==> b.status == PendingApproval && b.guest.Some? && InTheWay(w, b.checkIn, b.checkOut, Range(b.checkIn, b.checkOut)))
            && (Approve(w, id, reply).1 == Failure(DoubleBooking) ==> Approve(w, id, reply).0 == w)
  {
    var b := w.bookings[id];
    ConflictIff(w, b.checkIn, b.checkOut, Range(b.checkIn, b.checkOut));
    hide HasRealConflict, InTheWay, CanEnqueue;
  }

  lemma QuotesFindNoConflict(property: Option<Pricing.Property>, rows: seq<Tax.Jurisdiction>, checkIn: int, checkOut: int)
    ensures Pricing.GetQuote(property, rows, checkIn, checkOut) != Failure(DoubleBooking)
  {
  }

  lemma NewDatesFindNoConflict(w: World, id: nat, checkIn: int, checkOut: int, q: Pricing.Quote, timestamp: int)
    requires id < |w.bookings|
    ensures ApplyNewDates(w, id, checkIn, checkOut, q, timestamp).1 != Failure(DoubleBooking)
  {
    hide CanEnqueue, FindInitial;
  }

  /** The same for modifyDates, which looks at the new nights and leaves out the old range. */
  lemma ModifyConflictsIff(w: World, id: nat, checkIn: int, checkOut: int, timestamp: int)
    requires id < |w.bookings|
    ensures var b := w.bookings[id];
            var (w', r) := ModifyDates(w, id, checkIn, checkOut, timestamp);
            && (r == Failure(DoubleBooking)
                <==> b.status != Cancelled && b.status != Completed && checkIn < checkOut
                     && InTheWay(w, checkIn, checkOut, Range(b.checkIn, b.checkOut)))
            && (r == Failure(DoubleBooking) ==> w' == w)
  {
    var b := w.bookings[id];
    if checkIn < checkOut {
      ConflictIff(w, checkIn, checkOut, Range(b.checkIn, b.checkOut));
    }
    var quote := Pricing.GetQuote(w.property, w.jurisdictions, checkIn, checkOut);
    if quote.Success? {
      NewDatesFindNoConflict(w, id, checkIn, checkOut, quote.value, timestamp);
    }
    QuotesFindNoConflict(w.property, w.jurisdictions, checkIn, checkOut);
    hide HasRealConflict, InTheWay, ApplyNewDates, Pricing.GetQuote;
  }
}
