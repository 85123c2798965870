/**
 What holds of the tables in every reachable state, when the API is used as its controllers allow.
 */
module Structure {
  import opened Wrappers
  import opened Schema
  import opened Operations
  import Ledger
  import Money
  import Pricing
  import Stripe

  // ---- the invariant ----

  ghost predicate BookingSound(b: Booking) {
    && b.numNights == b.checkOut - b.checkIn >= 1
    && b.subtotal == b.nightlyRate * b.numNights
    && b.totalTax == b.stateTax + b.cityTax
  }

  ghost predicate BookingsSound(bookings: seq<Booking>) {
    forall b :: 0 <= b < |bookings| ==> BookingSound(bookings[b])
  }

  /** Converted inquiries and bookings match one to one. */
  ghost predicate InquiriesMatch(inquiries: seq<Inquiry>, bookings: nat) {
    && (forall i :: 0 <= i < |inquiries| ==>
          if inquiries[i].status == Converted then inquiries[i].convertedBookingId.Some? && inquiries[i].convertedBookingId.value < bookings
          else inquiries[i].convertedBookingId == None)
    && (forall i, j :: 0 <= i < j < |inquiries| && inquiries[i].convertedBookingId.Some? ==>
          inquiries[i].convertedBookingId != inquiries[j].convertedBookingId)
    && (forall b: nat :: b < bookings ==> FromInquiry(inquiries, b))
  }

  ghost predicate FromInquiry(inquiries: seq<Inquiry>, b: nat) {
    exists i :: 0 <= i < |inquiries| && inquiries[i].convertedBookingId == Some(b)
  }

  /** Only a crash leaves a charge pending; nothing can find such a row by session or PaymentIntent. */
  predicate Orphan(charge: Charge) {
    charge.status == Pending
  }

  predicate SentInitial(charge: Charge) {
    charge.kind == Initial && !Orphan(charge)
  }

  ghost predicate HasInitial(charges: seq<Charge>, b: nat) {
    exists c :: 0 <= c < |charges| && SentInitial(charges[c]) && charges[c].bookingId == b
  }

  /** Every charge belongs to a booking. Orphans apart, no booking has two initial charges, a pending one
      has none, an approved one has its own. */
  ghost predicate ChargesPlaced(charges: seq<Charge>, bookings: seq<Booking>) {
    && (forall c :: 0 <= c < |charges| ==> charges[c].bookingId < |bookings|)
    && OrphansUnlinked(charges)
    && (forall c, d :: 0 <= c < d < |charges| && SentInitial(charges[c]) && SentInitial(charges[d]) ==>
          charges[c].bookingId != charges[d].bookingId)
    && (forall c :: 0 <= c < |charges| && SentInitial(charges[c]) ==> bookings[charges[c].bookingId].status != PendingApproval)
    && (forall b :: 0 <= b < |bookings| && bookings[b].status == Approved ==> HasInitial(charges, b))
  }

  ghost predicate OrphansUnlinked(charges: seq<Charge>) {
    forall c :: 0 <= c < |charges| && Orphan(charges[c]) ==> charges[c].sessionId == None && charges[c].paymentIntentId == None
  }

  predicate Paid(status: ChargeStatus) {
    status == Succeeded || status == Refunded
  }

  /** The outbox announces exactly the payments that were recorded. */
  ghost predicate PaymentsAnnounced(w: World) {
    && (forall b: nat, c: nat :: BookingConfirmed(b, c) in w.outbox ==>
          c < |w.charges| && w.charges[c].bookingId == b && Paid(w.charges[c].status) && RebuildConfirmed(b) in w.outbox)
    && (forall c :: 0 <= c < |w.charges| && w.charges[c].status == Succeeded ==> BookingConfirmed(w.charges[c].bookingId, c) in w.outbox)
    && (forall b :: 0 <= b < |w.bookings| && w.bookings[b].status == Confirmed ==> HasPaidCharge(w, b))
    && (forall b: nat :: RebuildConfirmed(b) in w.outbox ==> HasPaidCharge(w, b))
  }

  ghost predicate HasPaidCharge(w: World, b: nat) {
    exists c :: BookingConfirmed(b, c) in w.outbox
  }

  /** With the unique index no booking announces two payments. */
  ghost predicate OnePaymentPerBooking(w: World) {
    w.uniqueKeys ==> forall b, c, d :: BookingConfirmed(b, c) in w.outbox && BookingConfirmed(b, d) in w.outbox ==> c == d
  }

  /** Ids in the outbox exist, so a new row's key is always new. */
  ghost predicate KeysBounded(w: World) {
    && (forall i: nat :: InquiryNew(i) in w.outbox || InquiryAcknowledged(i) in w.outbox ==> i < |w.inquiries|)
    && (forall b: nat, c: nat :: BookingApproved(b, c) in w.outbox || AdHocChargeSent(b, c) in w.outbox ==> c < |w.charges|)
  }

  ghost predicate RefundedMeansAll(charges: seq<Charge>) {
    forall c :: 0 <= c < |charges| && charges[c].status == Refunded ==> charges[c].refunded == charges[c].amount
  }

  ghost predicate Sound(w: World) {
    && BookingsSound(w.bookings)
    && InquiriesMatch(w.inquiries, |w.bookings|)
    && ChargesPlaced(w.charges, w.bookings)
    && PaymentsAnnounced(w)
    && OnePaymentPerBooking(w)
    && KeysBounded(w)
    && RefundedMeansAll(w.charges)
  }

  /** The controllers let an admin mark an inquiry responded or closed, nothing else. */
  predicate ThroughApi(op: Op) {
    op.DoTransition? ==> op.next == Responded || op.next == Closed
  }

  // ---- how bookings, charges and the outbox may move ----

  /** Statuses only move to cancelled or confirmed, amounts are requoted soundly. */
  ghost predicate BookingsMove(a: seq<Booking>, b: seq<Booking>) {
    && |a| == |b|
    && (forall i :: 0 <= i < |a| ==>
          && (BookingSound(a[i]) ==> BookingSound(b[i]))
          && (b[i].status == a[i].status || b[i].status == Cancelled))
  }

  /** Rows keep their identity; a status may only become refunded, and only when all is refunded. */
  ghost predicate ChargesMove(a: seq<Charge>, b: seq<Charge>) {
    && |a| == |b|
    && (forall c :: 0 <= c < |a| ==>
          && b[c].bookingId == a[c].bookingId && b[c].kind == a[c].kind && b[c].amount == a[c].amount
          && b[c].sessionId == a[c].sessionId && b[c].paymentIntentId == a[c].paymentIntentId
          && (b[c].status == a[c].status || (b[c].status == Refunded && !Orphan(a[c])))
          && (b[c].status == Refunded ==> b[c].refunded == b[c].amount))
  }

  predicate Quiet(row: OutboxRow) {
    !row.BookingConfirmed? && !row.RebuildConfirmed? && !row.InquiryNew? && !row.InquiryAcknowledged?
    && !row.BookingApproved? && !row.AdHocChargeSent?
  }

  ghost predicate OutboxMoves(a: seq<OutboxRow>, b: seq<OutboxRow>) {
    a <= b && forall k :: |a| <= k < |b| ==> Quiet(b[k])
  }

  lemma MovesKeepSound(w: World, w': World)
    requires Sound(w)
    requires w'.inquiries == w.inquiries && w'.uniqueKeys == w.uniqueKeys
    requires BookingsMove(w.bookings, w'.bookings) && ChargesMove(w.charges, w'.charges) && OutboxMoves(w.outbox, w'.outbox)
    ensures Sound(w')
  {
    OutboxMoved(w.outbox, w'.outbox);
    forall b | 0 <= b < |w'.bookings| && w'.bookings[b].status == Approved ensures HasInitial(w'.charges, b) {
      InitialLasts(w.charges, w'.charges, b);
    }
    forall b | 0 <= b < |w'.bookings| && w'.bookings[b].status == Confirmed ensures HasPaidCharge(w', b) {
      assert HasPaidCharge(w, b);
    }
    forall b | RebuildConfirmed(b) in w'.outbox ensures HasPaidCharge(w', b) {
      assert HasPaidCharge(w, b);
    }
  }

  lemma OutboxMoved(a: seq<OutboxRow>, b: seq<OutboxRow>)
    requires OutboxMoves(a, b)
    ensures forall r :: r in a ==> r in b
    ensures forall r :: r in b && !Quiet(r) ==> r in a
  {
    forall r | r in a ensures r in b {
      var k :| 0 <= k < |a| && a[k] == r;
      assert b[k] == r;
    }
  }

  lemma SameInitial(a: seq<Charge>, b: seq<Charge>, booking: nat)
    requires |a| <= |b| && forall c :: 0 <= c < |a| ==> b[c].bookingId == a[c].bookingId && b[c].kind == a[c].kind
    ensures FindInitial(a, booking).Some? ==> FindInitial(b, booking) == FindInitial(a, booking)
  {
  }

  lemma InitialLasts(a: seq<Charge>, b: seq<Charge>, booking: nat)
    requires |a| <= |b|
    requires forall c :: 0 <= c < |a| ==> b[c].bookingId == a[c].bookingId && b[c].kind == a[c].kind && (Orphan(b[c]) ==> Orphan(a[c]))
    ensures HasInitial(a, booking) ==> HasInitial(b, booking)
  {
    if c :| 0 <= c < |a| && SentInitial(a[c]) && a[c].bookingId == booking {
      assert SentInitial(b[c]);
    }
  }

  lemma NewInitial(charges: seq<Charge>, c: nat)
    requires c < |charges| && SentInitial(charges[c])
    ensures HasInitial(charges, charges[c].bookingId)
  {
  }

  // ---- the operations ----

  lemma RefundCommitMoves(w: World, t: RefundTicket, refundId: nat)
    requires RefundedMeansAll(w.charges) && RefundCommit(w, t, refundId).1.Success? && t.snapshot == w.charges[t.charge] && t.dollars > 0.0
    requires !Orphan(t.snapshot)
    requires RefundCommit(w, t, refundId).0.charges[t.charge].refunded <= t.snapshot.amount
    ensures ChargesMove(w.charges, RefundCommit(w, t, refundId).0.charges)
  {
    hide Money.ToColumn, CanEnqueue;
    var newRefunded := Money.Dollars(t.snapshot.refunded) + t.dollars;
    if newRefunded + 0.001 >= Money.Dollars(t.snapshot.amount) {
      FullMeansAll(newRefunded, t.snapshot.amount);
    }
  }

  /** After the whole call the charge is within its amount, because Stripe's total is. */
  lemma RefundStaysWithin(w: World, c: nat, dollars: real)
    requires Ledger.Ledger(w) && RefundCharge(w, c, dollars).1.Success?
    ensures var w' := RefundCharge(w, c, dollars).0;
            c < |w.charges| == |w'.charges| && w'.charges[c].refunded <= w.charges[c].amount
  {
    Ledger.RefundChargeKeeps(w, c, dollars);
    var w' := RefundCharge(w, c, dollars).0;
    hide RefundCall, CanEnqueue, Money.ToColumn;
    assert Ledger.ChargeLinked(c, w'.charges[c], w'.stripe.sessions);
    assert Ledger.SessionSound(w'.stripe.sessions[w'.charges[c].paymentIntentId.value]);
  }

  lemma RefundChargeMoves(w: World, c: nat, dollars: real)
    requires Ledger.Ledger(w) && RefundedMeansAll(w.charges)
    ensures var w' := RefundCharge(w, c, dollars).0;
            ChargesMove(w.charges, w'.charges) && OutboxMoves(w.outbox, w'.outbox) && w'.bookings == w.bookings && w'.inquiries == w.inquiries
  {
    hide Ledger.Ledger, CanEnqueue, Money.ToColumn;
    if RefundCharge(w, c, dollars).1.Success? {
      RefundStaysWithin(w, c, dollars);
      var t := RefundRead(w, c, dollars).value;
      var (called, refund) := RefundCall(w, t);
      RefundCommitMoves(called, t, refund.value);
    }
  }

  lemma FullMeansAll(dollars: real, amount: int)
    requires dollars + 0.001 >= Money.Dollars(amount)
    ensures Money.ToColumn(dollars) >= amount
  {
    assert dollars * 100.0 + 0.5 >= amount as real + 0.4;
  }

  lemma ClaimMoves(w: World, t: CancelTicket)
    ensures var claimed := CancelClaim(w, t).0;
            && BookingsMove(w.bookings, claimed.bookings) && claimed == w.(bookings := claimed.bookings)
  {
  }

  lemma BookingsMoveTwice(a: seq<Booking>, b: seq<Booking>, c: seq<Booking>)
    requires BookingsMove(a, b) && BookingsMove(b, c)
    ensures BookingsMove(a, c)
  {
    hide BookingSound;
  }

  lemma CancelMoves(w: World, id: nat, now: int)
    requires Ledger.Ledger(w) && RefundedMeansAll(w.charges)
    ensures var w' := Cancel(w, id, now).0;
            && BookingsMove(w.bookings, w'.bookings) && ChargesMove(w.charges, w'.charges)
            && OutboxMoves(w.outbox, w'.outbox) && w'.inquiries == w.inquiries
  {
    if CancelRead(w, id, now).Success? {
      var t := CancelRead(w, id, now).value;
      ClaimMoves(w, t);
      var (claimed, won) := CancelClaim(w, t);
      if won {
        Ledger.BooksUntouched(w, claimed);
        Ledger.CancelRefundKeeps(claimed, t);
        var (paid, refund) := CancelRefund(claimed, t);
        assert paid == claimed.(stripe := paid.stripe);
        if refund.Success? {
          CancelCommitMoves(paid, t);
          hide BookingsMove, CancelCommit, CancelRead, CancelRefund;
          BookingsMoveTwice(w.bookings, paid.bookings, CancelCommit(paid, t, refund.value).0.bookings);
        }
      }
    }
  }

  /** The commit of a cancellation whose refund Stripe has accepted. */
  lemma CancelCommitMoves(w: World, t: CancelTicket)
    requires Ledger.Ledger(w) && RefundedMeansAll(w.charges)
    requires CancelRefundCents(t) > 0 ==>
               && t.charge.value < |w.charges| && t.snapshot.value == w.charges[t.charge.value]
               && t.snapshot.value.refunded + CancelRefundCents(t) <= w.stripe.sessions[t.snapshot.value.paymentIntentId.value].refunded
    ensures var w' := CancelCommit(w, t, CancelRefundCents(t)).0;
            && BookingsMove(w.bookings, w'.bookings) && ChargesMove(w.charges, w'.charges)
            && OutboxMoves(w.outbox, w'.outbox) && w'.inquiries == w.inquiries
  {
    if CancelRefundCents(t) > 0 {
      var c := t.charge.value;
      assert Ledger.ChargeLinked(c, w.charges[c], w.stripe.sessions);
      assert Ledger.SessionSound(w.stripe.sessions[t.snapshot.value.paymentIntentId.value]);
    }
  }

  lemma NewDatesMove(w: World, id: nat, checkIn: int, checkOut: int, q: Pricing.Quote, timestamp: int)
    requires id < |w.bookings| && RefundedMeansAll(w.charges)
    requires BookingSound(Requoted(w.bookings[id], checkIn, checkOut, q))
    ensures var w' := ApplyNewDates(w, id, checkIn, checkOut, q, timestamp).0;
            && BookingsMove(w.bookings, w'.bookings) && ChargesMove(w.charges, w'.charges)
            && OutboxMoves(w.outbox, w'.outbox) && w'.inquiries == w.inquiries
  {
    hide FindInitial, CanEnqueue, BookingSound;
  }

  lemma ModifyDatesMoves(w: World, id: nat, checkIn: int, checkOut: int, timestamp: int)
    requires RefundedMeansAll(w.charges)
    ensures var w' := ModifyDates(w, id, checkIn, checkOut, timestamp).0;
            && BookingsMove(w.bookings, w'.bookings) && ChargesMove(w.charges, w'.charges)
            && OutboxMoves(w.outbox, w'.outbox) && w'.inquiries == w.inquiries
  {
    hide ApplyNewDates, HasRealConflict, Pricing.GetQuote;
    var quote := Pricing.GetQuote(w.property, w.jurisdictions, checkIn, checkOut);
    if id < |w.bookings| && checkIn < checkOut && quote.Success? {
      Pricing.QuoteAddsUp(w.property, w.jurisdictions, checkIn, checkOut);
      NewDatesMove(w, id, checkIn, checkOut, quote.value, timestamp);
    }
  }

  lemma RefundEventMoves(w: World, event: nat)
    requires Ledger.Ledger(w) && RefundedMeansAll(w.charges) && OrphansUnlinked(w.charges)
    requires event < |w.stripe.events| && w.stripe.events[event].ChargeRefunded?
    ensures ChargesMove(w.charges, Handle(w, event, w.stripe.events[event]).0.charges)
  {
    Ledger.HandleKeeps(w, event);
    var e := w.stripe.events[event];
    var w' := Handle(w, event, e).0;
    if w'.charges != w.charges {
      var c := FindByPaymentIntent(w.charges, e.paymentIntent).value;
      hide FindByPaymentIntent, CanEnqueue;
      assert Ledger.ChargeLinked(c, w.charges[c], w.stripe.sessions);
      assert Ledger.ChargeLinked(c, w'.charges[c], w'.stripe.sessions);
      assert Ledger.SessionSound(w'.stripe.sessions[w'.charges[c].paymentIntentId.value]);
      assert Stripe.Truthful(w.stripe, e);
    }
  }

  /** Handlers other than a payment's. */
  lemma HandleMoves(w: World, event: nat)
    requires Ledger.Ledger(w) && RefundedMeansAll(w.charges) && OrphansUnlinked(w.charges)
    requires event < |w.stripe.events| && !w.stripe.events[event].CheckoutCompleted?
    ensures var w' := Handle(w, event, w.stripe.events[event]).0;
            && w'.bookings == w.bookings && ChargesMove(w.charges, w'.charges)
            && OutboxMoves(w.outbox, w'.outbox) && w'.inquiries == w.inquiries
  {
    if w.stripe.events[event].ChargeRefunded? {
      RefundEventMoves(w, event);
    }
    OtherHandlerShape(w, event, w.stripe.events[event]);
    hide Handle;
  }

  lemma OtherHandlerShape(w: World, event: nat, e: Stripe.Event)
    requires !e.CheckoutCompleted?
    ensures var w' := Handle(w, event, e).0;
            && w'.bookings == w.bookings && w'.inquiries == w.inquiries && OutboxMoves(w.outbox, w'.outbox)
            && (!e.ChargeRefunded? ==> w'.charges == w.charges)
  {
    hide FindByPaymentIntent, CanEnqueue, Money.Covers;
  }

  /** What a recorded payment writes. */
  ghost predicate PaymentWritten(w: World, w': World, c: nat, pi: Option<nat>) {
    && c < |w.charges| && w.charges[c].bookingId < |w.bookings| && w.charges[c].sessionId.Some?
    && var b := w.charges[c].bookingId;
    && w'.uniqueKeys == w.uniqueKeys && w'.inquiries == w.inquiries
    && w'.charges == w.charges[c := w.charges[c].(status := Succeeded, paymentIntentId := pi)]
    && w'.bookings == w.bookings[b := w.bookings[b].(status := Confirmed)]
    && w'.outbox == w.outbox + [BookingConfirmed(b, c), RebuildConfirmed(b)]
  }

  lemma PaymentKeepsRows(w: World, w': World, c: nat, pi: Option<nat>)
    requires Sound(w) && PaymentWritten(w, w', c, pi)
    ensures BookingsSound(w'.bookings) && InquiriesMatch(w'.inquiries, |w'.bookings|) && RefundedMeansAll(w'.charges)
  {
    hide PaymentsAnnounced, OnePaymentPerBooking, KeysBounded, ChargesPlaced, FromInquiry;
  }

  lemma PaymentKeepsPlaces(w: World, w': World, c: nat, pi: Option<nat>)
    requires ChargesPlaced(w.charges, w.bookings) && PaymentWritten(w, w', c, pi)
    ensures ChargesPlaced(w'.charges, w'.bookings)
  {
    forall i | 0 <= i < |w'.bookings| && w'.bookings[i].status == Approved ensures HasInitial(w'.charges, i) {
      InitialLasts(w.charges, w'.charges, i);
    }
  }

  lemma PaymentKeepsKeys(w: World, w': World, c: nat, pi: Option<nat>)
    requires KeysBounded(w) && PaymentWritten(w, w', c, pi)
    ensures KeysBounded(w')
  {
    var b := w.charges[c].bookingId;
    assert forall r :: r in w'.outbox <==> r in w.outbox || r in [BookingConfirmed(b, c), RebuildConfirmed(b)];
  }

  /** A payment: the charge succeeds and the booking is confirmed, whatever its status was. */
  lemma CheckoutKeepsSound(w: World, session: nat, pi: Option<nat>)
    requires Sound(w)
    ensures Sound(HandleCheckoutSucceeded(w, session, pi).0)
  {
    var w' := HandleCheckoutSucceeded(w, session, pi).0;
    if w' != w {
      var c := FindBySession(w.charges, session).value;
      var known := w'.charges[c].paymentIntentId;
      assert PaymentWritten(w, w', c, known);
      hide HandleCheckoutSucceeded, BookingsSound, InquiriesMatch, ChargesPlaced, PaymentsAnnounced, OnePaymentPerBooking, KeysBounded, RefundedMeansAll;
      PaymentKeepsRows(w, w', c, known);
      PaymentKeepsPlaces(w, w', c, known);
      PaymentKeepsKeys(w, w', c, known);
      PaymentAnnounced(w, w', c);
    }
  }

  lemma PaymentAnnounced(w: World, w': World, c: nat)
    requires c < |w.charges| && PaymentsAnnounced(w) && OnePaymentPerBooking(w)
    requires w'.uniqueKeys == w.uniqueKeys && |w'.charges| == |w.charges| && |w'.bookings| == |w.bookings|
    requires w'.charges[c].status == Succeeded && w'.charges[c].bookingId == w.charges[c].bookingId
    requires forall d :: 0 <= d < |w.charges| && d != c ==> w'.charges[d] == w.charges[d]
    requires forall i :: 0 <= i < |w.bookings| && w'.bookings[i].status == Confirmed ==>
                           i == w.charges[c].bookingId || w.bookings[i].status == Confirmed
    requires w'.outbox == w.outbox + [BookingConfirmed(w.charges[c].bookingId, c), RebuildConfirmed(w.charges[c].bookingId)]
    requires CanEnqueue(w.uniqueKeys, w.outbox, RebuildConfirmed(w.charges[c].bookingId))
    ensures PaymentsAnnounced(w') && OnePaymentPerBooking(w')
  {
    var b := w.charges[c].bookingId;
    var news := [BookingConfirmed(b, c), RebuildConfirmed(b)];
    assert forall r :: r in w'.outbox <==> r in w.outbox || r in news;
    assert BookingConfirmed(b, c) in news && RebuildConfirmed(b) in news;
    forall i: nat | HasPaidCharge(w, i) || i == b ensures HasPaidCharge(w', i) {
      if i == b {
        assert BookingConfirmed(b, c) in w'.outbox;
      } else {
        var d :| BookingConfirmed(i, d) in w.outbox;
        assert BookingConfirmed(i, d) in w'.outbox;
      }
    }
    if w.uniqueKeys {
      assert RebuildConfirmed(b) !in w.outbox;
      assert forall d :: BookingConfirmed(b, d) !in w.outbox;
    }
  }

  lemma ReceiveKeepsSound(w: World, event: nat)
    requires Ledger.Ledger(w) && Sound(w)
    ensures Sound(Receive(w, event).0) && Sound(DieInReceive(w, event))
  {
    if event < |w.stripe.events| && event !in w.webhookEvents {
      var recorded := w.(webhookEvents := w.webhookEvents[event := false]);
      MovesKeepSound(w, recorded);
      Ledger.EventRowAdded(w, event, recorded);
      var e := w.stripe.events[event];
      var handled := Handle(recorded, event, e).0;
      if e.CheckoutCompleted? {
        CheckoutKeepsSound(recorded, e.session, e.paymentIntent);
      } else {
        HandleMoves(recorded, event);
        MovesKeepSound(recorded, handled);
      }
      MovesKeepSound(handled, Receive(w, event).0);
    }
  }

  lemma CreateInquiryKeepsSound(w: World, email: string, checkIn: int, checkOut: int)
    requires Sound(w)
    ensures CreateInquiry(w, email, checkIn, checkOut).1.Success?
    ensures Sound(CreateInquiry(w, email, checkIn, checkOut).0)
  {
    var id := |w.inquiries|;
    var w' := CreateInquiry(w, email, checkIn, checkOut).0;
    InquiryKeysFresh(w, id);
    forall b: nat | b < |w'.bookings| ensures FromInquiry(w'.inquiries, b) {
      assert FromInquiry(w.inquiries, b);
      var i :| 0 <= i < |w.inquiries| && w.inquiries[i].convertedBookingId == Some(b);
      assert w'.inquiries[i].convertedBookingId == Some(b);
    }
    AnnouncementsKept(w, w');
  }

  lemma InquiryKeysFresh(w: World, id: nat)
    requires KeysBounded(w) && id >= |w.inquiries|
    ensures CanEnqueue(w.uniqueKeys, w.outbox, InquiryNew(id)) && CanEnqueue(w.uniqueKeys, w.outbox, InquiryAcknowledged(id))
  {
  }

  /** New rows that announce no payment leave the payment facts alone. */
  lemma AnnouncementsKept(w: World, w': World)
    requires PaymentsAnnounced(w) && OnePaymentPerBooking(w)
    requires w'.uniqueKeys == w.uniqueKeys
    requires w.charges <= w'.charges && forall c :: |w.charges| <= c < |w'.charges| ==> w'.charges[c].status != Succeeded
    requires forall b :: 0 <= b < |w'.bookings| && w'.bookings[b].status == Confirmed ==> b < |w.bookings| && w.bookings[b].status == Confirmed
    requires w.outbox <= w'.outbox
    requires forall k :: |w.outbox| <= k < |w'.outbox| ==> !w'.outbox[k].BookingConfirmed? && !w'.outbox[k].RebuildConfirmed?
    ensures PaymentsAnnounced(w') && OnePaymentPerBooking(w')
  {
    assert forall r :: r in w.outbox ==> r in w'.outbox by {
      forall r | r in w.outbox ensures r in w'.outbox {
        var k :| 0 <= k < |w.outbox| && w.outbox[k] == r;
        assert w'.outbox[k] == r;
      }
    }
    assert forall r :: r in w'.outbox && (r.BookingConfirmed? || r.RebuildConfirmed?) ==> r in w.outbox;
    forall b | 0 <= b < |w'.bookings| && w'.bookings[b].status == Confirmed ensures HasPaidCharge(w', b) {
      assert HasPaidCharge(w, b);
    }
    forall b | RebuildConfirmed(b) in w'.outbox ensures HasPaidCharge(w', b) {
      assert HasPaidCharge(w, b);
    }
  }

  lemma TransitionKeepsSound(w: World, id: nat, next: InquiryStatus)
    requires Sound(w) && (next == Responded || next == Closed)
    ensures Sound(TransitionInquiry(w, id, next).0)
  {
    var w' := TransitionInquiry(w, id, next).0;
    if w' != w {
      forall b: nat | b < |w'.bookings| ensures FromInquiry(w'.inquiries, b) {
        assert FromInquiry(w.inquiries, b);
        var i :| 0 <= i < |w.inquiries| && w.inquiries[i].convertedBookingId == Some(b);
        assert w'.inquiries[i].convertedBookingId == Some(b);
      }
      AnnouncementsKept(w, w');
    }
  }

  lemma ConvertKeepsSound(w: World, id: nat)
    requires Sound(w)
    ensures Sound(ConvertInquiry(w, id).0)
  {
    var w' := ConvertInquiry(w, id).0;
    if w' != w {
      Pricing.QuoteAddsUp(w.property, w.jurisdictions, w.inquiries[id].checkIn, w.inquiries[id].checkOut);
      var q := Pricing.GetQuote(w.property, w.jurisdictions, w.inquiries[id].checkIn, w.inquiries[id].checkOut).value;
      assert BookingSound(NewBooking(w.inquiries[id], q));
      forall b: nat | b < |w'.bookings| ensures FromInquiry(w'.inquiries, b) {
        if b == |w.bookings| {
          assert w'.inquiries[id].convertedBookingId == Some(b);
        } else {
          assert FromInquiry(w.inquiries, b);
          var i :| 0 <= i < |w.inquiries| && w.inquiries[i].convertedBookingId == Some(b);
          assert w'.inquiries[i].convertedBookingId == Some(b);
        }
      }
      AnnouncementsKept(w, w');
    }
  }

  lemma ChargeKeysFresh(w: World, b: nat, c: nat)
    requires KeysBounded(w) && c >= |w.charges|
    ensures CanEnqueue(w.uniqueKeys, w.outbox, BookingApproved(b, c)) && CanEnqueue(w.uniqueKeys, w.outbox, AdHocChargeSent(b, c))
  {
    forall r | r in w.outbox ensures KeyOf(r) != KeyOf(AdHocChargeSent(b, c)) {
      assert r.AdHocChargeSent? ==> AdHocChargeSent(r.booking, r.charge) in w.outbox;
    }
  }

  lemma ApproveKeepsSound(w: World, id: nat, reply: Stripe.SessionReply)
    requires Sound(w)
    ensures Sound(Approve(w, id, reply).0)
  {
    hide HasRealConflict, InquiriesMatch, HasInitial, PaymentsAnnounced, OnePaymentPerBooking;
    var w' := Approve(w, id, reply).0;
    if w' != w {
      var c := |w.charges|;
      ChargeKeysFresh(w, id, c);
      forall b | 0 <= b < |w'.bookings| && w'.bookings[b].status == Approved ensures HasInitial(w'.charges, b) {
        if b != id { InitialLasts(w.charges, w'.charges, b); } else { NewInitial(w'.charges, c); }
      }
      AnnouncementsKept(w, w');
    }
  }

  lemma AdHocKeepsSound(w: World, op: Op)
    requires Sound(w) && op.DoAdHocCharge?
    ensures Sound(Apply(w, op))
  {
    hide Money.ToColumn, BookingsSound, InquiriesMatch, HasInitial, PaymentsAnnounced, OnePaymentPerBooking;
    var w' := Apply(w, op);
    if w' != w {
      var c := |w.charges|;
      ChargeKeysFresh(w, op.booking, c);
      forall b | 0 <= b < |w'.bookings| && w'.bookings[b].status == Approved ensures HasInitial(w'.charges, b) {
        InitialLasts(w.charges, w'.charges, b);
      }
      AnnouncementsKept(w, w');
    }
  }

  lemma OrphanKeepsSound(w: World, id: nat, kind: ChargeKind, amount: int, atStripe: bool)
    requires Sound(w) && id < |w.bookings|
    ensures Sound(Orphaned(w, id, kind, amount, atStripe))
  {
    hide BookingsSound, InquiriesMatch, HasInitial, PaymentsAnnounced, OnePaymentPerBooking;
    var w' := Orphaned(w, id, kind, amount, atStripe);
    forall b | 0 <= b < |w'.bookings| && w'.bookings[b].status == Approved ensures HasInitial(w'.charges, b) {
      InitialLasts(w.charges, w'.charges, b);
    }
    AnnouncementsKept(w, w');
  }

  lemma ClaimKeepsSound(w: World, t: CancelTicket)
    requires Sound(w)
    ensures Sound(CancelClaim(w, t).0)
  {
    ClaimMoves(w, t);
    MovesKeepSound(w, CancelClaim(w, t).0);
  }

  lemma CrashKeepsSound(w: World, op: Op)
    requires Ledger.Ledger(w) && Sound(w)
    requires op.CrashInApprove? || op.CrashInAdHocCharge? || op.CrashInCancel? || op.CrashInDelivery?
    ensures Sound(Apply(w, op))
  {
    hide Sound, Orphaned, CancelClaim, DieInReceive, HasRealConflict, Money.ToColumn;
    match op
    case CrashInApprove(id, atStripe) =>
      if id < |w.bookings| { OrphanKeepsSound(w, id, Initial, w.bookings[id].Total(), atStripe); }
    case CrashInAdHocCharge(id, kind, dollars, _, atStripe) =>
      if id < |w.bookings| { OrphanKeepsSound(w, id, kind, Money.ToColumn(dollars), atStripe); }
    case CrashInCancel(id, now) =>
      if CancelRead(w, id, now).Success? { ClaimKeepsSound(w, CancelRead(w, id, now).value); }
    case CrashInDelivery(e) => ReceiveKeepsSound(w, e);
  }

  lemma RequestKeepsSound(w: World, op: Op)
    requires Sound(w) && ThroughApi(op)
    requires op.DoCreateInquiry? || op.DoTransition? || op.DoConvert? || op.DoApprove? || op.DoAdHocCharge? || op.DoDecline?
    ensures Sound(Apply(w, op))
  {
    hide Sound;
    hide CreateInquiry, TransitionInquiry, ConvertInquiry, Approve, DieInApprove, Decline, Cancel, DieInCancel;
    hide ModifyDates, CreateAdHocCharge, DieInAdHocCharge, RefundCharge, Receive, DieInReceive;
    match op
    case DoCreateInquiry(email, i, o) => CreateInquiryKeepsSound(w, email, i, o);
    case DoTransition(id, next) => TransitionKeepsSound(w, id, next);
    case DoConvert(id) => ConvertKeepsSound(w, id);
    case DoApprove(id, reply) => ApproveKeepsSound(w, id, reply);
    case DoAdHocCharge(_, _, _, _, _) => AdHocKeepsSound(w, op);
    case DoDecline(id) => DeclineKeepsSound(w, id);
  }

  lemma EnvironmentKeepsSound(w: World, op: Op)
    requires Sound(w) && ByEnvironment(op) && !op.DoTransition?
    ensures Sound(Apply(w, op))
  {
    hide Sound, Apply;
    EnvironmentLeaves(w, op);
    UntouchedKeepsSound(w, Apply(w, op));
  }

  lemma StepKeepsSound(w: World, op: Op)
    requires Ledger.Ledger(w) && Sound(w) && ThroughApi(op)
    ensures Sound(Apply(w, op))
  {
    hide Sound, Ledger.Ledger, ThroughApi;
    hide CreateInquiry, TransitionInquiry, ConvertInquiry, Approve, DieInApprove, Decline, Cancel, DieInCancel;
    hide ModifyDates, CreateAdHocCharge, DieInAdHocCharge, RefundCharge, Receive, DieInReceive;
    match op
    case DoCancel(id, now) => CancelKeepsSound(w, id, now);
    case DoModifyDates(id, i, o, ts) => ModifyDatesKeepsSound(w, id, i, o, ts);
    case DoRefund(c, dollars) => RefundChargeKeepsSound(w, c, dollars);
    case Deliver(e) => ReceiveKeepsSound(w, e);
    case CrashInApprove(_, _) => CrashKeepsSound(w, op);
    case CrashInAdHocCharge(_, _, _, _, _) => CrashKeepsSound(w, op);
    case CrashInCancel(_, _) => CrashKeepsSound(w, op);
    case CrashInDelivery(_) => CrashKeepsSound(w, op);
    case _ =>
      hide Apply;
      if ByEnvironment(op) && !op.DoTransition? { EnvironmentKeepsSound(w, op); } else { RequestKeepsSound(w, op); }
  }

  lemma DeclineKeepsSound(w: World, id: nat)
    requires Sound(w)
    ensures Sound(Decline(w, id).0)
  {
    DeclineMoves(w, id);
    hide Decline, Sound;
    MovesKeepSound(w, Decline(w, id).0);
  }

  lemma DeclineMoves(w: World, id: nat)
    requires RefundedMeansAll(w.charges)
    ensures var w' := Decline(w, id).0;
            && BookingsMove(w.bookings, w'.bookings) && ChargesMove(w.charges, w'.charges)
            && OutboxMoves(w.outbox, w'.outbox) && w'.inquiries == w.inquiries
  {
    hide CanEnqueue;
  }

  lemma CancelKeepsSound(w: World, id: nat, now: int)
    requires Ledger.Ledger(w) && Sound(w)
    ensures Sound(Cancel(w, id, now).0)
  {
    CancelMoves(w, id, now);
    MovesKeepSound(w, Cancel(w, id, now).0);
  }

  lemma ModifyDatesKeepsSound(w: World, id: nat, checkIn: int, checkOut: int, timestamp: int)
    requires Ledger.Ledger(w) && Sound(w)
    ensures Sound(ModifyDates(w, id, checkIn, checkOut, timestamp).0)
  {
    ModifyDatesMoves(w, id, checkIn, checkOut, timestamp);
    MovesKeepSound(w, ModifyDates(w, id, checkIn, checkOut, timestamp).0);
  }

  lemma RefundChargeKeepsSound(w: World, c: nat, dollars: real)
    requires Ledger.Ledger(w) && Sound(w)
    ensures Sound(RefundCharge(w, c, dollars).0)
  {
    RefundChargeMoves(w, c, dollars);
    MovesKeepSound(w, RefundCharge(w, c, dollars).0);
  }

  lemma UntouchedKeepsSound(w: World, w': World)
    requires Sound(w)
    requires w'.bookings == w.bookings && w'.charges == w.charges && w'.outbox == w.outbox
    requires w'.inquiries == w.inquiries && w'.uniqueKeys == w.uniqueKeys
    ensures Sound(w')
  {
    MovesKeepSound(w, w');
  }

  ghost predicate AllThroughApi(ops: seq<Op>) {
    forall k :: 0 <= k < |ops| ==> ThroughApi(ops[k])
  }

  lemma {:induction false} RunKeepsSound(w: World, ops: seq<Op>)
    requires Ledger.Ledger(w) && Sound(w) && AllThroughApi(ops)
    ensures Ledger.Ledger(Run(w, ops)) && Sound(Run(w, ops))
    decreases |ops|
  {
    if ops != [] {
      Ledger.StepKeepsLedger(w, ops[0]);
      StepKeepsSound(w, ops[0]);
      RunKeepsSound(Apply(w, ops[0]), ops[1..]);
    }
  }

  /** Every state that a fresh installation reaches is sound. */
  lemma ReachableIsSound(unique: bool, ops: seq<Op>)
    requires AllThroughApi(ops)
    ensures Ledger.Ledger(Run(Empty(unique), ops)) && Sound(Run(Empty(unique), ops))
  {
    RunKeepsSound(Empty(unique), ops);
  }

  // ---- what follows from it ----

  /** The rows of a payment can be written unless the index stands in the way of a second one. */
  lemma PaymentKeysFreeIff(w: World, b: nat, c: nat)
    requires PaymentsAnnounced(w) && c < |w.charges| && w.charges[c].bookingId == b
    ensures CanEnqueue(w.uniqueKeys, w.outbox, BookingConfirmed(b, c)) && CanEnqueue(w.uniqueKeys, w.outbox, RebuildConfirmed(b))
            <==> !w.uniqueKeys || !HasPaidCharge(w, b)
  {
    if HasPaidCharge(w, b) {
      var d :| BookingConfirmed(b, d) in w.outbox;
      assert RebuildConfirmed(b) in w.outbox;
    } else {
      forall row | row in w.outbox
        ensures KeyOf(row) != KeyOf(BookingConfirmed(b, c)) && KeyOf(row) != KeyOf(RebuildConfirmed(b)) {
        assert row.BookingConfirmed? ==> BookingConfirmed(row.booking, row.charge) in w.outbox;
        assert row.RebuildConfirmed? ==> RebuildConfirmed(row.booking) in w.outbox;
      }
    }
  }

  /** A payment is recorded exactly when the index is absent or the booking has no recorded payment yet:
      under the index a second paid charge of a booking is rolled back, so it can never succeed. */
  lemma PaymentRecordedIff(w: World, session: nat, pi: Option<nat>)
    requires Sound(w)
    requires FindBySession(w.charges, session).Some?
    requires !Paid(w.charges[FindBySession(w.charges, session).value].status)
    ensures var c := FindBySession(w.charges, session).value;
            var b := w.charges[c].bookingId;
            var (w', r) := HandleCheckoutSucceeded(w, session, pi);
            && (r == Success(Some(c)) <==> !w.uniqueKeys || !HasPaidCharge(w, b))
            && (r.Success? ==> w'.charges[c].status == Succeeded && w'.bookings[b].status == Confirmed && HasPaidCharge(w', b))
            && (r.Failure? ==> r.error == UniqueViolation && w' == w)
  {
    var c := FindBySession(w.charges, session).value;
    var b := w.charges[c].bookingId;
    var (w', r) := HandleCheckoutSucceeded(w, session, pi);
    PaymentKeysFreeIff(w, b, c);
    assert b < |w.bookings|;
    hide Sound, FindBySession, CanEnqueue, HasPaidCharge;
    if r.Success? {
      assert w'.outbox[|w.outbox|] == BookingConfirmed(b, c);
      PaidNow(w', b, c);
    }
  }

  lemma PaidNow(w: World, b: nat, c: nat)
    requires BookingConfirmed(b, c) in w.outbox
    ensures HasPaidCharge(w, b)
  {
  }

  /** Hence, with the index, no booking ever has two succeeded charges. */
  lemma AtMostOneSucceeded(ops: seq<Op>, c: nat, d: nat)
    requires AllThroughApi(ops)
    requires var w := Run(Empty(true), ops);
             && c < |w.charges| && d < |w.charges| && w.charges[c].bookingId == w.charges[d].bookingId
             && w.charges[c].status == Succeeded && w.charges[d].status == Succeeded
    ensures c == d
  {
    ReachableIsSound(true, ops);
    RunKeepsIndex(Empty(true), ops);
  }

  lemma {:induction false} RunKeepsIndex(w: World, ops: seq<Op>)
    ensures Run(w, ops).uniqueKeys == w.uniqueKeys
    decreases |ops|
  {
    if ops != [] {
      RunKeepsIndex(Apply(w, ops[0]), ops[1..]);
    }
  }

  /** Handling the same completed checkout again changes nothing. */
  lemma CheckoutTwice(w: World, session: nat, first: Option<nat>, second: Option<nat>)
    requires HandleCheckoutSucceeded(w, session, first).1.Success?
    ensures var w' := HandleCheckoutSucceeded(w, session, first).0;
            HandleCheckoutSucceeded(w', session, second) == (w', HandleCheckoutSucceeded(w, session, first).1)
  {
    var w' := HandleCheckoutSucceeded(w, session, first).0;
    if w' != w {
      SameSession(w.charges, w'.charges, session);
    }
  }

  lemma {:induction false} SameSession(a: seq<Charge>, b: seq<Charge>, session: nat)
    requires |a| == |b| && forall c :: 0 <= c < |a| ==> b[c].sessionId == a[c].sessionId
    ensures FindBySession(b, session) == FindBySession(a, session)
    decreases |a|
  {
    if a != [] {
      var last := |a| - 1;
      SameSession(a[..last], b[..last], session);
    }
  }

  /** The service alone would also accept `converted`, from every inquiry that has not ended, and that
      always leaves the inquiry without a booking. */
  lemma ConvertedByTransitionBreaksMatching(w: World, id: nat)
    requires Sound(w) && id < |w.inquiries|
    ensures TransitionInquiry(w, id, Converted).1.Success? <==> w.inquiries[id].status == New || w.inquiries[id].status == Responded
    ensures TransitionInquiry(w, id, Converted).1.Success? <==> !Sound(TransitionInquiry(w, id, Converted).0)
  {
    var w' := TransitionInquiry(w, id, Converted).0;
    if w' != w {
      assert w'.inquiries[id].status == Converted && w'.inquiries[id].convertedBookingId == None;
    }
  }

  /** If the process dies inside approve the pending row stays; approving again then gives the booking
      a second initial charge. */
  lemma CrashInApproveThenRetry(w: World, id: nat, reply: Stripe.SessionReply, atStripe: bool)
    requires Sound(w) && Approve(w, id, reply).1.Success?
    ensures var crashed := DieInApprove(w, id, atStripe);
            var (retried, r) := Approve(crashed, id, reply);
            && r.Success? && |retried.charges| == |w.charges| + 2
            && retried.charges[|w.charges|].kind == Initial && retried.charges[|w.charges| + 1].kind == Initial
            && retried.charges[|w.charges|].bookingId == retried.charges[|w.charges| + 1].bookingId == id
  {
    ChargeKeysFresh(w, id, |w.charges| + 1);
  }

  lemma InquiryStepKeepsEnded(w: World, op: Op, i: nat)
    requires op.DoCreateInquiry? || op.DoTransition? || op.DoConvert?
    requires i < |w.inquiries| && (w.inquiries[i].status == Converted || w.inquiries[i].status == Closed)
    ensures i < |Apply(w, op).inquiries| && Apply(w, op).inquiries[i] == w.inquiries[i]
  {
    hide CanEnqueue, Pricing.GetQuote;
  }

  lemma ChargeStepLeavesInquiries(w: World, op: Op)
    requires op.DoApprove? || op.CrashInApprove? || op.DoAdHocCharge? || op.CrashInAdHocCharge? || op.DoRefund? || op.DoDecline?
    ensures Apply(w, op).inquiries == w.inquiries
  {
    hide CanEnqueue, HasRealConflict, Money.ToColumn, Stripe.CreateRefund;
  }

  lemma CancelStepLeavesInquiries(w: World, op: Op)
    requires op.DoCancel? || op.CrashInCancel? || op.DoModifyDates?
    ensures Apply(w, op).inquiries == w.inquiries
  {
    hide CanEnqueue, HasRealConflict, Pricing.GetQuote, FindInitial, Stripe.CreateRefund;
  }

  lemma DeliveryLeavesInquiries(w: World, op: Op)
    requires op.Deliver? || op.CrashInDelivery?
    ensures Apply(w, op).inquiries == w.inquiries
  {
    hide CanEnqueue, FindBySession, FindByPaymentIntent;
  }

  lemma StepKeepsEnded(w: World, op: Op, i: nat)
    requires i < |w.inquiries| && (w.inquiries[i].status == Converted || w.inquiries[i].status == Closed)
    ensures i < |Apply(w, op).inquiries| && Apply(w, op).inquiries[i] == w.inquiries[i]
  {
    hide Apply;
    match op
    case DoCreateInquiry(_, _, _) => InquiryStepKeepsEnded(w, op, i);
    case DoTransition(_, _) => InquiryStepKeepsEnded(w, op, i);
    case DoConvert(_) => InquiryStepKeepsEnded(w, op, i);
    case DoCancel(_, _) => CancelStepLeavesInquiries(w, op);
    case CrashInCancel(_, _) => CancelStepLeavesInquiries(w, op);
    case DoModifyDates(_, _, _, _) => CancelStepLeavesInquiries(w, op);
    case Deliver(_) => DeliveryLeavesInquiries(w, op);
    case CrashInDelivery(_) => DeliveryLeavesInquiries(w, op);
    case _ => if ByEnvironment(op) { EnvironmentLeaves(w, op); } else { ChargeStepLeavesInquiries(w, op); }
  }

  /** A converted or closed inquiry never changes again. */
  lemma {:induction false} EndedInquiryStays(w: World, ops: seq<Op>, i: nat)
    requires i < |w.inquiries| && (w.inquiries[i].status == Converted || w.inquiries[i].status == Closed)
    ensures i < |Run(w, ops).inquiries| && Run(w, ops).inquiries[i] == w.inquiries[i]
    decreases |ops|
  {
    if ops != [] {
      StepKeepsEnded(w, ops[0], i);
      EndedInquiryStays(Apply(w, ops[0]), ops[1..], i);
    }
  }
}
