/** Short runs from a fresh installation, and the states they lead to. */
module Scenarios {
  import opened Wrappers
  import opened Schema
  import opened Operations
  import CancellationPolicy
  import Pricing
  import Stripe
  import Tax

  /** Ten dollars a night, tax free. */
  const PRICES := Some(Pricing.Property(1000, 0, 1, None))
  const TAXES := [Tax.Jurisdiction(Tax.City, 0, None, 30)]

  lemma {:induction false} RunOneMore(w: World, ops: seq<Op>, op: Op)
    ensures Run(w, ops + [op]) == Apply(Run(w, ops), op)
    decreases |ops|
  {
    if ops == [] {
      assert ops + [op] == [op] && [op][1..] == [];
    } else {
      RunOneMore(Apply(w, ops[0]), ops[1..], op);
      assert (ops + [op])[1..] == ops[1..] + [op];
    }
  }

  function Stay(status: BookingStatus): Booking {
    Booking(Some("g"), status, 0, 1, 1, 1000, 1000, 0, 0, 0, None, None)
  }

  lemma OneNight()
    ensures Pricing.GetQuote(PRICES, TAXES, 0, 1) == Success(Pricing.Quote(1000, 1, 1000, 0, 0, 0, 1000))
  {
    var p := PRICES.value;
    assert Pricing.GuestNightlyRate(p, 1) == 1000;
    assert Tax.Find(TAXES, Tax.State).None? && Tax.Find(TAXES, Tax.City) == Some(TAXES[0]);
    Tax.TaxBounds(TAXES, 1000, 1);
    Pricing.QuoteAddsUp(PRICES, TAXES, 0, 1);
  }

  // ---- one request ----

  function Requested(): seq<Op> {
    [] + [SetPrices(PRICES, TAXES)] + [DoCreateInquiry("g", 0, 1)] + [DoConvert(0)]
  }

  /** One guest asked for one night. What follows changes bookings, charges, outbox, webhook events and Stripe. */
  function OneGuest(unique: bool, status: BookingStatus, charges: seq<Charge>, outbox: seq<OutboxRow>, seen: map<nat, bool>, stripe: Stripe.Account): World {
    World(unique, PRICES, TAXES, [Inquiry("g", 0, 1, Converted, Some(0))], [Stay(status)], charges, [],
          [InquiryNew(0), InquiryAcknowledged(0)] + outbox, seen, stripe)
  }

  lemma AfterRequest(unique: bool)
    ensures Run(Empty(unique), Requested()) == OneGuest(unique, PendingApproval, [], [], map[], Stripe.Account([], []))
  {
    var w0 := Empty(unique);
    RunOneMore(w0, [], SetPrices(PRICES, TAXES));
    RunOneMore(w0, [] + [SetPrices(PRICES, TAXES)], DoCreateInquiry("g", 0, 1));
    RunOneMore(w0, [] + [SetPrices(PRICES, TAXES)] + [DoCreateInquiry("g", 0, 1)], DoConvert(0));
    assert Run(w0, []) == w0;
    hide Run;
    InquireOnce(unique);
    ConvertOnce(unique);
  }

  function OneInquiry(unique: bool): World {
    Empty(unique).(property := PRICES, jurisdictions := TAXES, inquiries := [Inquiry("g", 0, 1, New, None)],
                   outbox := [InquiryNew(0), InquiryAcknowledged(0)])
  }

  lemma InquireOnce(unique: bool)
    ensures Apply(Apply(Empty(unique), SetPrices(PRICES, TAXES)), DoCreateInquiry("g", 0, 1)) == OneInquiry(unique)
  {
    var w := Apply(Apply(Empty(unique), SetPrices(PRICES, TAXES)), DoCreateInquiry("g", 0, 1));
    assert w.inquiries == [Inquiry("g", 0, 1, New, None)] && w.outbox == [InquiryNew(0), InquiryAcknowledged(0)];
  }

  lemma ConvertOnce(unique: bool)
    ensures Apply(OneInquiry(unique), DoConvert(0)) == OneGuest(unique, PendingApproval, [], [], map[], Stripe.Account([], []))
  {
    OneNight();
    hide Pricing.GetQuote;
    assert Apply(OneInquiry(unique), DoConvert(0)).bookings == [Stay(PendingApproval)];
    assert [InquiryNew(0), InquiryAcknowledged(0)] + [] == [InquiryNew(0), InquiryAcknowledged(0)];
  }

  lemma SameNightNoConflict(w: World)
    requires w.blocks == [] && forall b :: 0 <= b < |w.bookings| ==> w.bookings[b].checkIn == 0 && w.bookings[b].checkOut == 1
    ensures !HasRealConflict(w, 0, 1, 0, 1)
  {
  }

  function SentCharge(pi: Option<nat>): Charge {
    Charge(0, Initial, 1000, Sent, Some(0), pi, 0)
  }

  lemma ApproveOneGuest(unique: bool, atOnce: bool, charges: seq<Charge>, stripe: Stripe.Account)
    ensures var c, session := |charges|, |stripe.sessions|;
            Apply(OneGuest(unique, PendingApproval, charges, [], map[], stripe), DoApprove(0, Stripe.Opened(atOnce)))
            == OneGuest(unique, Approved, charges + [Charge(0, Initial, 1000, Sent, Some(session), if atOnce then Some(session) else None, 0)],
                        [BookingApproved(0, c)], map[], Stripe.OpenSession(stripe, c, 1000))
  {
    var w := OneGuest(unique, PendingApproval, charges, [], map[], stripe);
    SameNightNoConflict(w);
    assert CanEnqueue(unique, w.outbox, BookingApproved(0, |charges|));
    assert WithStatus(w.bookings, 0, Approved) == [Stay(Approved)];
    assert w.outbox + [BookingApproved(0, |charges|)] == [InquiryNew(0), InquiryAcknowledged(0)] + [BookingApproved(0, |charges|)];
    hide HasRealConflict, CanEnqueue, WithStatus, Stripe.OpenSession;
  }

  lemma ApproveStay(unique: bool, atOnce: bool)
    ensures Apply(OneGuest(unique, PendingApproval, [], [], map[], Stripe.Account([], [])), DoApprove(0, Stripe.Opened(atOnce)))
            == OneGuest(unique, Approved, [SentCharge(if atOnce then Some(0) else None)], [BookingApproved(0, 0)], map[],
                        Stripe.Account([Stripe.Session(0, 1000, false, 0)], []))
  {
    ApproveOneGuest(unique, atOnce, [], Stripe.Account([], []));
    hide Apply;
    var charge := SentCharge(if atOnce then Some(0) else None);
    assert [] + [charge] == [charge];
  }

  function ApprovedRun(atOnce: bool): seq<Op> {
    Requested() + [DoApprove(0, Stripe.Opened(atOnce))] + [GuestPays(0, true)]
  }

  const PAID := Stripe.CheckoutCompleted(0, Some(0))

  lemma PayStay(unique: bool, pi: Option<nat>)
    ensures Apply(OneGuest(unique, Approved, [SentCharge(pi)], [BookingApproved(0, 0)], map[],
                           Stripe.Account([Stripe.Session(0, 1000, false, 0)], [])), GuestPays(0, true))
            == OneGuest(unique, Approved, [SentCharge(pi)], [BookingApproved(0, 0)], map[],
                        Stripe.Account([Stripe.Session(0, 1000, true, 0)], [PAID]))
  {
  }

  /** Approved, and paid at Stripe; the event is still to come. */
  lemma AfterPayment(unique: bool, atOnce: bool)
    ensures Run(Empty(unique), ApprovedRun(atOnce))
            == OneGuest(unique, Approved, [SentCharge(if atOnce then Some(0) else None)], [BookingApproved(0, 0)], map[],
                        Stripe.Account([Stripe.Session(0, 1000, true, 0)], [PAID]))
  {
    AfterRequest(unique);
    RunOneMore(Empty(unique), Requested(), DoApprove(0, Stripe.Opened(atOnce)));
    RunOneMore(Empty(unique), Requested() + [DoApprove(0, Stripe.Opened(atOnce))], GuestPays(0, true));
    hide Run, Apply, OneGuest;
    ApproveStay(unique, atOnce);
    PayStay(unique, if atOnce then Some(0) else None);
  }

  // ---- paid and confirmed ----

  function PaidRun(): seq<Op> {
    ApprovedRun(true) + [Deliver(0)]
  }

  const ANNOUNCED := [BookingApproved(0, 0)] + [BookingConfirmed(0, 0), RebuildConfirmed(0)]

  function PaidStay(unique: bool): World {
    OneGuest(unique, Confirmed, [Charge(0, Initial, 1000, Succeeded, Some(0), Some(0), 0)], ANNOUNCED, map[0 := true],
             Stripe.Account([Stripe.Session(0, 1000, true, 0)], [PAID]))
  }

  lemma DeliverPayment(unique: bool, pi: Option<nat>, refunded: int, events: seq<Stripe.Event>, outbox: seq<OutboxRow>, seen: map<nat, bool>)
    requires events != [] && events[0] == PAID && 0 !in seen
    requires forall r :: r in outbox ==> !r.BookingConfirmed? && !r.RebuildConfirmed?
    ensures Apply(OneGuest(unique, Approved, [SentCharge(pi)], outbox, seen, Stripe.Account([Stripe.Session(0, 1000, true, refunded)], events)), Deliver(0))
            == OneGuest(unique, Confirmed, [Charge(0, Initial, 1000, Succeeded, Some(0), Some(0), 0)],
                        outbox + [BookingConfirmed(0, 0), RebuildConfirmed(0)], seen[0 := true],
                        Stripe.Account([Stripe.Session(0, 1000, true, refunded)], events))
  {
    var w := OneGuest(unique, Approved, [SentCharge(pi)], outbox, seen, Stripe.Account([Stripe.Session(0, 1000, true, refunded)], events));
    assert FindBySession(w.charges, 0) == Some(0);
    var recorded := w.(webhookEvents := w.webhookEvents[0 := false]);
    var handled := HandleCheckoutSucceeded(recorded, 0, Some(0));
    assert handled.1.Success?;
    assert handled.0.bookings == [Stay(Confirmed)];
    assert handled.0.outbox == [InquiryNew(0), InquiryAcknowledged(0)] + (outbox + [BookingConfirmed(0, 0), RebuildConfirmed(0)]);
    assert seen[0 := false][0 := true] == seen[0 := true];
  }

  lemma AfterPaid(unique: bool)
    ensures Run(Empty(unique), PaidRun()) == PaidStay(unique)
  {
    AfterPayment(unique, true);
    RunOneMore(Empty(unique), ApprovedRun(true), Deliver(0));
    DeliverPayment(unique, Some(0), 0, [PAID], [BookingApproved(0, 0)], map[]);
    hide Run, Receive;
  }

  // ---- a refund event that overtakes the payment's ----

  function OvertakenRun(cents: int): seq<Op> {
    ApprovedRun(false) + [RefundOutside(0, cents)] + [Deliver(1)] + [Deliver(0)]
  }

  lemma DeliverUnmatched(unique: bool, cents: int)
    requires 0 < cents <= 1000
    ensures var events := [PAID, Stripe.ChargeRefunded(Some(0), Some(cents), cents == 1000)];
            var account := Stripe.Account([Stripe.Session(0, 1000, true, cents)], events);
            Apply(OneGuest(unique, Approved, [SentCharge(None)], [BookingApproved(0, 0)], map[], account), Deliver(1))
            == OneGuest(unique, Approved, [SentCharge(None)], [BookingApproved(0, 0)] + [RefundedExternally(None, 1, cents)], map[1 := true], account)
  {
    var events := [PAID, Stripe.ChargeRefunded(Some(0), Some(cents), cents == 1000)];
    var account := Stripe.Account([Stripe.Session(0, 1000, true, cents)], events);
    var w := OneGuest(unique, Approved, [SentCharge(None)], [BookingApproved(0, 0)], map[], account);
    assert FindByPaymentIntent(w.charges, Some(0)) == None;
    assert w.webhookEvents[1 := false][1 := true] == map[1 := true];
    assert w.outbox + [RefundedExternally(None, 1, cents)]
        == [InquiryNew(0), InquiryAcknowledged(0)] + ([BookingApproved(0, 0)] + [RefundedExternally(None, 1, cents)]);
  }

  lemma RefundInDashboard(unique: bool, cents: int)
    requires 0 < cents <= 1000
    ensures Apply(OneGuest(unique, Approved, [SentCharge(None)], [BookingApproved(0, 0)], map[],
                           Stripe.Account([Stripe.Session(0, 1000, true, 0)], [PAID])), RefundOutside(0, cents))
            == OneGuest(unique, Approved, [SentCharge(None)], [BookingApproved(0, 0)], map[],
                        Stripe.Account([Stripe.Session(0, 1000, true, cents)], [PAID, Stripe.ChargeRefunded(Some(0), Some(cents), cents == 1000)]))
  {
    assert [PAID] + [Stripe.ChargeRefunded(Some(0), Some(cents), cents == 1000)] == [PAID, Stripe.ChargeRefunded(Some(0), Some(cents), cents == 1000)];
  }

  function OvertakenState(unique: bool, cents: int): World {
    OneGuest(unique, Confirmed, [Charge(0, Initial, 1000, Succeeded, Some(0), Some(0), 0)],
             [BookingApproved(0, 0)] + [RefundedExternally(None, 1, cents)] + [BookingConfirmed(0, 0), RebuildConfirmed(0)],
             map[1 := true][0 := true],
             Stripe.Account([Stripe.Session(0, 1000, true, cents)], [PAID, Stripe.ChargeRefunded(Some(0), Some(cents), cents == 1000)]))
  }

  lemma AfterOvertaken(unique: bool, cents: int)
    requires 0 < cents <= 1000
    ensures Run(Empty(unique), OvertakenRun(cents)) == OvertakenState(unique, cents)
  {
    hide Run, Apply, OneGuest;
    AfterPayment(unique, false);
    RunOneMore(Empty(unique), ApprovedRun(false), RefundOutside(0, cents));
    RunOneMore(Empty(unique), ApprovedRun(false) + [RefundOutside(0, cents)], Deliver(1));
    RunOneMore(Empty(unique), ApprovedRun(false) + [RefundOutside(0, cents)] + [Deliver(1)], Deliver(0));
    RefundInDashboard(unique, cents);
    DeliverUnmatched(unique, cents);
    DeliverPayment(unique, None, cents, [PAID, Stripe.ChargeRefunded(Some(0), Some(cents), cents == 1000)],
                   [BookingApproved(0, 0)] + [RefundedExternally(None, 1, cents)], map[1 := true]);
  }

  // ---- two requests for the same night ----

  function TwinsRequested(): seq<Op> {
    TwoInquiries() + [DoConvert(0)] + [DoConvert(1)]
  }

  function TwinsRun(): seq<Op> {
    TwinsRequested() + [DoApprove(0, Stripe.Opened(true))] + [DoApprove(1, Stripe.Opened(true))]
  }

  lemma ConvertBoth(w: World)
    requires w.property == PRICES && w.jurisdictions == TAXES && w.bookings == []
    requires w.inquiries == [Inquiry("g", 0, 1, New, None), Inquiry("g", 0, 1, New, None)]
    ensures var w' := Apply(Apply(w, DoConvert(0)), DoConvert(1));
            && w'.bookings == [Stay(PendingApproval), Stay(PendingApproval)]
            && w' == w.(bookings := w'.bookings, inquiries := w'.inquiries)
  {
    OneNight();
    hide Pricing.GetQuote;
    assert Apply(w, DoConvert(0)).bookings == [Stay(PendingApproval)];
  }

  function TwoInquiries(): seq<Op> {
    [] + [SetPrices(PRICES, TAXES)] + [DoCreateInquiry("g", 0, 1)] + [DoCreateInquiry("g", 0, 1)]
  }

  function TwoInquiriesState(unique: bool): World {
    Empty(unique).(
      property := PRICES, jurisdictions := TAXES,
      inquiries := [Inquiry("g", 0, 1, New, None), Inquiry("g", 0, 1, New, None)],
      outbox := [InquiryNew(0), InquiryAcknowledged(0), InquiryNew(1), InquiryAcknowledged(1)])
  }

  lemma AfterTwoInquiries(unique: bool)
    ensures Run(Empty(unique), TwoInquiries()) == TwoInquiriesState(unique)
  {
    var w0 := Empty(unique);
    RunOneMore(w0, [], SetPrices(PRICES, TAXES));
    RunOneMore(w0, [] + [SetPrices(PRICES, TAXES)], DoCreateInquiry("g", 0, 1));
    RunOneMore(w0, [] + [SetPrices(PRICES, TAXES)] + [DoCreateInquiry("g", 0, 1)], DoCreateInquiry("g", 0, 1));
    assert Run(w0, []) == w0;
    hide Run;
    InquireOnce(unique);
    InquireAgain(unique);
  }

  lemma InquireAgain(unique: bool)
    ensures Apply(OneInquiry(unique), DoCreateInquiry("g", 0, 1)) == TwoInquiriesState(unique)
  {
    var w := Apply(OneInquiry(unique), DoCreateInquiry("g", 0, 1));
    assert w.inquiries == TwoInquiriesState(unique).inquiries && w.outbox == TwoInquiriesState(unique).outbox;
  }

  lemma AfterTwins(unique: bool)
    ensures var w := Run(Empty(unique), TwinsRequested());
            && w.bookings == [Stay(PendingApproval), Stay(PendingApproval)] && w.blocks == [] && w.charges == []
            && w.uniqueKeys == unique && forall r :: r in w.outbox ==> r.InquiryNew? || r.InquiryAcknowledged?
  {
    AfterTwoInquiries(unique);
    RunOneMore(Empty(unique), TwoInquiries(), DoConvert(0));
    RunOneMore(Empty(unique), TwoInquiries() + [DoConvert(0)], DoConvert(1));
    hide Run, Apply;
    ConvertBoth(TwoInquiriesState(unique));
  }

  lemma ApproveTwin(w: World, id: nat)
    requires id < |w.bookings| && w.bookings[id] == Stay(PendingApproval) && w.blocks == [] && |w.charges| == id
    requires forall b :: 0 <= b < |w.bookings| ==> w.bookings[b].checkIn == 0 && w.bookings[b].checkOut == 1
    requires forall r :: r in w.outbox ==> KeyOf(r) != KeyOf(BookingApproved(id, id))
    ensures var w' := Apply(w, DoApprove(id, Stripe.Opened(true)));
            && w'.bookings == w.bookings[id := Stay(Approved)] && w'.blocks == [] && |w'.charges| == id + 1
            && w'.outbox == w.outbox + [BookingApproved(id, id)]
  {
    SameNightNoConflict(w);
    assert CanEnqueue(w.uniqueKeys, w.outbox, BookingApproved(id, id));
    hide HasRealConflict, CanEnqueue;
  }

  lemma AfterTwinsApproved(unique: bool)
    ensures Run(Empty(unique), TwinsRun()).bookings == [Stay(Approved), Stay(Approved)]
  {
    AfterTwins(unique);
    RunOneMore(Empty(unique), TwinsRequested(), DoApprove(0, Stripe.Opened(true)));
    RunOneMore(Empty(unique), TwinsRequested() + [DoApprove(0, Stripe.Opened(true))], DoApprove(1, Stripe.Opened(true)));
    hide Run, TwinsRequested;
    ApproveTwins(Run(Empty(unique), TwinsRequested()));
  }

  lemma ApproveTwins(w: World)
    requires w.bookings == [Stay(PendingApproval), Stay(PendingApproval)] && w.blocks == [] && w.charges == []
    requires forall r :: r in w.outbox ==> r.InquiryNew? || r.InquiryAcknowledged?
    ensures Apply(Apply(w, DoApprove(0, Stripe.Opened(true))), DoApprove(1, Stripe.Opened(true))).bookings == [Stay(Approved), Stay(Approved)]
  {
    hide Apply;
    ApproveTwin(w, 0);
    ApproveTwin(Apply(w, DoApprove(0, Stripe.Opened(true))), 1);
  }

  // ---- an approval that dies and is repeated ----

  function CrashRun(): seq<Op> {
    Requested() + [CrashInApprove(0, true)] + [DoApprove(0, Stripe.Opened(true))]
  }

  const CRASHED := [Charge(0, Initial, 1000, Pending, None, None, 0)]

  lemma CrashStay(unique: bool)
    ensures Apply(OneGuest(unique, PendingApproval, [], [], map[], Stripe.Account([], [])), CrashInApprove(0, true))
            == OneGuest(unique, PendingApproval, CRASHED, [], map[], Stripe.Account([Stripe.Session(0, 1000, false, 0)], []))
  {
    assert !HasRealConflict(OneGuest(unique, PendingApproval, [], [], map[], Stripe.Account([], [])), 0, 1, 0, 1);
  }

  lemma AfterCrash(unique: bool)
    ensures var w := Run(Empty(unique), CrashRun());
            && w.charges == [Charge(0, Initial, 1000, Pending, None, None, 0), Charge(0, Initial, 1000, Sent, Some(1), Some(1), 0)]
            && w.bookings == [Stay(Approved)]
  {
    AfterRequest(unique);
    RunOneMore(Empty(unique), Requested(), CrashInApprove(0, true));
    RunOneMore(Empty(unique), Requested() + [CrashInApprove(0, true)], DoApprove(0, Stripe.Opened(true)));
    hide Run, Apply;
    CrashStay(unique);
    ApproveOneGuest(unique, true, CRASHED, Stripe.Account([Stripe.Session(0, 1000, false, 0)], []));
  }

  // ---- two date changes in one millisecond ----

  function TwoChangesRun(timestamp: int): seq<Op> {
    Requested() + [DoModifyDates(0, 0, 1, timestamp)] + [DoModifyDates(0, 0, 1, timestamp)]
  }

  lemma ChangeNothing(outbox: seq<OutboxRow>, timestamp: int)
    ensures Apply(OneGuest(false, PendingApproval, [], outbox, map[], Stripe.Account([], [])), DoModifyDates(0, 0, 1, timestamp))
            == OneGuest(false, PendingApproval, [], outbox + [DatesModified(0, timestamp, 0, None)], map[], Stripe.Account([], []))
  {
    var w := OneGuest(false, PendingApproval, [], outbox, map[], Stripe.Account([], []));
    SameNightNoConflict(w);
    OneNight();
    hide HasRealConflict, Pricing.GetQuote;
    var q := Pricing.Quote(1000, 1, 1000, 0, 0, 0, 1000);
    assert w.bookings[0 := Requoted(w.bookings[0], 0, 1, q)] == [Stay(PendingApproval)];
    assert w.outbox + [DatesModified(0, timestamp, 0, None)]
        == [InquiryNew(0), InquiryAcknowledged(0)] + (outbox + [DatesModified(0, timestamp, 0, None)]);
  }

  lemma AfterTwoChanges(timestamp: int)
    ensures Run(Empty(false), TwoChangesRun(timestamp)).outbox
            == [InquiryNew(0), InquiryAcknowledged(0)] + ([] + [DatesModified(0, timestamp, 0, None)] + [DatesModified(0, timestamp, 0, None)])
  {
    AfterRequest(false);
    RunOneMore(Empty(false), Requested(), DoModifyDates(0, 0, 1, timestamp));
    RunOneMore(Empty(false), Requested() + [DoModifyDates(0, 0, 1, timestamp)], DoModifyDates(0, 0, 1, timestamp));
    hide Run, Apply;
    ChangeNothing([], timestamp);
    ChangeNothing([] + [DatesModified(0, timestamp, 0, None)], timestamp);
  }

  // ---- a cancellation whose refund Stripe refuses ----

  const FULL_REFUND := [CancellationPolicy.Tier(0, 100)]
  const REFUNDING := Some(Pricing.Property(1000, 0, 1, Some(FULL_REFUND)))

  /** Paid, paid back in the dashboard without its event having come, then cancelled. */
  function RefusedRun(now: int): seq<Op> {
    PaidRun() + [RefundOutside(0, 1000)] + [SetPrices(REFUNDING, TAXES)] + [DoCancel(0, now)]
  }

  function PaidBack(unique: bool): World {
    OneGuest(unique, Confirmed, [Charge(0, Initial, 1000, Succeeded, Some(0), Some(0), 0)], ANNOUNCED, map[0 := true],
             Stripe.Account([Stripe.Session(0, 1000, true, 1000)], [PAID, Stripe.ChargeRefunded(Some(0), Some(1000), true)]))
  }

  lemma PayBack(unique: bool)
    ensures Apply(PaidStay(unique), RefundOutside(0, 1000)) == PaidBack(unique)
  {
    assert [PAID] + [Stripe.ChargeRefunded(Some(0), Some(1000), true)] == [PAID, Stripe.ChargeRefunded(Some(0), Some(1000), true)];
  }

  lemma RefuseRefund(w: World, now: int)
    requires w.property.Some? && w.property.value.tiers == Some(FULL_REFUND)
    requires w.bookings == [Stay(Confirmed)] && w.charges == [Charge(0, Initial, 1000, Succeeded, Some(0), Some(0), 0)]
    requires w.stripe.sessions == [Stripe.Session(0, 1000, true, 1000)]
    ensures var (w', r) := Cancel(w, 0, now);
            && r == Failure(StripeError) && w'.outbox == w.outbox && w'.stripe == w.stripe
            && |w'.bookings| == 1 && w'.bookings[0].status == Cancelled && w'.bookings[0].refundAmount == None
  {
    var tier := FULL_REFUND[0];
    assert CancellationPolicy.ResolveCancellation(FULL_REFUND, 0, now) == Success(tier);
    assert FindInitial(w.charges, 0) == Some(0);
    CancellationPolicy.RefundAsIntegers(1000, 0, 100);
    hide CancellationPolicy.ResolveCancellation, CancellationPolicy.CalculateRefundCents, FindInitial;
    var t := CancelTicket(0, tier, Some(0), Some(w.charges[0]));
    assert CancelRead(w, 0, now) == Success(t);
    assert CancelRefundCents(t) == 1000;
    hide CancelRead, CancelRefundCents, CancelCommit;
  }

  function Refunding(unique: bool): World {
    PaidBack(unique).(property := REFUNDING)
  }

  lemma CancelRefused(unique: bool, now: int)
    ensures var w := Apply(Refunding(unique), DoCancel(0, now));
            && |w.bookings| == 1 && w.bookings[0].status == Cancelled && w.bookings[0].refundAmount == None
            && w.outbox == PaidBack(unique).outbox && w.stripe == PaidBack(unique).stripe
  {
    RefuseRefund(Refunding(unique), now);
    hide Cancel;
  }

  lemma SetRefunding(unique: bool)
    ensures Apply(PaidBack(unique), SetPrices(REFUNDING, TAXES)) == Refunding(unique)
  {
  }

  lemma AfterRefused(unique: bool, now: int)
    ensures var w := Run(Empty(unique), RefusedRun(now));
            && |w.bookings| == 1 && w.bookings[0].status == Cancelled && w.bookings[0].refundAmount == None
            && w.outbox == PaidBack(unique).outbox && w.stripe == PaidBack(unique).stripe
  {
    hide Run, Apply, PaidRun, PaidStay, PaidBack, Refunding;
    AfterPaid(unique);
    RunOneMore(Empty(unique), PaidRun(), RefundOutside(0, 1000));
    RunOneMore(Empty(unique), PaidRun() + [RefundOutside(0, 1000)], SetPrices(REFUNDING, TAXES));
    RunOneMore(Empty(unique), PaidRun() + [RefundOutside(0, 1000)] + [SetPrices(REFUNDING, TAXES)], DoCancel(0, now));
    PayBack(unique);
    SetRefunding(unique);
    CancelRefused(unique, now);
  }
}
