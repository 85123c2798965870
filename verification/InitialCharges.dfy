/**
 How many initial charges a booking has: one if it was approved, and one for every approval that a
 crash cut short.
 */
module InitialCharges {
  import opened Wrappers
  import opened Schema
  import opened Operations
  import Ledger
  import Money
  import Structure
  import Pricing
  import Scenarios

  function InitialCount(charges: seq<Charge>, b: nat): nat {
    if charges == [] then 0
    else
      var last := charges[|charges| - 1];
      InitialCount(charges[..|charges| - 1], b) + Bit(last.kind == Initial && last.bookingId == b)
  }

  function SentCount(charges: seq<Charge>, b: nat): nat {
    if charges == [] then 0
    else
      var last := charges[|charges| - 1];
      SentCount(charges[..|charges| - 1], b) + Bit(Structure.SentInitial(last) && last.bookingId == b)
  }

  /** The approval got past its checks and died. */
  predicate CutShort(w: World, op: Op, b: nat) {
    op.CrashInApprove? && op.booking == b && Apply(w, op) != w
  }

  predicate Approves(w: World, op: Op, b: nat) {
    op.DoApprove? && op.booking == b && Approve(w, b, op.reply).1.Success?
  }

  function CutShortCount(w: World, ops: seq<Op>, b: nat): nat
    decreases |ops|
  {
    if ops == [] then 0 else Bit(CutShort(w, ops[0], b)) + CutShortCount(Apply(w, ops[0]), ops[1..], b)
  }

  function ApprovedCount(w: World, ops: seq<Op>, b: nat): nat
    decreases |ops|
  {
    if ops == [] then 0 else Bit(Approves(w, ops[0], b)) + ApprovedCount(Apply(w, ops[0]), ops[1..], b)
  }

  // ---- steps ----

  ghost predicate SameRows(a: seq<Charge>, b: seq<Charge>) {
    && |a| == |b|
    && (forall c :: 0 <= c < |a| ==>
          b[c].kind == a[c].kind && b[c].bookingId == a[c].bookingId && (Structure.Orphan(b[c]) <==> Structure.Orphan(a[c])))
  }

  lemma {:induction false} SameRowsCount(a: seq<Charge>, b: seq<Charge>, booking: nat)
    requires SameRows(a, b)
    ensures InitialCount(b, booking) == InitialCount(a, booking) && SentCount(b, booking) == SentCount(a, booking)
    decreases |a|
  {
    if a != [] {
      SameRowsCount(a[..|a| - 1], b[..|b| - 1], booking);
    }
  }

  lemma OneMoreCounts(a: seq<Charge>, charge: Charge, b: nat)
    ensures InitialCount(a + [charge], b) == InitialCount(a, b) + Bit(charge.kind == Initial && charge.bookingId == b)
    ensures SentCount(a + [charge], b) == SentCount(a, b) + Bit(Structure.SentInitial(charge) && charge.bookingId == b)
  {
    assert (a + [charge])[..|a|] == a;
  }

  lemma MovesAreSameRows(a: seq<Charge>, b: seq<Charge>)
    requires Structure.ChargesMove(a, b)
    ensures SameRows(a, b)
  {
  }

  lemma CheckoutIsSameRows(w: World, session: nat, pi: Option<nat>)
    requires Structure.OrphansUnlinked(w.charges)
    ensures SameRows(w.charges, HandleCheckoutSucceeded(w, session, pi).0.charges)
  {
  }

  lemma DeliveryIsSameRows(w: World, event: nat)
    requires Ledger.Ledger(w) && Structure.RefundedMeansAll(w.charges) && Structure.OrphansUnlinked(w.charges)
    ensures SameRows(w.charges, Receive(w, event).0.charges) && SameRows(w.charges, DieInReceive(w, event).charges)
  {
    if event < |w.stripe.events| && event !in w.webhookEvents {
      var recorded := w.(webhookEvents := w.webhookEvents[event := false]);
      Ledger.EventRowAdded(w, event, recorded);
      var e := w.stripe.events[event];
      if e.CheckoutCompleted? {
        CheckoutIsSameRows(recorded, e.session, e.paymentIntent);
      } else {
        Structure.HandleMoves(recorded, event);
        MovesAreSameRows(w.charges, Handle(recorded, event, e).0.charges);
      }
    }
  }

  /** The one row that these four operations may write. */
  lemma NewRow(w: World, op: Op)
    requires Structure.Sound(w)
    requires op.DoApprove? || op.DoAdHocCharge? || op.CrashInApprove? || op.CrashInAdHocCharge?
    ensures var charges := Apply(w, op).charges;
            && (charges == w.charges || charges == w.charges + [charges[|w.charges|]])
            && (charges == w.charges ==> !Approves(w, op, op.booking) && !CutShort(w, op, op.booking))
            && (charges != w.charges ==>
                  var row := charges[|w.charges|];
                  && row.bookingId == op.booking
                  && (row.kind == Initial <==> op.DoApprove? || op.CrashInApprove?)
                  && (Structure.Orphan(row) <==> op.CrashInApprove? || op.CrashInAdHocCharge?)
                  && (op.DoApprove? ==> Approves(w, op, op.booking)) && (op.CrashInApprove? ==> CutShort(w, op, op.booking)))
  {
    if op.DoApprove? || op.DoAdHocCharge? {
      Structure.ChargeKeysFresh(w, op.booking, |w.charges|);
    }
    hide HasRealConflict, CanEnqueue, Structure.Sound, Money.ToColumn;
  }

  lemma NewRowsCount(w: World, op: Op, b: nat)
    requires Structure.Sound(w)
    requires op.DoApprove? || op.DoAdHocCharge? || op.CrashInApprove? || op.CrashInAdHocCharge?
    ensures var charges := Apply(w, op).charges;
            && InitialCount(charges, b) == InitialCount(w.charges, b) + Bit(CutShort(w, op, b)) + Bit(Approves(w, op, b))
            && SentCount(charges, b) == SentCount(w.charges, b) + Bit(Approves(w, op, b))
  {
    NewRow(w, op);
    var charges := Apply(w, op).charges;
    if charges != w.charges {
      OneMoreCounts(w.charges, charges[|w.charges|], b);
    }
    hide Apply, Approve, Structure.Sound, InitialCount, SentCount;
  }

  lemma ServiceOthersAreSameRows(w: World, op: Op)
    requires !op.DoApprove? && !op.DoAdHocCharge? && !op.CrashInApprove? && !op.CrashInAdHocCharge?
    requires !op.DoCancel? && !op.DoModifyDates? && !op.DoRefund? && !op.Deliver? && !op.CrashInDelivery?
    requires !ByEnvironment(op)
    ensures SameRows(w.charges, Apply(w, op).charges)
  {
    hide CanEnqueue, Pricing.GetQuote;
  }

  lemma OthersAreSameRows(w: World, op: Op)
    requires !op.DoApprove? && !op.DoAdHocCharge? && !op.CrashInApprove? && !op.CrashInAdHocCharge?
    requires !op.DoCancel? && !op.DoModifyDates? && !op.DoRefund? && !op.Deliver? && !op.CrashInDelivery?
    ensures SameRows(w.charges, Apply(w, op).charges)
  {
    hide Apply;
    if ByEnvironment(op) { EnvironmentLeaves(w, op); } else { ServiceOthersAreSameRows(w, op); }
  }

  lemma StepCounts(w: World, op: Op, b: nat)
    requires Ledger.Ledger(w) && Structure.Sound(w)
    ensures var charges := Apply(w, op).charges;
            && InitialCount(charges, b) == InitialCount(w.charges, b) + Bit(CutShort(w, op, b)) + Bit(Approves(w, op, b))
            && SentCount(charges, b) == SentCount(w.charges, b) + Bit(Approves(w, op, b))
  {
    if op.DoApprove? || op.DoAdHocCharge? || op.CrashInApprove? || op.CrashInAdHocCharge? {
      NewRowsCount(w, op, b);
    } else {
      StepIsSameRows(w, op);
      SameRowsCount(w.charges, Apply(w, op).charges, b);
    }
  }

  lemma StepIsSameRows(w: World, op: Op)
    requires Ledger.Ledger(w) && Structure.Sound(w)
    requires !op.DoApprove? && !op.DoAdHocCharge? && !op.CrashInApprove? && !op.CrashInAdHocCharge?
    ensures SameRows(w.charges, Apply(w, op).charges)
  {
    assert Structure.RefundedMeansAll(w.charges) && Structure.OrphansUnlinked(w.charges);
    hide Structure.Sound, Ledger.Ledger, SameRows;
    hide CreateInquiry, TransitionInquiry, ConvertInquiry, Approve, DieInApprove, Decline, Cancel, DieInCancel;
    hide ModifyDates, CreateAdHocCharge, DieInAdHocCharge, RefundCharge, Receive, DieInReceive;
    match op
    case DoCancel(id, now) => Structure.CancelMoves(w, id, now); MovesAreSameRows(w.charges, Apply(w, op).charges);
    case DoModifyDates(id, i, o, ts) => Structure.ModifyDatesMoves(w, id, i, o, ts); MovesAreSameRows(w.charges, Apply(w, op).charges);
    case DoRefund(c, dollars) => Structure.RefundChargeMoves(w, c, dollars); MovesAreSameRows(w.charges, Apply(w, op).charges);
    case Deliver(e) => DeliveryIsSameRows(w, e);
    case CrashInDelivery(e) => DeliveryIsSameRows(w, e);
    case _ => OthersAreSameRows(w, op);
  }

  // ---- runs ----

  lemma {:induction false} RunCounts(w: World, ops: seq<Op>, b: nat)
    requires Ledger.Ledger(w) && Structure.Sound(w) && Structure.AllThroughApi(ops)
    ensures var charges := Run(w, ops).charges;
            && InitialCount(charges, b) == InitialCount(w.charges, b) + CutShortCount(w, ops, b) + ApprovedCount(w, ops, b)
            && SentCount(charges, b) == SentCount(w.charges, b) + ApprovedCount(w, ops, b)
    decreases |ops|
  {
    if ops != [] {
      StepCounts(w, ops[0], b);
      Ledger.StepKeepsLedger(w, ops[0]);
      Structure.StepKeepsSound(w, ops[0]);
      RunCounts(Apply(w, ops[0]), ops[1..], b);
    }
  }

  lemma {:induction false} AtMostOneSent(charges: seq<Charge>, b: nat)
    requires forall c, d :: 0 <= c < d < |charges| && Structure.SentInitial(charges[c]) && Structure.SentInitial(charges[d]) ==>
                              charges[c].bookingId != charges[d].bookingId
    ensures SentCount(charges, b) <= 1
    ensures SentCount(charges, b) == 1 ==> exists c :: 0 <= c < |charges| && Structure.SentInitial(charges[c]) && charges[c].bookingId == b
    decreases |charges|
  {
    if charges != [] {
      AtMostOneSent(charges[..|charges| - 1], b);
    }
  }

  /** In every run a booking is approved at most once, and its initial charges are its cut-short
      approvals and the approved one: two exist exactly when there are more than one of these. */
  lemma InitialChargesCounted(unique: bool, ops: seq<Op>, b: nat)
    requires Structure.AllThroughApi(ops)
    ensures var cut, approved := CutShortCount(Empty(unique), ops, b), ApprovedCount(Empty(unique), ops, b);
            && approved <= 1
            && InitialCount(Run(Empty(unique), ops).charges, b) == cut + approved
            && (InitialCount(Run(Empty(unique), ops).charges, b) >= 2 <==> cut + approved > 1)
  {
    assert Structure.Sound(Empty(unique)) && Ledger.Ledger(Empty(unique));
    RunCounts(Empty(unique), ops, b);
    Structure.ReachableIsSound(unique, ops);
    AtMostOneSent(Run(Empty(unique), ops).charges, b);
  }

  // ---- without crashes ----

  predicate Crashes(op: Op) {
    op.CrashInApprove? || op.CrashInAdHocCharge?
  }

  ghost predicate NoOrphans(charges: seq<Charge>) {
    forall c :: 0 <= c < |charges| ==> !Structure.Orphan(charges[c])
  }

  lemma StepLeavesNoOrphans(w: World, op: Op)
    requires Ledger.Ledger(w) && Structure.Sound(w) && NoOrphans(w.charges) && !Crashes(op)
    ensures NoOrphans(Apply(w, op).charges)
  {
    if op.DoApprove? || op.DoAdHocCharge? {
      Structure.ChargeKeysFresh(w, op.booking, |w.charges|);
    } else {
      StepIsSameRows(w, op);
      hide Apply;
    }
  }

  lemma {:induction false} RunLeavesNoOrphans(w: World, ops: seq<Op>)
    requires Ledger.Ledger(w) && Structure.Sound(w) && Structure.AllThroughApi(ops) && NoOrphans(w.charges)
    requires forall k :: 0 <= k < |ops| ==> !Crashes(ops[k])
    ensures NoOrphans(Run(w, ops).charges)
    decreases |ops|
  {
    if ops != [] {
      StepLeavesNoOrphans(w, ops[0]);
      Ledger.StepKeepsLedger(w, ops[0]);
      Structure.StepKeepsSound(w, ops[0]);
      RunLeavesNoOrphans(Apply(w, ops[0]), ops[1..]);
    }
  }

  /** Without such crashes no charge is ever left pending, so no booking has two initial charges. */
  lemma NoCrashNoOrphan(unique: bool, ops: seq<Op>, c: nat, d: nat)
    requires Structure.AllThroughApi(ops) && forall k :: 0 <= k < |ops| ==> !Crashes(ops[k])
    requires c < d < |Run(Empty(unique), ops).charges|
    ensures var charges := Run(Empty(unique), ops).charges;
            && charges[c].status != Pending
            && (charges[c].kind == Initial && charges[d].kind == Initial ==> charges[c].bookingId != charges[d].bookingId)
  {
    assert Structure.Sound(Empty(unique)) && Ledger.Ledger(Empty(unique));
    RunLeavesNoOrphans(Empty(unique), ops);
    Structure.ReachableIsSound(unique, ops);
    assert Structure.SentInitial(Run(Empty(unique), ops).charges[c]) || Run(Empty(unique), ops).charges[c].kind != Initial;
    assert Structure.SentInitial(Run(Empty(unique), ops).charges[d]) || Run(Empty(unique), ops).charges[d].kind != Initial;
  }

  /** A run that leaves a booking with two initial charges. */
  lemma CrashedApprovalCountsTwice(unique: bool)
    ensures Structure.AllThroughApi(Scenarios.CrashRun())
    ensures InitialCount(Run(Empty(unique), Scenarios.CrashRun()).charges, 0) == 2
  {
    Scenarios.AfterCrash(unique);
    hide Run;
    var charges := Run(Empty(unique), Scenarios.CrashRun()).charges;
    assert charges == [] + [charges[0]] + [charges[1]];
    OneMoreCounts([], charges[0], 0);
    OneMoreCounts([] + [charges[0]], charges[1], 0);
  }
}
