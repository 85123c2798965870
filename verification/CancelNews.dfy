/**
 A cancellation claims its booking before the transaction that announces it. Over whole runs: how many
 of the claims of a booking the outbox announces, and which it passes over in silence.
 */
module CancelNews {
  import opened Wrappers
  import opened Schema
  import opened Operations
  import Announcements
  import Money

  /** Rows that announce a cancellation of the booking. */
  function AnnouncedCount(outbox: seq<OutboxRow>, b: nat): nat {
    if outbox == [] then 0
    else
      var last := outbox[|outbox| - 1];
      AnnouncedCount(outbox[..|outbox| - 1], b) + Bit(last.BookingCancelled? && last.booking == b)
  }

  /** The call gets past its checks and cancels the booking. */
  predicate Claims(w: World, op: Op, b: nat) {
    (op.DoCancel? || op.CrashInCancel?) && op.booking == b && CancelRead(w, b, op.now).Success?
  }

  /** The call claims the booking, and then dies, or asks Stripe for more than is left, or finds its key
      taken by an earlier cancellation. */
  ghost predicate Silent(w: World, op: Op, b: nat) {
    && Claims(w, op, b)
    && (|| op.CrashInCancel?
        || !Announcements.RefundCovered(w.stripe, CancelRead(w, b, op.now).value)
        || (w.uniqueKeys && Announcements.CancelledRow(b, w.outbox)))
  }

  function ClaimCount(w: World, ops: seq<Op>, b: nat): nat
    decreases |ops|
  {
    if ops == [] then 0 else Bit(Claims(w, ops[0], b)) + ClaimCount(Apply(w, ops[0]), ops[1..], b)
  }

  ghost function SilentCount(w: World, ops: seq<Op>, b: nat): nat
    decreases |ops|
  {
    if ops == [] then 0 else Bit(Silent(w, ops[0], b)) + SilentCount(Apply(w, ops[0]), ops[1..], b)
  }

  ghost predicate NeverSilent(w: World, ops: seq<Op>, b: nat)
    decreases |ops|
  {
    ops != [] ==> !Silent(w, ops[0], b) && NeverSilent(Apply(w, ops[0]), ops[1..], b)
  }

  // ---- steps ----

  lemma {:induction false} OtherRowsDoNotCount(outbox: seq<OutboxRow>, news: seq<OutboxRow>, b: nat)
    requires forall k :: 0 <= k < |news| ==> !news[k].BookingCancelled?
    ensures AnnouncedCount(outbox + news, b) == AnnouncedCount(outbox, b)
    decreases |news|
  {
    if news == [] {
      assert outbox + news == outbox;
    } else {
      var shorter := news[..|news| - 1];
      OtherRowsDoNotCount(outbox, shorter, b);
      assert (outbox + news)[..|outbox + news| - 1] == outbox + shorter;
    }
  }

  lemma GrownOutbox(w: World, w': World, b: nat)
    requires w.outbox <= w'.outbox && forall k :: |w.outbox| <= k < |w'.outbox| ==> !w'.outbox[k].BookingCancelled?
    ensures AnnouncedCount(w'.outbox, b) == AnnouncedCount(w.outbox, b)
  {
    var news := w'.outbox[|w.outbox|..];
    assert w'.outbox == w.outbox + news;
    OtherRowsDoNotCount(w.outbox, news, b);
  }

  lemma CancellationRowsCount(outbox: seq<OutboxRow>, row: OutboxRow, b: nat)
    requires row.BookingCancelled?
    ensures AnnouncedCount(outbox + [row, RebuildCancelled(row.booking)], b) == AnnouncedCount(outbox, b) + Bit(row.booking == b)
  {
    var both := outbox + [row, RebuildCancelled(row.booking)];
    assert both[..|both| - 1] == outbox + [row] && (outbox + [row])[..|outbox|] == outbox;
  }

  /** Requests other than a cancellation. */
  lemma RequestAnnouncesNoCancel(w: World, op: Op)
    requires op.DoCreateInquiry? || op.DoApprove? || op.DoAdHocCharge? || op.DoDecline?
    ensures var w' := Apply(w, op);
            w.outbox <= w'.outbox && forall k :: |w.outbox| <= k < |w'.outbox| ==> !w'.outbox[k].BookingCancelled?
  {
    hide CanEnqueue, HasRealConflict, Money.ToColumn;
  }

  lemma NeutralAnnouncesNoCancel(w: World, w': World)
    requires Announcements.Neutral(w, w')
    ensures w.outbox <= w'.outbox && forall k :: |w.outbox| <= k < |w'.outbox| ==> !w'.outbox[k].BookingCancelled?
  {
  }

  lemma CancelCounts(w: World, id: nat, now: int, b: nat)
    requires Announcements.Announced(w)
    ensures AnnouncedCount(Cancel(w, id, now).0.outbox, b) + Bit(Silent(w, DoCancel(id, now), b))
            == AnnouncedCount(w.outbox, b) + Bit(Claims(w, DoCancel(id, now), b))
  {
    hide Announcements.Announced, AnnouncedCount;
    if CancelRead(w, id, now).Success? {
      Announcements.CancelAnnouncedIff(w, id, now);
      var t := CancelRead(w, id, now).value;
      CancellationRowsCount(w.outbox, BookingCancelled(id, t.tier, CancelRefundCents(t)), b);
      hide Cancel, CancelRead, CancelRefundCents, Announcements.RefundCovered, Announcements.CancelledRow;
    }
  }

  lemma CrashCounts(w: World, id: nat, now: int, b: nat)
    ensures DieInCancel(w, id, now).outbox == w.outbox
    ensures Silent(w, CrashInCancel(id, now), b) == Claims(w, CrashInCancel(id, now), b)
  {
    hide CancelRead;
  }

  lemma StepCounts(w: World, op: Op, b: nat)
    requires Announcements.Announced(w)
    ensures AnnouncedCount(Apply(w, op).outbox, b) + Bit(Silent(w, op, b)) == AnnouncedCount(w.outbox, b) + Bit(Claims(w, op, b))
  {
    hide Announcements.Announced, Announcements.Neutral, AnnouncedCount, Cancel, DieInCancel;
    match op
    case DoCancel(id, now) => CancelCounts(w, id, now, b);
    case CrashInCancel(id, now) => CrashCounts(w, id, now, b);
    case _ =>
      hide Apply;
      if op.DoCreateInquiry? || op.DoApprove? || op.DoAdHocCharge? || op.DoDecline? {
        RequestAnnouncesNoCancel(w, op);
      } else {
        Announcements.StepIsNeutral(w, op);
        NeutralAnnouncesNoCancel(w, Apply(w, op));
      }
      GrownOutbox(w, Apply(w, op), b);
  }

  // ---- runs ----

  lemma {:induction false} RunCounts(w: World, ops: seq<Op>, b: nat)
    requires Announcements.Announced(w)
    ensures AnnouncedCount(Run(w, ops).outbox, b) + SilentCount(w, ops, b) == AnnouncedCount(w.outbox, b) + ClaimCount(w, ops, b)
    decreases |ops|
  {
    hide Announcements.Announced, Apply, AnnouncedCount, Silent, Claims;
    if ops != [] {
      StepCounts(w, ops[0], b);
      Announcements.StepAnnounces(w, ops[0]);
      RunCounts(Apply(w, ops[0]), ops[1..], b);
    }
  }

  lemma {:induction false} NeverSilentIff(w: World, ops: seq<Op>, b: nat)
    ensures NeverSilent(w, ops, b) <==> SilentCount(w, ops, b) == 0
    decreases |ops|
  {
    hide Apply, Silent;
    if ops != [] {
      NeverSilentIff(Apply(w, ops[0]), ops[1..], b);
    }
  }

  /** In every run the announcements of a booking's cancellations are its claims less the silent ones; so
      every claim was announced exactly when none was silent. */
  lemma CancelsAnnouncedIff(unique: bool, ops: seq<Op>, b: nat)
    ensures var w := Run(Empty(unique), ops);
            var claims := ClaimCount(Empty(unique), ops, b);
            && AnnouncedCount(w.outbox, b) == claims - SilentCount(Empty(unique), ops, b)
            && (AnnouncedCount(w.outbox, b) == claims <==> NeverSilent(Empty(unique), ops, b))
  {
    assert Announcements.Announced(Empty(unique));
    hide Announcements.Announced, Run, ClaimCount, SilentCount, NeverSilent;
    RunCounts(Empty(unique), ops, b);
    NeverSilentIff(Empty(unique), ops, b);
  }
}
