/**
 Webhook deduplication: whatever is delivered, however often and in whatever order, each event's
 handler starts at most once and repeats leave no trace.
 */
module Dedup {
  import opened Wrappers
  import opened Schema
  import opened Operations
  import Ledger

  predicate Names(op: Op, e: nat) {
    (op.Deliver? || op.LoseDelivery? || op.CrashInDelivery?) && op.event == e
  }

  /** The step is a delivery of an event whose row exists already. */
  predicate IsRepeat(w: World, op: Op) {
    (op.Deliver? || op.LoseDelivery? || op.CrashInDelivery?) && op.event in w.webhookEvents
  }

  /** The same run with every repeated delivery struck out. */
  function WithoutRepeats(w: World, ops: seq<Op>): seq<Op>
    decreases |ops|
  {
    if ops == [] then []
    else if IsRepeat(w, ops[0]) then WithoutRepeats(w, ops[1..])
    else [ops[0]] + WithoutRepeats(Apply(w, ops[0]), ops[1..])
  }

  /** How often the handler of event `e` is entered in a run. */
  function HandlerStarts(w: World, ops: seq<Op>, e: nat): nat
    decreases |ops|
  {
    if ops == [] then 0
    else
      (if Names(ops[0], e) && e < |w.stripe.events| && e !in w.webhookEvents then 1 else 0)
      + HandlerStarts(Apply(w, ops[0]), ops[1..], e)
  }

  lemma RepeatChangesNothing(w: World, op: Op)
    requires IsRepeat(w, op)
    ensures Apply(w, op) == w
  {
  }

  /** The final state is that of the run that keeps only first deliveries. */
  lemma {:induction false} RepeatsLeaveNoTrace(w: World, ops: seq<Op>)
    ensures Run(w, WithoutRepeats(w, ops)) == Run(w, ops)
    decreases |ops|
  {
    if ops == [] {
    } else if IsRepeat(w, ops[0]) {
      RepeatChangesNothing(w, ops[0]);
      RepeatsLeaveNoTrace(w, ops[1..]);
    } else {
      var rest := WithoutRepeats(Apply(w, ops[0]), ops[1..]);
      RepeatsLeaveNoTrace(Apply(w, ops[0]), ops[1..]);
      assert ([ops[0]] + rest)[1..] == rest;
    }
  }

  /** The handler starts at most once per event, and not at all once the event's row exists. */
  lemma {:induction false} HandlerStartsAtMostOnce(w: World, ops: seq<Op>, e: nat)
    requires Ledger.Ledger(w)
    ensures HandlerStarts(w, ops, e) <= 1
    ensures e in w.webhookEvents ==> HandlerStarts(w, ops, e) == 0
    decreases |ops|
  {
    if ops != [] {
      Ledger.StepKeepsLedger(w, ops[0]);
      HandlerStartsAtMostOnce(Apply(w, ops[0]), ops[1..], e);
      if Names(ops[0], e) && e < |w.stripe.events| && e !in w.webhookEvents {
        FirstDeliveryLeavesRow(w, ops[0], e);
      }
    }
  }

  lemma FirstDeliveryLeavesRow(w: World, op: Op, e: nat)
    requires Ledger.Ledger(w) && Names(op, e) && e < |w.stripe.events| && e !in w.webhookEvents
    ensures e in Apply(w, op).webhookEvents
  {
    if op.Deliver? || op.CrashInDelivery? {
      var recorded := w.(webhookEvents := w.webhookEvents[e := false]);
      Ledger.EventRowAdded(w, e, recorded);
      Ledger.HandleKeeps(recorded, e);
    }
  }
}
