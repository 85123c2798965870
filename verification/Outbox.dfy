/** apps/api/src/outbox/outbox-drain.service.ts and the health counts of outbox.controller.ts. */
module Outbox {
  const MAX_ATTEMPTS := 5
  const BATCH_SIZE := 25

  /** The columns that the drain uses; rows stand in the order of their creation times. */
  datatype Row = Row(drained: bool, attempts: nat)

  predicate Pending(row: Row) {
    !row.drained && row.attempts < MAX_ATTEMPTS
  }

  predicate DeadLettered(row: Row) {
    !row.drained && row.attempts >= MAX_ATTEMPTS
  }

  /** What can happen to one row in one tick. An unrecorded failure aborts the tick. */
  datatype Outcome = Delivered | DispatchFailed | StampFailed | DispatchFailedUnrecorded | StampFailedUnrecorded
  {
    predicate Sends() { Delivered? || StampFailed? || StampFailedUnrecorded? }
    predicate Aborts() { DispatchFailedUnrecorded? || StampFailedUnrecorded? }
  }

  /** The table, and the ids whose message left the house, in order. */
  datatype State = State(rows: seq<Row>, sent: seq<nat>)

  datatype TickResult = TickResult(state: State, processed: nat, failed: nat, completed: bool)

  function After(row: Row, o: Outcome): Row {
    match o
    case Delivered => row.(drained := true)
    case DispatchFailed => row.(attempts := row.attempts + 1)
    case StampFailed => row.(attempts := row.attempts + 1)
    case DispatchFailedUnrecorded => row
    case StampFailedUnrecorded => row
  }

  function Attempt(s: State, id: nat, o: Outcome): State {
    State(if id < |s.rows| then s.rows[id := After(s.rows[id], o)] else s.rows, if o.Sends() then s.sent + [id] else s.sent)
  }

  /** How many of the first n rows are pending. */
  function Older(rows: seq<Row>, n: nat): (k: nat)
    requires n <= |rows|
    ensures k <= n
  {
    if n == 0 then 0 else Older(rows, n - 1) + if Pending(rows[n - 1]) then 1 else 0
  }

  function PendingBefore(rows: seq<Row>, n: nat): (r: seq<nat>)
    requires n <= |rows|
    ensures |r| == Older(rows, n)
    ensures forall k :: 0 <= k < |r| ==> r[k] < n && Pending(rows[r[k]]) && Older(rows, r[k]) == k
  {
    if n == 0 then []
    else if Pending(rows[n - 1]) then PendingBefore(rows, n - 1) + [n - 1]
    else PendingBefore(rows, n - 1)
  }

  /** The findMany call: pending rows, oldest first, at most 25. */
  function Batch(rows: seq<Row>): seq<nat> {
    var all := PendingBefore(rows, |rows|);
    if |all| <= BATCH_SIZE then all else all[..BATCH_SIZE]
  }

  function TickRows(s: State, ids: seq<nat>, env: nat -> Outcome, processed: nat, failed: nat): TickResult
    decreases |ids|
  {
    if ids == [] then TickResult(s, processed, failed, true)
    else
      var o := env(ids[0]);
      var next := Attempt(s, ids[0], o);
      if o.Aborts() then TickResult(next, processed, failed + 1, false)
      else if o.Delivered? then TickRows(next, ids[1..], env, processed + 1, failed)
      else TickRows(next, ids[1..], env, processed, failed + 1)
  }

  function Tick(s: State, env: nat -> Outcome): TickResult {
    TickRows(s, Batch(s.rows), env, 0, 0)
  }

  lemma TickRowsStep(s: State, ids: seq<nat>, env: nat -> Outcome, processed: nat, failed: nat)
    requires ids != []
    ensures var o, next := env(ids[0]), Attempt(s, ids[0], env(ids[0]));
            TickRows(s, ids, env, processed, failed)
            == if o.Aborts() then TickResult(next, processed, failed + 1, false)
               else if o.Delivered? then TickRows(next, ids[1..], env, processed + 1, failed)
               else TickRows(next, ids[1..], env, processed, failed + 1)
  {
  }

  lemma EmptyTick(s: State, env: nat -> Outcome, processed: nat, failed: nat)
    ensures TickRows(s, [], env, processed, failed) == TickResult(s, processed, failed, true)
  {
  }

  lemma BatchInRange(rows: seq<Row>)
    ensures forall i :: 0 <= i < |Batch(rows)| ==> Batch(rows)[i] < |rows| && Pending(rows[Batch(rows)[i]])
  {
  }

  class OutboxDrainService {
    var rows: seq<Row>
    var sent: seq<nat>
    var inflight: bool

    constructor ()
      ensures rows == [] && sent == [] && !inflight
    {
      rows, sent, inflight := [], [], false;
    }

    function Now(): State
      reads this
    {
      State(rows, sent)
    }

    /** The environment decides how each dispatch and each update goes. */
    method TickOnce(env: nat -> Outcome) returns (processed: nat, failed: nat, completed: bool)
      modifies this`rows, this`sent
      ensures TickResult(Now(), processed, failed, completed) == Tick(old(Now()), env)
    {
      var batch := Batch(rows);
      BatchInRange(rows);
      hide Batch, PendingBefore, Older, TickRows;
      processed, failed := 0, 0;
      for i := 0 to |batch|
        invariant Tick(old(Now()), env) == TickRows(Now(), batch[i..], env, processed, failed)
        invariant |rows| == |old(rows)| && batch == Batch(old(rows))
      {
        var id := batch[i];
        var outcome := env(id);
        assert batch[i..][1..] == batch[i + 1..];
        ghost var before := Now();
        TickRowsStep(before, batch[i..], env, processed, failed);
        if outcome.Sends() {
          sent := sent + [id];
        }
        if outcome.Delivered? {
          rows := rows[id := rows[id].(drained := true)];
          processed := processed + 1;
        } else {
          failed := failed + 1;
          if outcome.Aborts() {
            return processed, failed, false;
          }
          rows := rows[id := rows[id].(attempts := rows[id].attempts + 1)];
        }
        assert Now() == Attempt(before, id, outcome);
      }
      assert batch[|batch|..] == [];
      EmptyTick(Now(), env, processed, failed);
      completed := true;
    }

    /** The timer fires: skipped while a tick is under way, otherwise one begins. */
    method BeginScheduled() returns (begun: bool)
      modifies this`inflight
      ensures Schedule(inflight, if begun then 1 else 0) == Beaten(Schedule(old(inflight), 0), Fires)
    {
      if inflight { return false; }
      inflight := true;
      return true;
    }

    /** The tick under way returned or threw: the flag is cleared either way. */
    method EndScheduled()
      modifies this`inflight
      ensures !inflight
    {
      inflight := false;
    }

    /** Skips when a tick is under way; an aborted tick is logged and the flag is cleared all the same. */
    method ScheduledTick(env: nat -> Outcome)
      modifies this
      ensures old(inflight) ==> Now() == old(Now()) && inflight
      ensures !old(inflight) ==> Now() == Tick(old(Now()), env).state && !inflight
    {
      var begun := BeginScheduled();
      if !begun { return; }
      var processed, failed, completed := TickOnce(env);
      EndScheduled();
    }
  }

  // ---- the schedule ----

  /** The flag, and the scheduled ticks under way. */
  datatype Schedule = Schedule(inflight: bool, underWay: nat)

  datatype Beat = Fires | Ends

  function Beaten(s: Schedule, b: Beat): Schedule {
    match b
    case Fires => if s.inflight then s else Schedule(true, s.underWay + 1)
    case Ends => if s.underWay > 0 then Schedule(false, s.underWay - 1) else s
  }

  function AfterBeats(beats: seq<Beat>): Schedule
    decreases |beats|
  {
    if beats == [] then Schedule(false, 0) else Beaten(AfterBeats(beats[..|beats| - 1]), beats[|beats| - 1])
  }

  /** However the timer fires while ticks run, scheduled ticks never overlap, and the timer starts one whenever
      none is under way. */
  lemma {:induction false} ScheduledTicksNeverOverlap(beats: seq<Beat>)
    ensures AfterBeats(beats).underWay <= 1
    ensures AfterBeats(beats + [Fires]).underWay == 1
    decreases |beats|
  {
    FlagIsRight(beats);
    assert (beats + [Fires])[..|beats|] == beats;
  }

  lemma {:induction false} FlagIsRight(beats: seq<Beat>)
    ensures AfterBeats(beats).underWay == if AfterBeats(beats).inflight then 1 else 0
    decreases |beats|
  {
    if beats != [] {
      FlagIsRight(beats[..|beats| - 1]);
    }
  }

  // ---- one tick ----

  lemma {:induction false} Listed(rows: seq<Row>, n: nat, j: nat)
    requires j < n <= |rows| && Pending(rows[j])
    ensures Older(rows, j) < Older(rows, n) && PendingBefore(rows, n)[Older(rows, j)] == j
    decreases n
  {
    if j < n - 1 {
      Listed(rows, n - 1, j);
    }
  }

  /** A row is in the batch exactly when it is pending with fewer than 25 older pending rows. */
  lemma BatchIff(rows: seq<Row>, j: nat)
    ensures j in Batch(rows) <==> j < |rows| && !rows[j].drained && rows[j].attempts < 5 && Older(rows, j) < 25
  {
    if j < |rows| && Pending(rows[j]) {
      Listed(rows, |rows|, j);
    }
  }

  lemma BatchIsDistinct(rows: seq<Row>)
    ensures forall i, k :: 0 <= i < k < |Batch(rows)| ==> Batch(rows)[i] != Batch(rows)[k]
    ensures |Batch(rows)| == if Older(rows, |rows|) <= BATCH_SIZE then Older(rows, |rows|) else BATCH_SIZE
  {
    forall i, k | 0 <= i < k < |Batch(rows)|
      ensures Batch(rows)[i] != Batch(rows)[k]
    {
      assert Older(rows, Batch(rows)[i]) == i && Older(rows, Batch(rows)[k]) == k;
    }
  }

  /** A tick is completed exactly if no failure in its batch goes unrecorded. */
  lemma {:induction false} CompletedIff(s: State, ids: seq<nat>, env: nat -> Outcome, processed: nat, failed: nat)
    ensures TickRows(s, ids, env, processed, failed).completed <==> forall i :: 0 <= i < |ids| ==> !env(ids[i]).Aborts()
    decreases |ids|
  {
    if ids != [] {
      var next := Attempt(s, ids[0], env(ids[0]));
      if env(ids[0]).Delivered? {
        CompletedIff(next, ids[1..], env, processed + 1, failed);
      } else {
        CompletedIff(next, ids[1..], env, processed, failed + 1);
      }
      assert forall i :: 1 <= i < |ids| ==> ids[i] == ids[1..][i - 1];
    }
  }

  lemma {:induction false} RowsAfter(s: State, ids: seq<nat>, env: nat -> Outcome, processed: nat, failed: nat)
    requires TickRows(s, ids, env, processed, failed).completed
    requires forall i :: 0 <= i < |ids| ==> ids[i] < |s.rows|
    requires forall i, k :: 0 <= i < k < |ids| ==> ids[i] != ids[k]
    ensures var r := TickRows(s, ids, env, processed, failed);
            && |r.state.rows| == |s.rows| && r.processed + r.failed == processed + failed + |ids|
            && (forall j :: 0 <= j < |s.rows| ==> r.state.rows[j] == if j in ids then After(s.rows[j], env(j)) else s.rows[j])
    decreases |ids|
  {
    if ids != [] {
      var next := Attempt(s, ids[0], env(ids[0]));
      assert ids[0] !in ids[1..];
      assert forall j :: j in ids <==> j == ids[0] || j in ids[1..];
      if env(ids[0]).Delivered? {
        RowsAfter(next, ids[1..], env, processed + 1, failed);
      } else {
        RowsAfter(next, ids[1..], env, processed, failed + 1);
      }
    }
  }

  function DeliveredAmong(ids: seq<nat>, env: nat -> Outcome): nat {
    if ids == [] then 0 else (if env(ids[0]).Delivered? then 1 else 0) + DeliveredAmong(ids[1..], env)
  }

  lemma {:induction false} RowsCounted(s: State, ids: seq<nat>, env: nat -> Outcome, processed: nat, failed: nat)
    requires TickRows(s, ids, env, processed, failed).completed
    ensures var r := TickRows(s, ids, env, processed, failed);
            r.processed == processed + DeliveredAmong(ids, env) && r.failed == failed + |ids| - DeliveredAmong(ids, env)
    decreases |ids|
  {
    if ids != [] {
      var next := Attempt(s, ids[0], env(ids[0]));
      if env(ids[0]).Delivered? {
        RowsCounted(next, ids[1..], env, processed + 1, failed);
      } else {
        RowsCounted(next, ids[1..], env, processed, failed + 1);
      }
    }
  }

  /** What a completed tick leaves of a row, and what it counts: a delivered row is drained, one that failed in
      any way has one more attempt, and the two counters tell them apart. */
  lemma TickRecords(s: State, env: nat -> Outcome, j: nat)
    requires Tick(s, env).completed && j < |s.rows|
    ensures var r := Tick(s, env);
            && r.processed == DeliveredAmong(Batch(s.rows), env) && r.failed == |Batch(s.rows)| - DeliveredAmong(Batch(s.rows), env)
            && |r.state.rows| == |s.rows|
            && r.state.rows[j] ==
                 if !s.rows[j].drained && s.rows[j].attempts < 5 && Older(s.rows, j) < 25 then
                   if env(j) == Delivered then Row(true, s.rows[j].attempts) else Row(false, s.rows[j].attempts + 1)
                 else s.rows[j]
  {
    TickTouches(s, env);
    RowsCounted(s, Batch(s.rows), env, 0, 0);
    hide TickRows, Batch, Older;
  }

  /** The row is among the 25 oldest pending ones. */
  predicate Touched(rows: seq<Row>, j: nat)
    requires j < |rows|
  {
    Pending(rows[j]) && Older(rows, j) < BATCH_SIZE
  }

  /** A completed tick touches exactly the 25 oldest pending rows, each once, and records what happens to them. */
  lemma TickTouches(s: State, env: nat -> Outcome)
    requires Tick(s, env).completed
    ensures var r := Tick(s, env);
            && |r.state.rows| == |s.rows|
            && r.processed + r.failed == (if Older(s.rows, |s.rows|) <= BATCH_SIZE then Older(s.rows, |s.rows|) else BATCH_SIZE)
            && (forall j :: 0 <= j < |s.rows| ==> r.state.rows[j] == if Touched(s.rows, j) then After(s.rows[j], env(j)) else s.rows[j])
    ensures forall j :: 0 <= j < |s.rows| && Touched(s.rows, j) ==> !env(j).Aborts()
  {
    BatchIsDistinct(s.rows);
    forall j: nat | j < |s.rows|
      ensures j in Batch(s.rows) <==> Touched(s.rows, j)
    {
      BatchIff(s.rows, j);
    }
    CompletedIff(s, Batch(s.rows), env, 0, 0);
    RowsAfter(s, Batch(s.rows), env, 0, 0);
  }

  lemma {:induction false} RowsOnlyAdvance(s: State, ids: seq<nat>, env: nat -> Outcome, processed: nat, failed: nat)
    ensures var rows := TickRows(s, ids, env, processed, failed).state.rows;
            && |rows| == |s.rows|
            && (forall j :: 0 <= j < |rows| && Pending(rows[j]) ==> Pending(s.rows[j]) && s.rows[j].attempts <= rows[j].attempts)
    decreases |ids|
  {
    if ids != [] && !env(ids[0]).Aborts() {
      var next := Attempt(s, ids[0], env(ids[0]));
      if env(ids[0]).Delivered? {
        RowsOnlyAdvance(next, ids[1..], env, processed + 1, failed);
      } else {
        RowsOnlyAdvance(next, ids[1..], env, processed, failed + 1);
      }
    }
  }

  /** Any tick, aborted or not, makes nothing pending again and lowers no count. */
  lemma TickOnlyAdvances(s: State, env: nat -> Outcome)
    ensures var rows := Tick(s, env).state.rows;
            && |rows| == |s.rows|
            && (forall j :: 0 <= j < |rows| && Pending(rows[j]) ==> Pending(s.rows[j]) && s.rows[j].attempts <= rows[j].attempts)
  {
    RowsOnlyAdvance(s, Batch(s.rows), env, 0, 0);
  }

  // ---- remaining work ----

  /** Tries that are left to the pending ones of the first n rows. */
  function Work(rows: seq<Row>, n: nat): nat
    requires n <= |rows|
  {
    if n == 0 then 0 else Work(rows, n - 1) + if Pending(rows[n - 1]) then MAX_ATTEMPTS - rows[n - 1].attempts else 0
  }

  lemma {:induction false} WorkFallsBefore(rows: seq<Row>, after: seq<Row>, env: nat -> Outcome, n: nat)
    requires n <= |rows| == |after|
    requires forall j :: 0 <= j < |rows| ==> after[j] == if Touched(rows, j) then After(rows[j], env(j)) else rows[j]
    requires forall j :: 0 <= j < |rows| && Touched(rows, j) ==> !env(j).Aborts()
    ensures Work(after, n) + (if Older(rows, n) <= BATCH_SIZE then Older(rows, n) else BATCH_SIZE) <= Work(rows, n)
    decreases n
  {
    if n > 0 {
      WorkFallsBefore(rows, after, env, n - 1);
      assert Touched(rows, n - 1) ==> !env(n - 1).Aborts();
    }
  }

  /** Every completed tick uses up at least one try for every row of its batch. */
  lemma WorkFalls(s: State, env: nat -> Outcome)
    requires Tick(s, env).completed
    ensures |Tick(s, env).state.rows| == |s.rows|
    ensures Work(Tick(s, env).state.rows, |s.rows|) + |Batch(s.rows)| <= Work(s.rows, |s.rows|)
  {
    TickTouches(s, env);
    BatchIsDistinct(s.rows);
    WorkFallsBefore(s.rows, Tick(s, env).state.rows, env, |s.rows|);
  }

  // ---- runs ----

  datatype Event = Enqueue | TickWith(env: nat -> Outcome)

  function Step(s: State, e: Event): State {
    match e
    case Enqueue => s.(rows := s.rows + [Row(false, 0)])
    case TickWith(env) => Tick(s, env).state
  }

  function Run(s: State, events: seq<Event>): State
    decreases |events|
  {
    if events == [] then s else Step(Run(s, events[..|events| - 1]), events[|events| - 1])
  }

  function CompletedTicks(s: State, events: seq<Event>): nat
    decreases |events|
  {
    if events == [] then 0
    else
      var before, e := events[..|events| - 1], events[|events| - 1];
      CompletedTicks(s, before) + if e.TickWith? && Tick(Run(s, before), e.env).completed then 1 else 0
  }

  /** Completed ticks that pass before the block of 25 pending rows to which row j belongs has its turn. */
  function Wait(rows: seq<Row>, j: nat): nat
    requires j <= |rows|
  {
    MAX_ATTEMPTS * (Older(rows, j) / BATCH_SIZE)
  }

  /** After t ticks, a row still pending has been tried in every tick since its block's turn. */
  ghost predicate KeepsUp(start: seq<Row>, rows: seq<Row>, t: nat) {
    && |start| <= |rows|
    && forall j :: 0 <= j < |start| && Pending(rows[j]) ==>
         && Pending(start[j])
         && rows[j].attempts >= start[j].attempts
         && rows[j].attempts >= start[j].attempts + t - Wait(start, j)
  }

  /** If only rows of rank m and above are still pending, at most rank - m of them are older than row j. */
  lemma {:induction false} FewAhead(start: seq<Row>, rows: seq<Row>, j: nat, m: nat)
    requires j <= |start| <= |rows|
    requires forall i :: 0 <= i < j && Pending(rows[i]) ==> Pending(start[i]) && Older(start, i) >= m
    ensures Older(rows, j) <= if Older(start, j) >= m then Older(start, j) - m else 0
    decreases j
  {
    if j > 0 {
      FewAhead(start, rows, j - 1, m);
    }
  }

  lemma LowerBlock(a: nat, b: nat)
    ensures a < BATCH_SIZE * (b / BATCH_SIZE) ==> a / BATCH_SIZE + 1 <= b / BATCH_SIZE
  {
  }

  /** Once its block has its turn, a pending row is in every batch. */
  lemma HasTurn(start: seq<Row>, rows: seq<Row>, t: nat, j: nat)
    requires KeepsUp(start, rows, t) && j < |start| && Pending(rows[j]) && t >= Wait(start, j)
    ensures Older(rows, j) < BATCH_SIZE
  {
    var m := BATCH_SIZE * (Older(start, j) / BATCH_SIZE);
    forall i | 0 <= i < j && Pending(rows[i])
      ensures Pending(start[i]) && Older(start, i) >= m
    {
      LowerBlock(Older(start, i), Older(start, j));
    }
    FewAhead(start, rows, j, m);
  }

  lemma TickKeepsUp(start: seq<Row>, s: State, t: nat, env: nat -> Outcome)
    requires KeepsUp(start, s.rows, t) && Tick(s, env).completed
    ensures KeepsUp(start, Tick(s, env).state.rows, t + 1)
  {
    TickTouches(s, env);
    TickOnlyAdvances(s, env);
    var rows := Tick(s, env).state.rows;
    forall j | 0 <= j < |start| && Pending(rows[j])
      ensures Pending(start[j]) && rows[j].attempts >= start[j].attempts
      ensures rows[j].attempts >= start[j].attempts + t + 1 - Wait(start, j)
    {
      assert Pending(s.rows[j]);
      if t >= Wait(start, j) {
        HasTurn(start, s.rows, t, j);
        assert Touched(s.rows, j);
      }
    }
  }

  lemma {:induction false} RunKeepsUp(s: State, events: seq<Event>)
    ensures KeepsUp(s.rows, Run(s, events).rows, CompletedTicks(s, events))
    decreases |events|
  {
    if events != [] {
      var before, e := events[..|events| - 1], events[|events| - 1];
      RunKeepsUp(s, before);
      var now, t := Run(s, before), CompletedTicks(s, before);
      if e.TickWith? {
        if Tick(now, e.env).completed {
          TickKeepsUp(s.rows, now, t, e.env);
        } else {
          TickOnlyAdvances(now, e.env);
        }
      }
    }
  }

  /** No starvation: whatever fails, whatever is enqueued later and whichever ticks abort in between, a
      pending row with k older pending rows is dispatched by the completed tick 5 * floor(k / 25) + 1. */
  lemma NoStarvation(s: State, events: seq<Event>, j: nat)
    requires j < |s.rows| && Pending(s.rows[j])
    requires CompletedTicks(s, events) >= 5 * (Older(s.rows, j) / 25) + 1
    ensures j < |Run(s, events).rows|
    ensures var row := Run(s, events).rows[j]; row.drained || row.attempts > s.rows[j].attempts
  {
    RunKeepsUp(s, events);
  }

  /** After 5 * ceil(n / 25) completed ticks none of the n rows that were pending at the start is pending. */
  lemma QueueSettles(s: State, events: seq<Event>)
    requires CompletedTicks(s, events) >= 5 * ((Older(s.rows, |s.rows|) + 24) / 25)
    ensures |s.rows| <= |Run(s, events).rows|
    ensures forall j :: 0 <= j < |s.rows| ==> !Pending(Run(s, events).rows[j])
  {
    RunKeepsUp(s, events);
    hide Run, CompletedTicks, Older;
    AllTried(s.rows, Run(s, events).rows, CompletedTicks(s, events));
  }

  lemma AllTried(start: seq<Row>, rows: seq<Row>, t: nat)
    requires KeepsUp(start, rows, t)
    requires t >= MAX_ATTEMPTS * ((Older(start, |start|) + BATCH_SIZE - 1) / BATCH_SIZE)
    ensures |start| <= |rows| && forall j :: 0 <= j < |start| ==> !Pending(rows[j])
  {
    hide Older, Wait;
    forall j | 0 <= j < |start|
      ensures !Pending(rows[j])
    {
      Tried(start, rows, t, j);
    }
  }

  lemma Tried(start: seq<Row>, rows: seq<Row>, t: nat, j: nat)
    requires KeepsUp(start, rows, t) && j < |start|
    requires t >= MAX_ATTEMPTS * ((Older(start, |start|) + BATCH_SIZE - 1) / BATCH_SIZE)
    ensures !Pending(rows[j])
  {
    if Pending(start[j]) {
      Listed(start, |start|, j);
      hide Older, Wait, KeepsUp;
      StillPendingMeansEarly(start, rows, t, j, Older(start, |start|));
    }
  }

  lemma StillPendingMeansEarly(start: seq<Row>, rows: seq<Row>, t: nat, j: nat, n: nat)
    requires KeepsUp(start, rows, t) && j < |start| && Older(start, j) < n
    requires t >= MAX_ATTEMPTS * ((n + BATCH_SIZE - 1) / BATCH_SIZE)
    ensures !Pending(rows[j])
  {
    hide Older;
    BlocksBefore(Older(start, j), n);
  }

  lemma BlocksBefore(k: nat, n: nat)
    requires k < n
    ensures k / BATCH_SIZE + 1 <= (n + BATCH_SIZE - 1) / BATCH_SIZE
  {
  }

  // ---- ticks that abort ----

  function Stuck(t: nat): seq<Event> {
    seq(t, _ => TickWith(Always(DispatchFailedUnrecorded)))
  }

  lemma StuckTick(s: State)
    requires s.rows != [] && Pending(s.rows[0])
    ensures Tick(s, Always(DispatchFailedUnrecorded)).state == s && !Tick(s, Always(DispatchFailedUnrecorded)).completed
  {
    Listed(s.rows, |s.rows|, 0);
    assert Batch(s.rows)[0] == 0;
    assert s.rows[0 := s.rows[0]] == s.rows;
  }

  /** Aborted ticks do starve: if the failures of the oldest row are never recorded, no tick completes
      and no row behind it is ever tried. */
  lemma {:induction false} AbortedTicksStarve(s: State, t: nat)
    requires s.rows != [] && Pending(s.rows[0])
    ensures Run(s, Stuck(t)) == s && CompletedTicks(s, Stuck(t)) == 0
    decreases t
  {
    if t > 0 {
      AbortedTicksStarve(s, t - 1);
      assert Stuck(t)[..t - 1] == Stuck(t - 1);
      StuckTick(s);
    }
  }

  // ---- the bound is exact ----

  function Always(o: Outcome): nat -> Outcome {
    _ => o
  }

  /** n fresh rows after t ticks in which every dispatch failed. */
  ghost predicate AllFailed(rows: seq<Row>, t: nat) {
    forall j :: 0 <= j < |rows| ==> rows[j] == Row(false, TriesBy(t, j))
  }

  function TriesBy(t: nat, j: nat): nat {
    if t <= 5 * (j / 25) then 0 else if t >= 5 * (j / 25) + 5 then 5 else t - 5 * (j / 25)
  }

  lemma {:induction false} PendingOnes(rows: seq<Row>, t: nat, n: nat)
    requires AllFailed(rows, t) && n <= |rows|
    ensures Older(rows, n) == if n <= 25 * (t / 5) then 0 else n - 25 * (t / 5)
    decreases n
  {
    if n > 0 {
      PendingOnes(rows, t, n - 1);
      assert Pending(rows[n - 1]) <==> t < 5 * ((n - 1) / 25) + 5;
    }
  }

  lemma TriesFollow(t: nat, j: nat)
    ensures TriesBy(t + 1, j) == TriesBy(t, j) + if TriesBy(t, j) < 5 && (j <= 25 * (t / 5) || j - 25 * (t / 5) < 25) then 1 else 0
  {
    var b, c := t / 5, j / 25;
    assert 5 * b <= t < 5 * b + 5 && 25 * c <= j < 25 * c + 25;
    assert t <= 5 * c - 1 <==> b < c;
  }

  lemma FailuresComplete(s: State)
    ensures Tick(s, Always(DispatchFailed)).completed
  {
    CompletedIff(s, Batch(s.rows), Always(DispatchFailed), 0, 0);
  }

  /** One more failing tick moves every row to where TriesBy says it stands. */
  lemma FailingTick(s: State, t: nat)
    requires AllFailed(s.rows, t)
    ensures AllFailed(Tick(s, Always(DispatchFailed)).state.rows, t + 1)
  {
    FailuresComplete(s);
    TickTouches(s, Always(DispatchFailed));
    var rows := Tick(s, Always(DispatchFailed)).state.rows;
    hide Tick, Older;
    forall j | 0 <= j < |s.rows|
      ensures rows[j] == Row(false, TriesBy(t + 1, j))
    {
      PendingOnes(s.rows, t, j);
      TriesFollow(t, j);
    }
  }

  function Failing(t: nat): seq<Event> {
    seq(t, _ => TickWith(Always(DispatchFailed)))
  }

  lemma {:induction false} FailingRun(s: State, t: nat)
    requires AllFailed(s.rows, 0)
    ensures AllFailed(Run(s, Failing(t)).rows, t) && |Run(s, Failing(t)).rows| == |s.rows|
    decreases t
  {
    if t > 0 {
      FailingRun(s, t - 1);
      assert Failing(t)[..t - 1] == Failing(t - 1);
      FailingTick(Run(s, Failing(t - 1)), t - 1);
      FailuresComplete(Run(s, Failing(t - 1)));
      TickTouches(Run(s, Failing(t - 1)), Always(DispatchFailed));
    }
  }

  /** Among fresh rows, when every dispatch fails, row k is untouched before tick 5 * floor(k / 25) + 1 and tried in it. */
  lemma BoundIsExact(n: nat, k: nat, t: nat)
    requires k < n
    ensures var s := State(seq(n, _ => Row(false, 0)), []);
            && |Run(s, Failing(t)).rows| == n
            && (Run(s, Failing(t)).rows[k] == Row(false, 0) <==> t < 5 * (k / 25) + 1)
  {
    var s := State(seq(n, _ => Row(false, 0)), []);
    FailingRun(s, t);
  }

  // ---- what is sent ----

  function Sends(sent: seq<nat>, id: nat): nat {
    if sent == [] then 0 else Sends(sent[..|sent| - 1], id) + if sent[|sent| - 1] == id then 1 else 0
  }

  /** Tries are capped and nothing is drained unsent. If the failures of stamps are recorded, every send
      cost a try or drained its row; if no stamp fails, the drained rows were sent once and no others. */
  ghost predicate Accounted(s: State, recorded: bool, stamped: bool) {
    && (forall j :: 0 <= j < |s.rows| ==> s.rows[j].attempts <= MAX_ATTEMPTS)
    && (forall j :: 0 <= j < |s.rows| && s.rows[j].drained ==> s.rows[j].attempts < MAX_ATTEMPTS && Sends(s.sent, j) >= 1)
    && (recorded ==> forall j :: 0 <= j < |s.rows| ==> Sends(s.sent, j) <= s.rows[j].attempts + if s.rows[j].drained then 1 else 0)
    && (stamped ==> forall j :: 0 <= j < |s.rows| ==> Sends(s.sent, j) == if s.rows[j].drained then 1 else 0)
    && (forall j :: j >= |s.rows| ==> Sends(s.sent, j) == 0)
  }

  ghost predicate Possible(env: nat -> Outcome, recorded: bool, stamped: bool) {
    forall id :: (recorded ==> !env(id).StampFailedUnrecorded?)
                 && (stamped ==> !env(id).StampFailed? && !env(id).StampFailedUnrecorded?)
  }

  lemma AttemptAccounted(s: State, id: nat, o: Outcome, recorded: bool, stamped: bool)
    requires Accounted(s, recorded, stamped) && id < |s.rows| && Pending(s.rows[id])
    requires recorded ==> !o.StampFailedUnrecorded?
    requires stamped ==> !o.StampFailed? && !o.StampFailedUnrecorded?
    ensures Accounted(Attempt(s, id, o), recorded, stamped)
  {
    var next := Attempt(s, id, o);
    forall j
      ensures Sends(next.sent, j) == Sends(s.sent, j) + if o.Sends() && j == id then 1 else 0
    {
      assert o.Sends() ==> next.sent[..|next.sent| - 1] == s.sent;
    }
  }

  lemma {:induction false} TickAccounted(s: State, ids: seq<nat>, env: nat -> Outcome, processed: nat, failed: nat, recorded: bool, stamped: bool)
    requires Accounted(s, recorded, stamped) && Possible(env, recorded, stamped)
    requires forall i :: 0 <= i < |ids| ==> ids[i] < |s.rows| && Pending(s.rows[ids[i]])
    requires forall i, k :: 0 <= i < k < |ids| ==> ids[i] != ids[k]
    ensures Accounted(TickRows(s, ids, env, processed, failed).state, recorded, stamped)
    decreases |ids|
  {
    if ids != [] {
      var o := env(ids[0]);
      AttemptAccounted(s, ids[0], o, recorded, stamped);
      var next := Attempt(s, ids[0], o);
      if o.Delivered? {
        TickAccounted(next, ids[1..], env, processed + 1, failed, recorded, stamped);
      } else if !o.Aborts() {
        TickAccounted(next, ids[1..], env, processed, failed + 1, recorded, stamped);
      }
    }
  }

  ghost predicate AllPossible(events: seq<Event>, recorded: bool, stamped: bool) {
    forall i :: 0 <= i < |events| && events[i].TickWith? ==> Possible(events[i].env, recorded, stamped)
  }

  lemma {:induction false} RunAccounted(s: State, events: seq<Event>, recorded: bool, stamped: bool)
    requires Accounted(s, recorded, stamped) && AllPossible(events, recorded, stamped)
    ensures Accounted(Run(s, events), recorded, stamped)
    decreases |events|
  {
    if events != [] {
      var before, e := events[..|events| - 1], events[|events| - 1];
      RunAccounted(s, before, recorded, stamped);
      if e.TickWith? {
        assert Possible(events[|events| - 1].env, recorded, stamped);
        var now := Run(s, before);
        BatchIsDistinct(now.rows);
        BatchInRange(now.rows);
        TickAccounted(now, Batch(now.rows), e.env, 0, 0, recorded, stamped);
      }
    }
  }

  const NOTHING := State([], [])

  /** Whatever happens: attempts never pass 5, and a drained row was sent. */
  lemma AttemptsAreCapped(events: seq<Event>, j: nat)
    requires j < |Run(NOTHING, events).rows|
    ensures var r := Run(NOTHING, events);
            r.rows[j].attempts <= 5 && (r.rows[j].drained ==> Sends(r.sent, j) >= 1)
  {
    RunAccounted(NOTHING, events, false, false);
  }

  /** No row is sent more than five times, as long as failed stamps are recorded. */
  lemma AtMostFiveSends(events: seq<Event>, id: nat)
    requires AllPossible(events, true, false)
    ensures Sends(Run(NOTHING, events).sent, id) <= 5
  {
    RunAccounted(NOTHING, events, true, false);
  }

  /** If no stamp fails, drained rows were sent exactly once and the others never. */
  lemma SentExactlyOnceIff(events: seq<Event>, id: nat)
    requires AllPossible(events, true, true)
    ensures var r := Run(NOTHING, events);
            && Sends(r.sent, id) <= 1
            && (Sends(r.sent, id) == 1 <==> id < |r.rows| && r.rows[id].drained)
  {
    RunAccounted(NOTHING, events, true, true);
  }

  lemma RunOneMore(s: State, events: seq<Event>, e: Event)
    ensures Run(s, events + [e]) == Step(Run(s, events), e)
  {
    assert (events + [e])[..|events|] == events;
  }

  lemma TickOfOne(row: Row, sent: seq<nat>, o: Outcome)
    requires Pending(row) && !o.Aborts()
    ensures Tick(State([row], sent), Always(o)).state == State([After(row, o)], if o.Sends() then sent + [0] else sent)
  {
    assert PendingBefore([row], 1) == [0];
    assert Batch([row]) == [0] && [0][1..] == [];
    assert [row][0 := After(row, o)] == [After(row, o)];
  }

  /** A failed stamp is enough for a second send. */
  lemma FailedStampSendsTwice()
    ensures var events := [Enqueue] + [TickWith(Always(StampFailed))] + [TickWith(Always(Delivered))];
            Run(NOTHING, events) == State([Row(true, 1)], [0, 0]) && Sends([0, 0], 0) == 2
  {
    hide Run, Tick;
    RunOneMore(NOTHING, [], Enqueue);
    assert [] + [Enqueue] == [Enqueue] && Run(NOTHING, []) == NOTHING by { RunOfNothing(); }
    RunOneMore(NOTHING, [Enqueue], TickWith(Always(StampFailed)));
    assert NOTHING.rows + [Row(false, 0)] == [Row(false, 0)] && NOTHING.sent + [0] == [0] && [0] + [0] == [0, 0];
    TickOfOne(Row(false, 0), [], StampFailed);
    RunOneMore(NOTHING, [Enqueue] + [TickWith(Always(StampFailed))], TickWith(Always(Delivered)));
    TickOfOne(Row(false, 1), [0], Delivered);
    assert [0, 0][..1] == [0] && [0][..0] == [];
  }

  lemma RunOfNothing()
    ensures Run(NOTHING, []) == NOTHING
  {
  }

  // ---- the exact account ----

  /** How often the stamp of this row fails in one tick over these rows. */
  function Missed(ids: seq<nat>, env: nat -> Outcome, id: nat): nat {
    if ids == [] then 0
    else
      (if ids[0] == id && env(id).Sends() && !env(id).Delivered? then 1 else 0)
      + if env(ids[0]).Aborts() then 0 else Missed(ids[1..], env, id)
  }

  function FailedStamps(s: State, events: seq<Event>, id: nat): nat
    decreases |events|
  {
    if events == [] then 0
    else
      var before, e := events[..|events| - 1], events[|events| - 1];
      FailedStamps(s, before, id) + if e.TickWith? then Missed(Batch(Run(s, before).rows), e.env, id) else 0
  }

  function DrainedBit(s: State, id: nat): nat {
    if id < |s.rows| && s.rows[id].drained then 1 else 0
  }

  lemma OneMoreSend(sent: seq<nat>, id: nat, one: nat)
    ensures Sends(sent + [one], id) == Sends(sent, id) + if one == id then 1 else 0
  {
    assert (sent + [one])[..|sent|] == sent;
  }

  /** In one tick sends and drains of a row differ by its failed stamps, and it is sent at most once. */
  lemma {:induction false} TickAccount(s: State, ids: seq<nat>, env: nat -> Outcome, processed: nat, failed: nat, id: nat)
    requires forall i :: 0 <= i < |ids| ==> ids[i] < |s.rows| && Pending(s.rows[ids[i]])
    requires forall i, k :: 0 <= i < k < |ids| ==> ids[i] != ids[k]
    ensures var r := TickRows(s, ids, env, processed, failed).state;
            && Sends(r.sent, id) + DrainedBit(s, id) == Sends(s.sent, id) + Missed(ids, env, id) + DrainedBit(r, id)
            && Sends(s.sent, id) <= Sends(r.sent, id) <= Sends(s.sent, id) + (if id in ids then 1 else 0)
            && DrainedBit(s, id) <= DrainedBit(r, id)
    decreases |ids|
  {
    if ids != [] {
      var o := env(ids[0]);
      var next := Attempt(s, ids[0], o);
      OneMoreSend(s.sent, id, ids[0]);
      hide Sends;
      if !o.Aborts() {
        assert ids[0] !in ids[1..];
        if o.Delivered? {
          TickAccount(next, ids[1..], env, processed + 1, failed, id);
        } else {
          TickAccount(next, ids[1..], env, processed, failed + 1, id);
        }
      }
    }
  }

  lemma StepAccount(s: State, e: Event, id: nat)
    ensures var r := Step(s, e);
            && Sends(r.sent, id) + DrainedBit(s, id)
               == Sends(s.sent, id) + (if e.TickWith? then Missed(Batch(s.rows), e.env, id) else 0) + DrainedBit(r, id)
            && Sends(s.sent, id) <= Sends(r.sent, id) <= Sends(s.sent, id) + 1
            && DrainedBit(s, id) <= DrainedBit(r, id)
            && (DrainedBit(s, id) == 1 ==> Sends(r.sent, id) == Sends(s.sent, id))
  {
    if e.TickWith? {
      BatchIsDistinct(s.rows);
      BatchInRange(s.rows);
      TickAccount(s, Batch(s.rows), e.env, 0, 0, id);
    }
  }

  /** Every run: a row was sent once for each failed stamp of it, and once more if it is drained. */
  lemma {:induction false} SendsAreAccounted(events: seq<Event>, id: nat)
    ensures Sends(Run(NOTHING, events).sent, id) == FailedStamps(NOTHING, events, id) + DrainedBit(Run(NOTHING, events), id)
    decreases |events|
  {
    if events != [] {
      SendsAreAccounted(events[..|events| - 1], id);
      StepAccount(Run(NOTHING, events[..|events| - 1]), events[|events| - 1], id);
    }
  }

  /** After n events a stamp of the row had failed, and the row is sent again later. */
  ghost predicate SentAfterFailedStamp(events: seq<Event>, id: nat, n: nat)
    requires n <= |events|
  {
    FailedStamps(NOTHING, events[..n], id) >= 1 && Sends(Run(NOTHING, events[..n]).sent, id) < Sends(Run(NOTHING, events).sent, id)
  }

  lemma {:induction false} SendsGrow(events: seq<Event>, id: nat, n: nat)
    requires n <= |events|
    ensures Sends(Run(NOTHING, events[..n]).sent, id) <= Sends(Run(NOTHING, events).sent, id)
    ensures DrainedBit(Run(NOTHING, events[..n]), id) == 1 ==> Sends(Run(NOTHING, events).sent, id) == Sends(Run(NOTHING, events[..n]).sent, id)
    ensures DrainedBit(Run(NOTHING, events[..n]), id) <= DrainedBit(Run(NOTHING, events), id)
    decreases |events| - n
  {
    if n == |events| {
      assert events[..n] == events;
    } else {
      SendsGrow(events, id, n + 1);
      assert events[..n + 1][..n] == events[..n];
      StepAccount(Run(NOTHING, events[..n]), events[n], id);
    }
  }

  /** The moment of the first send. */
  lemma {:induction false} FirstSend(events: seq<Event>, id: nat) returns (n: nat)
    requires Sends(Run(NOTHING, events).sent, id) >= 1
    ensures n <= |events| && Sends(Run(NOTHING, events[..n]).sent, id) == 1
    decreases |events|
  {
    var before := events[..|events| - 1];
    StepAccount(Run(NOTHING, before), events[|events| - 1], id);
    if Sends(Run(NOTHING, before).sent, id) >= 1 {
      n := FirstSend(before, id);
      assert before[..n] == events[..n];
    } else {
      n := |events|;
      assert events[..n] == events;
    }
  }

  /** A row is sent twice exactly if an accepted dispatch of it follows a failed stamp of it. */
  lemma SentTwiceIff(events: seq<Event>, id: nat)
    ensures Sends(Run(NOTHING, events).sent, id) >= 2 <==> exists n :: 0 <= n <= |events| && SentAfterFailedStamp(events, id, n)
  {
    if Sends(Run(NOTHING, events).sent, id) >= 2 {
      var n := FirstSend(events, id);
      SendsAreAccounted(events[..n], id);
      SendsGrow(events, id, n);
      assert SentAfterFailedStamp(events, id, n);
    }
    if n: nat :| n <= |events| && SentAfterFailedStamp(events, id, n) {
      SendsAreAccounted(events[..n], id);
    }
  }

  // ---- health ----

  /** The two counts of the health endpoint. */
  function Health(rows: seq<Row>): (r: (nat, nat)) {
    if rows == [] then (0, 0)
    else
      var (dead, pending) := Health(rows[..|rows| - 1]);
      var last := rows[|rows| - 1];
      (dead + if DeadLettered(last) then 1 else 0, pending + if Pending(last) then 1 else 0)
  }

  function DrainedCount(rows: seq<Row>): nat {
    if rows == [] then 0 else DrainedCount(rows[..|rows| - 1]) + if rows[|rows| - 1].drained then 1 else 0
  }

  lemma {:induction false} OlderOfPrefix(rows: seq<Row>, m: nat, n: nat)
    requires n <= m <= |rows|
    ensures Older(rows[..m], n) == Older(rows, n)
    decreases n
  {
    if n > 0 {
      OlderOfPrefix(rows, m, n - 1);
    }
  }

  /** Pending, dead-lettered and drained rows partition the table, and the pending count is what the drain sees. */
  lemma {:induction false} HealthAddsUp(rows: seq<Row>)
    ensures Health(rows).0 + Health(rows).1 + DrainedCount(rows) == |rows|
    ensures Health(rows).1 == Older(rows, |rows|)
    decreases |rows|
  {
    if rows != [] {
      var before := rows[..|rows| - 1];
      HealthAddsUp(before);
      OlderOfPrefix(rows, |rows| - 1, |rows| - 1);
      assert before[..|before|] == before;
    }
  }
}
