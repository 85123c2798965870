/** apps/build-worker/src/debouncer.ts, and its use in apps/build-worker/src/main.ts. */
module Debouncer {
  import opened Wrappers

  /** The private fields; a timer is the moment from which it may fire. */
  datatype Fields = Fields(latestPayload: Option<nat>, pending: bool, running: bool, timer: Option<int>)

  const IDLE := Fields(None, false, false, None)

  function Submitted(f: Fields, payload: nat, now: int, cooldown: nat): Fields {
    Fields(Some(payload), true, f.running, if f.timer.Some? then f.timer else Some(now + cooldown))
  }

  function Fired(f: Fields): Fields {
    Fields(f.latestPayload, false, true, None)
  }

  function Ended(f: Fields): Fields {
    f.(running := false)
  }

  /** The loop of drain() goes on. */
  predicate Waits(f: Fields) {
    f.timer.Some? || f.running
  }

  class BuildDebouncer {
    const cooldownMs: nat
    var latestPayload: Option<nat>
    var pending: bool
    var running: bool
    var timer: Option<int>

    constructor (cooldownMs: nat)
      ensures this.cooldownMs == cooldownMs && Now() == IDLE
    {
      this.cooldownMs := cooldownMs;
      latestPayload, pending, running, timer := None, false, false, None;
    }

    function Now(): Fields
      reads this
    {
      Fields(latestPayload, pending, running, timer)
    }

    method Submit(payload: nat, now: int)
      modifies this
      ensures Now() == Submitted(old(Now()), payload, now, cooldownMs)
    {
      latestPayload := Some(payload);
      pending := true;
      if timer.Some? { return; }
      timer := Some(now + cooldownMs);
    }

    /** The timer's callback, up to the call of the runner with the payload returned. */
    method Fire() returns (payloadAtFire: Option<nat>)
      modifies this
      ensures Now() == Fired(old(Now())) && payloadAtFire == old(latestPayload)
    {
      timer := None;
      payloadAtFire := latestPayload;
      pending := false;
      running := true;
    }

    /** The runner's promise settles. */
    method RunEnds()
      modifies this
      ensures Now() == Ended(old(Now()))
    {
      running := false;
    }

    /** One look of drain(). */
    method DrainWaits() returns (waits: bool)
      ensures waits <==> Waits(Now())
    {
      waits := timer.Some? || running;
    }

    method IsPending() returns (r: bool)
      ensures r == pending
    {
      r := pending;
    }
  }

  // ---- histories ----

  datatype Submission = Submission(payload: nat, at: int)

  /** `seen` submissions came before the start. */
  datatype Build = Build(payload: Option<nat>, startedAt: int, seen: nat, ended: bool)

  datatype World = World(fields: Fields, cooldown: nat, now: int, submissions: seq<Submission>, builds: seq<Build>)

  datatype Event = Submit(payload: nat) | Fire | End(build: nat) | Pass(ms: nat)

  function Step(w: World, e: Event): World {
    match e
    case Submit(payload) =>
      w.(fields := Submitted(w.fields, payload, w.now, w.cooldown), submissions := w.submissions + [Submission(payload, w.now)])
    case Fire =>
      if w.fields.timer.Some? && w.fields.timer.value <= w.now then
        w.(fields := Fired(w.fields), builds := w.builds + [Build(w.fields.latestPayload, w.now, |w.submissions|, false)])
      else w
    case End(k) =>
      if k < |w.builds| && !w.builds[k].ended then
        w.(fields := Ended(w.fields), builds := w.builds[k := w.builds[k].(ended := true)])
      else w
    case Pass(ms) => w.(now := w.now + ms)
  }

  function Start(cooldown: nat): World {
    World(IDLE, cooldown, 0, [], [])
  }

  function Run(cooldown: nat, events: seq<Event>): World
    decreases |events|
  {
    if events == [] then Start(cooldown) else Step(Run(cooldown, events[..|events| - 1]), events[|events| - 1])
  }

  function Seen(builds: seq<Build>): nat {
    if builds == [] then 0 else builds[|builds| - 1].seen
  }

  ghost predicate Ordered(w: World) {
    && (forall i :: 0 <= i < |w.submissions| ==> w.submissions[i].at <= w.now)
    && (forall i, j :: 0 <= i < j < |w.submissions| ==> w.submissions[i].at <= w.submissions[j].at)
  }

  ghost predicate BuildsAreRight(w: World) {
    && (forall k :: 0 <= k < |w.builds| ==>
          && 0 < w.builds[k].seen <= |w.submissions|
          && w.builds[k].payload == Some(w.submissions[w.builds[k].seen - 1].payload)
          && w.builds[k].startedAt <= w.now)
    && (forall k, l :: 0 <= k < l < |w.builds| ==>
          w.builds[k].seen < w.builds[l].seen && w.builds[k].startedAt + w.cooldown <= w.builds[l].startedAt)
  }

  /** The timer is armed exactly while a submission waits for its build; the oldest of those armed it. */
  ghost predicate TimerIsRight(w: World) {
    && Seen(w.builds) <= |w.submissions|
    && (w.fields.timer.Some? <==> Seen(w.builds) < |w.submissions|)
    && (w.fields.pending <==> w.fields.timer.Some?)
    && (w.submissions != [] ==> w.fields.latestPayload == Some(w.submissions[|w.submissions| - 1].payload))
    && (w.fields.timer.Some? ==>
          && w.fields.timer.value == w.submissions[Seen(w.builds)].at + w.cooldown
          && forall k :: 0 <= k < |w.builds| ==> w.builds[k].startedAt <= w.submissions[Seen(w.builds)].at)
  }

  ghost predicate Sound(w: World) {
    Ordered(w) && BuildsAreRight(w) && TimerIsRight(w)
  }

  /** A Fire event here does nothing: the timer is not due. */
  predicate Waiting(w: World) {
    w.fields.timer.None? || w.fields.timer.value > w.now
  }

  lemma FireKeepsBuilds(w: World)
    requires Sound(w)
    ensures BuildsAreRight(Step(w, Fire))
  {
    if w.builds != [] && !Waiting(w) {
      var last := w.builds[|w.builds| - 1];
      assert last.startedAt <= w.submissions[Seen(w.builds)].at;
    }
  }

  lemma EndKeepsBuilds(w: World, k: nat)
    requires Sound(w)
    ensures BuildsAreRight(Step(w, End(k))) && Seen(Step(w, End(k)).builds) == Seen(w.builds)
  {
  }

  lemma StepKeepsTimer(w: World, e: Event)
    requires Sound(w) && (e.Submit? || e.Fire?)
    ensures TimerIsRight(Step(w, e))
  {
  }

  lemma EndKeepsTimer(w: World, k: nat)
    requires Sound(w)
    ensures TimerIsRight(Step(w, End(k)))
  {
    EndKeepsBuilds(w, k);
    if k < |w.builds| && !w.builds[k].ended {
      var v := Step(w, End(k));
      assert forall i :: 0 <= i < |w.builds| ==> v.builds[i].startedAt == w.builds[i].startedAt;
    }
  }

  lemma StepKeepsSound(w: World, e: Event)
    requires Sound(w)
    ensures Sound(Step(w, e))
  {
    match e
    case Submit(_) => StepKeepsTimer(w, e);
    case Fire =>
      FireKeepsBuilds(w);
      StepKeepsTimer(w, e);
    case End(k) =>
      EndKeepsBuilds(w, k);
      EndKeepsTimer(w, k);
    case Pass(_) =>
  }

  lemma {:induction false} RunIsSound(cooldown: nat, events: seq<Event>)
    ensures Sound(Run(cooldown, events)) && Run(cooldown, events).cooldown == cooldown
    decreases |events|
  {
    if events != [] {
      RunIsSound(cooldown, events[..|events| - 1]);
      StepKeepsSound(Run(cooldown, events[..|events| - 1]), events[|events| - 1]);
    }
  }

  /** Builds never outnumber submissions, and any two starts are at least one cooldown apart. */
  lemma BuildsAreSpaced(cooldown: nat, events: seq<Event>)
    ensures var w := Run(cooldown, events);
            && |w.builds| <= |w.submissions|
            && forall k, l :: 0 <= k < l < |w.builds| ==> w.builds[k].startedAt + cooldown <= w.builds[l].startedAt
  {
    RunIsSound(cooldown, events);
    SeenCounts(Run(cooldown, events), |Run(cooldown, events).builds|);
  }

  lemma {:induction false} SeenCounts(w: World, n: nat)
    requires BuildsAreRight(w) && n <= |w.builds|
    ensures n > 0 ==> n <= w.builds[n - 1].seen
    decreases n
  {
    if n > 1 {
      SeenCounts(w, n - 1);
    }
  }

  /** A build that starts after a submission carries a payload submitted no earlier than it. */
  lemma PayloadIsFresh(cooldown: nat, events: seq<Event>, s: nat, k: nat)
    requires s < |Run(cooldown, events).submissions| && k < |Run(cooldown, events).builds|
    requires s < Run(cooldown, events).builds[k].seen
    ensures var w := Run(cooldown, events);
            exists i :: s <= i < |w.submissions| && w.builds[k].payload == Some(w.submissions[i].payload)
  {
    RunIsSound(cooldown, events);
    var w := Run(cooldown, events);
    var i := w.builds[k].seen - 1;
    assert s <= i < |w.submissions|;
  }

  /** Some build started after submission s. */
  ghost predicate Built(w: World, s: nat) {
    exists k :: 0 <= k < |w.builds| && w.builds[k].seen > s
  }

  /** Exactly while the timer is armed is there a submission without a build that started after it. */
  lemma UnbuiltIff(cooldown: nat, events: seq<Event>)
    ensures var w := Run(cooldown, events);
            w.fields.timer.Some? <==>
              exists s :: 0 <= s < |w.submissions| && !Built(w, s)
  {
    RunIsSound(cooldown, events);
    var w := Run(cooldown, events);
    if w.fields.timer.Some? {
      assert !Built(w, Seen(w.builds));
    } else if w.builds != [] {
      var k := |w.builds| - 1;
      assert w.builds[k].seen == |w.submissions|;
      assert forall s: nat :: s < |w.submissions| ==> Built(w, s);
    }
  }

  // ---- timely timers ----

  /** The timer never stays armed for more than `slack` after its moment. */
  ghost predicate Punctual(cooldown: nat, events: seq<Event>, slack: nat) {
    forall n :: 0 <= n <= |events| ==>
      var w := Run(cooldown, events[..n]);
      w.fields.timer.Some? ==> w.now <= w.fields.timer.value + slack
  }

  ghost predicate BuiltInTime(w: World, slack: nat, s: nat)
    requires s < |w.submissions|
  {
    exists k :: 0 <= k < |w.builds| && w.builds[k].seen > s && w.builds[k].startedAt <= w.submissions[s].at + w.cooldown + slack
  }

  lemma StillBuilt(w: World, e: Event, slack: nat, s: nat)
    requires s < |w.submissions| && BuiltInTime(w, slack, s)
    ensures s < |Step(w, e).submissions| && BuiltInTime(Step(w, e), slack, s)
  {
    var v := Step(w, e);
    var k :| 0 <= k < |w.builds| && w.builds[k].seen > s && w.builds[k].startedAt <= w.submissions[s].at + w.cooldown + slack;
    assert v.builds[k].seen > s && v.builds[k].startedAt == w.builds[k].startedAt;
  }

  lemma FireBuilds(w: World, slack: nat, s: nat)
    requires Sound(w) && !Waiting(w) && w.now <= w.fields.timer.value + slack
    requires Seen(w.builds) <= s < |w.submissions|
    ensures BuiltInTime(Step(w, Fire), slack, s)
  {
    var v := Step(w, Fire);
    var k := |w.builds|;
    assert v.builds[k] == Build(w.fields.latestPayload, w.now, |w.submissions|, false);
    assert w.submissions[Seen(w.builds)].at <= w.submissions[s].at;
  }

  lemma StepBuildsInTime(w: World, e: Event, slack: nat)
    requires Sound(w) && (w.fields.timer.Some? ==> w.now <= w.fields.timer.value + slack)
    requires forall s :: 0 <= s < Seen(w.builds) ==> BuiltInTime(w, slack, s)
    ensures Seen(Step(w, e).builds) <= |Step(w, e).submissions|
    ensures forall s :: 0 <= s < Seen(Step(w, e).builds) ==> BuiltInTime(Step(w, e), slack, s)
  {
    StepKeepsSound(w, e);
    if e.End? {
      EndKeepsBuilds(w, e.build);
    }
    hide BuiltInTime, Sound;
    forall s | 0 <= s < Seen(Step(w, e).builds)
      ensures BuiltInTime(Step(w, e), slack, s)
    {
      if s < Seen(w.builds) {
        StillBuilt(w, e, slack, s);
      } else {
        FireBuilds(w, slack, s);
      }
    }
  }

  lemma {:induction false} RunBuildsInTime(cooldown: nat, events: seq<Event>, slack: nat)
    requires Punctual(cooldown, events, slack)
    ensures Seen(Run(cooldown, events).builds) <= |Run(cooldown, events).submissions|
    ensures forall s :: 0 <= s < Seen(Run(cooldown, events).builds) ==> BuiltInTime(Run(cooldown, events), slack, s)
    decreases |events|
  {
    if events != [] {
      var before := events[..|events| - 1];
      assert forall n :: 0 <= n <= |before| ==> before[..n] == events[..n];
      RunBuildsInTime(cooldown, before, slack);
      RunIsSound(cooldown, before);
      assert events[..|events| - 1] == before;
      StepBuildsInTime(Run(cooldown, before), events[|events| - 1], slack);
    }
  }

  /** If timers fire within `slack`, every submission has a build that started after it and within
      cooldown + slack, as soon as that time is over. */
  lemma EverySubmissionIsBuilt(cooldown: nat, events: seq<Event>, slack: nat, s: nat)
    requires Punctual(cooldown, events, slack)
    requires s < |Run(cooldown, events).submissions|
    requires Run(cooldown, events).now > Run(cooldown, events).submissions[s].at + cooldown + slack
    ensures BuiltInTime(Run(cooldown, events), slack, s)
  {
    RunIsSound(cooldown, events);
    RunBuildsInTime(cooldown, events, slack);
    assert events[..|events|] == events;
    LateIsSeen(Run(cooldown, events), slack, s);
  }

  lemma LateIsSeen(w: World, slack: nat, s: nat)
    requires Sound(w) && (w.fields.timer.Some? ==> w.now <= w.fields.timer.value + slack)
    requires s < |w.submissions| && w.now > w.submissions[s].at + w.cooldown + slack
    ensures s < Seen(w.builds)
  {
  }

  // ---- drain ----

  predicate Busy(builds: seq<Build>) {
    exists k :: 0 <= k < |builds| && !builds[k].ended
  }

  /** No build starts while another is under way. */
  ghost predicate NoOverlap(cooldown: nat, events: seq<Event>) {
    forall n :: 0 <= n < |events| && events[n].Fire? ==> Waiting(Run(cooldown, events[..n])) || !Busy(Run(cooldown, events[..n]).builds)
  }

  ghost predicate FlagIsRight(w: World) {
    && (w.fields.running <==> Busy(w.builds))
    && (forall k, l :: 0 <= k < l < |w.builds| ==> w.builds[k].ended || w.builds[l].ended)
  }

  lemma StepKeepsFlag(w: World, e: Event)
    requires FlagIsRight(w) && (e.Fire? ==> Waiting(w) || !Busy(w.builds))
    ensures FlagIsRight(Step(w, e))
  {
    var v := Step(w, e);
    if e.Fire? && !Waiting(w) {
      assert !v.builds[|v.builds| - 1].ended;
    }
  }

  lemma {:induction false} RunKeepsFlag(cooldown: nat, events: seq<Event>)
    requires NoOverlap(cooldown, events)
    ensures FlagIsRight(Run(cooldown, events))
    decreases |events|
  {
    if events != [] {
      var before := events[..|events| - 1];
      assert forall n :: 0 <= n < |before| ==> before[..n] == events[..n] && before[n] == events[n];
      RunKeepsFlag(cooldown, before);
      StepKeepsFlag(Run(cooldown, before), events[|events| - 1]);
    }
  }

  /** As long as builds do not overlap, drain() returns exactly when every submission has a build that
      started after it and all builds have ended. */
  lemma DrainReturnsIff(cooldown: nat, events: seq<Event>)
    requires NoOverlap(cooldown, events)
    ensures var w := Run(cooldown, events);
            !Waits(w.fields) <==>
              && (forall k :: 0 <= k < |w.builds| ==> w.builds[k].ended)
              && (forall s :: 0 <= s < |w.submissions| ==> Built(w, s))
  {
    UnbuiltIff(cooldown, events);
    RunKeepsFlag(cooldown, events);
  }

  // ---- exactly when drain() is right ----

  /** drain() would return here exactly if all builds have ended and every submission has a build that
      started after it. */
  ghost predicate DrainIsRight(w: World) {
    !Waits(w.fields) <==>
      && !Busy(w.builds)
      && (forall s :: 0 <= s < |w.submissions| ==> Built(w, s))
  }

  /** The end of an unfinished build while the timer is disarmed and another build is under way. */
  ghost predicate EndsEarly(w: World, e: Event) {
    && e.End? && e.build < |w.builds| && !w.builds[e.build].ended && w.fields.timer.None?
    && exists l :: 0 <= l < |w.builds| && l != e.build && !w.builds[l].ended
  }

  /** With the timer disarmed, `running` means that some build is under way; it always implies it. */
  ghost predicate FlagFollows(w: World) {
    (w.fields.running ==> Busy(w.builds)) && (w.fields.timer.None? && Busy(w.builds) ==> w.fields.running)
  }

  lemma StepFlagFollowsIff(w: World, e: Event)
    requires FlagFollows(w)
    ensures FlagFollows(Step(w, e)) <==> !EndsEarly(w, e)
  {
    var v := Step(w, e);
    if e.Fire? && !Waiting(w) {
      assert !v.builds[|w.builds|].ended;
    } else if e.End? && e.build < |w.builds| && !w.builds[e.build].ended {
      EndLeavesOthers(w, e.build);
    }
  }

  lemma EndLeavesOthers(w: World, k: nat)
    requires k < |w.builds| && !w.builds[k].ended
    ensures Busy(Step(w, End(k)).builds) <==> exists l :: 0 <= l < |w.builds| && l != k && !w.builds[l].ended
  {
    var v := Step(w, End(k));
    if l :| 0 <= l < |w.builds| && l != k && !w.builds[l].ended {
      assert !v.builds[l].ended;
    }
    if Busy(v.builds) {
      var l :| 0 <= l < |v.builds| && !v.builds[l].ended;
      assert l != k && !w.builds[l].ended;
    }
  }

  lemma FlagMakesDrainRight(cooldown: nat, events: seq<Event>)
    ensures var w := Run(cooldown, events);
            (w.fields.running ==> Busy(w.builds)) ==> (DrainIsRight(w) <==> FlagFollows(w))
  {
    UnbuiltIff(cooldown, events);
  }

  ghost predicate AlwaysRight(cooldown: nat, events: seq<Event>) {
    forall n :: 0 <= n <= |events| ==> DrainIsRight(Run(cooldown, events[..n]))
  }

  ghost predicate NeverEndsEarly(cooldown: nat, events: seq<Event>) {
    forall n :: 0 <= n < |events| ==> !EndsEarly(Run(cooldown, events[..n]), events[n])
  }

  lemma PrefixStep(cooldown: nat, events: seq<Event>, n: nat)
    requires n < |events|
    ensures Run(cooldown, events[..n + 1]) == Step(Run(cooldown, events[..n]), events[n])
  {
    assert events[..n + 1][..n] == events[..n];
  }

  lemma {:induction false} RunningMeansBusy(cooldown: nat, events: seq<Event>)
    ensures Run(cooldown, events).fields.running ==> Busy(Run(cooldown, events).builds)
    decreases |events|
  {
    if events != [] {
      var w, e := Run(cooldown, events[..|events| - 1]), events[|events| - 1];
      RunningMeansBusy(cooldown, events[..|events| - 1]);
      if e.Fire? && !Waiting(w) {
        assert !Step(w, e).builds[|w.builds|].ended;
      }
    }
  }

  lemma {:induction false} FollowsUpTo(cooldown: nat, events: seq<Event>, n: nat)
    requires n <= |events| && NeverEndsEarly(cooldown, events)
    ensures FlagFollows(Run(cooldown, events[..n]))
    decreases n
  {
    if n > 0 {
      FollowsUpTo(cooldown, events, n - 1);
      PrefixStep(cooldown, events, n - 1);
      StepFlagFollowsIff(Run(cooldown, events[..n - 1]), events[n - 1]);
    }
  }

  /** drain() is right at every moment of a run exactly if no build ends early in it. */
  lemma DrainRightIff(cooldown: nat, events: seq<Event>)
    ensures AlwaysRight(cooldown, events) <==> NeverEndsEarly(cooldown, events)
  {
    hide Run, DrainIsRight, FlagFollows, EndsEarly, Busy;
    if NeverEndsEarly(cooldown, events) {
      forall n | 0 <= n <= |events| ensures DrainIsRight(Run(cooldown, events[..n])) {
        FollowsUpTo(cooldown, events, n);
        RunningMeansBusy(cooldown, events[..n]);
        FlagMakesDrainRight(cooldown, events[..n]);
      }
    } else {
      var n :| 0 <= n < |events| && EndsEarly(Run(cooldown, events[..n]), events[n]);
      RunningMeansBusy(cooldown, events[..n]);
      FlagMakesDrainRight(cooldown, events[..n]);
      RunningMeansBusy(cooldown, events[..n + 1]);
      FlagMakesDrainRight(cooldown, events[..n + 1]);
      PrefixStep(cooldown, events, n);
      if DrainIsRight(Run(cooldown, events[..n])) {
        StepFlagFollowsIff(Run(cooldown, events[..n]), events[n]);
        assert !DrainIsRight(Run(cooldown, events[..n + 1]));
      }
    }
  }

  /** If two builds overlap, the end of either one makes drain() return while the other still runs. */
  lemma OverlapBreaksDrain(w: World, k: nat, l: nat)
    requires k < |w.builds| && l < |w.builds| && k != l && !w.builds[k].ended && !w.builds[l].ended && w.fields.timer.None?
    ensures !Waits(Step(w, End(k)).fields) && Busy(Step(w, End(k)).builds)
  {
    assert !Step(w, End(k)).builds[l].ended;
  }

  /** Two builds that overlap, the first of which ends. */
  function OverlapRun(cooldown: nat): seq<Event> {
    [] + [Submit(0)] + [Pass(cooldown)] + [Fire] + [Submit(1)] + [Pass(cooldown)] + [Fire] + [End(0)]
  }

  lemma RunOneMore(cooldown: nat, events: seq<Event>, e: Event)
    ensures Run(cooldown, events + [e]) == Step(Run(cooldown, events), e)
  {
    assert (events + [e])[..|events|] == events;
  }

  /** Such a run: drain() returns although the second build has not ended. */
  lemma OverlapRunDrainsEarly(cooldown: nat)
    ensures var w := Run(cooldown, OverlapRun(cooldown));
            && !Waits(w.fields) && |w.builds| == 2 && w.builds[0].ended && !w.builds[1].ended
  {
    var r0: seq<Event> := [];
    var r1 := r0 + [Submit(0)];
    var r2 := r1 + [Pass(cooldown)];
    var r3 := r2 + [Fire];
    var r4 := r3 + [Submit(1)];
    var r5 := r4 + [Pass(cooldown)];
    var r6 := r5 + [Fire];
    RunOneMore(cooldown, r0, Submit(0));
    RunOneMore(cooldown, r1, Pass(cooldown));
    RunOneMore(cooldown, r2, Fire);
    RunOneMore(cooldown, r3, Submit(1));
    RunOneMore(cooldown, r4, Pass(cooldown));
    RunOneMore(cooldown, r5, Fire);
    RunOneMore(cooldown, r6, End(0));
    assert Run(cooldown, r0) == Start(cooldown);
    hide Run;
    var build0, build1 := Build(Some(0), cooldown, 1, false), Build(Some(1), cooldown + cooldown, 2, false);
    assert Run(cooldown, r3).builds == [build0];
    assert Run(cooldown, r6).builds == [build0, build1];
    assert Run(cooldown, r6 + [End(0)]).builds == [build0.(ended := true), build1];
  }

  // ---- the worker ----

  /** concurrency 1: the job in hand submits, then drains; the next one starts after that. */
  datatype Worker = Worker(world: World, job: Option<nat>)

  datatype WorkerEvent = TakeJob(payload: nat) | Poll | Elsewhere(event: Event)

  function WorkerStep(w: Worker, e: WorkerEvent): Worker {
    match e
    case TakeJob(payload) =>
      if w.job.Some? then w else Worker(Step(w.world, Submit(payload)), Some(|w.world.submissions|))
    case Poll => if w.job.Some? && !Waits(w.world.fields) then w.(job := None) else w
    case Elsewhere(event) => if event.Submit? then w else w.(world := Step(w.world, event))
  }

  function WorkerRun(cooldown: nat, events: seq<WorkerEvent>): Worker
    decreases |events|
  {
    if events == [] then Worker(Start(cooldown), None)
    else WorkerStep(WorkerRun(cooldown, events[..|events| - 1]), events[|events| - 1])
  }

  ghost predicate WorkerSound(w: Worker) {
    && Sound(w.world) && FlagIsRight(w.world)
    && (w.world.fields.timer.Some? ==> !Busy(w.world.builds))
    && (w.job.None? ==> !Waits(w.world.fields))
    && (w.job.Some? ==> w.job.value + 1 == |w.world.submissions|)
  }

  lemma WorkerStepKeeps(w: Worker, e: WorkerEvent)
    requires WorkerSound(w)
    ensures WorkerSound(WorkerStep(w, e))
  {
    var event := if e.TakeJob? then Submit(e.payload) else if e.Elsewhere? then e.event else Pass(0);
    StepKeepsSound(w.world, event);
    StepKeepsFlag(w.world, event);
  }

  lemma {:induction false} WorkerRunKeeps(cooldown: nat, events: seq<WorkerEvent>)
    ensures WorkerSound(WorkerRun(cooldown, events))
    decreases |events|
  {
    if events != [] {
      WorkerRunKeeps(cooldown, events[..|events| - 1]);
      WorkerStepKeeps(WorkerRun(cooldown, events[..|events| - 1]), events[|events| - 1]);
    }
  }

  /** When the worker's drain returns, a build that started after the job's submission, with the job's
      own payload, has ended, and no build is under way. */
  lemma DrainEndsTheJob(cooldown: nat, events: seq<WorkerEvent>)
    requires WorkerRun(cooldown, events).job.Some? && WorkerStep(WorkerRun(cooldown, events), Poll).job.None?
    ensures var w := WorkerRun(cooldown, events);
            && !Busy(w.world.builds)
            && w.job.value < |w.world.submissions|
            && exists k :: 0 <= k < |w.world.builds| && w.world.builds[k].ended && w.world.builds[k].seen == w.job.value + 1
                           && w.world.builds[k].payload == Some(w.world.submissions[w.job.value].payload)
  {
    WorkerRunKeeps(cooldown, events);
    var w := WorkerRun(cooldown, events);
    var k := |w.world.builds| - 1;
    assert w.world.builds[k].seen == w.job.value + 1;
  }
}
