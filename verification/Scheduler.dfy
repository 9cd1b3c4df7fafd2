/** The GPU reconstruction scheduler: one poll handles the active job, or promotes a queued one, or
    counts towards stopping an idle instance. */
module Scheduler {
  import opened Options

  datatype JobState = NoJob | Queued | Starting | Running | JobFailed | JobDone

  datatype Asset = Asset(processing: bool, job: JobState, command: Option<nat>, startedAt: Option<int>, attempts: nat)

  datatype Settings = Settings(maxAttempts: nat, jobTimeout: nat, startTimeout: nat, grace: nat, backoff: nat, keepWarm: bool)

  datatype State = State(assets: seq<Asset>, emptyTicks: nat, nextStartAt: int, successSeen: map<nat, int>)

  datatype InstanceState = Stopped | Up | Changing | DescribeThrows

  datatype StartResult = StartOk | NoCapacity | StartThrows

  datatype CommandStatus = Success | CommandFailed | InProgress | Lost

  /** What the clock and the GPU service would answer during one poll; None throws. */
  datatype World = World(
    now: int,
    instance: InstanceState,
    start: StartResult,
    online: Option<bool>,
    send: Option<nat>,
    command: CommandStatus,
    stops: bool)

  datatype Effect = NoEffect | Started | Dispatched(asset: nat) | StopRequested

  predicate Active(a: Asset) {
    a.job == Starting || a.job == Running
  }

  predicate Waiting(a: Asset) {
    a.processing && (a.job == NoJob || a.job == Queued)
  }

  function FindActive(assets: seq<Asset>): (k: Option<nat>)
    ensures k.Some? ==> k.value < |assets| && Active(assets[k.value])
    ensures k.None? ==> forall j :: 0 <= j < |assets| ==> !Active(assets[j])
  {
    if assets == [] then None
    else if Active(assets[|assets| - 1]) then Some(|assets| - 1)
    else FindActive(assets[..|assets| - 1])
  }

  /** The oldest waiting asset. */
  function FindWaiting(assets: seq<Asset>): (k: Option<nat>)
    ensures k.Some? ==> k.value < |assets| && Waiting(assets[k.value])
    ensures k.Some? ==> forall j :: 0 <= j < k.value ==> !Waiting(assets[j])
    ensures k.None? ==> forall j :: 0 <= j < |assets| ==> !Waiting(assets[j])
  {
    if assets == [] then None
    else
      var first := FindWaiting(assets[..|assets| - 1]);
      if first.Some? then first
      else if Waiting(assets[|assets| - 1]) then Some(|assets| - 1) else None
  }

  function Elapsed(a: Asset, now: int): int {
    if a.startedAt.Some? then now - a.startedAt.value else 0
  }

  function WithAsset(s: State, k: nat, a: Asset): State
    requires k < |s.assets|
  {
    s.(assets := s.assets[k := a])
  }

  function Forget(s: State, k: nat): State {
    s.(successSeen := s.successSeen - {k})
  }

  function FailJob(s: State, k: nat): State
    requires k < |s.assets|
  {
    WithAsset(Forget(s, k), k, s.assets[k].(processing := false, job := JobFailed))
  }

  function Requeue(s: State, k: nat): State
    requires k < |s.assets|
  {
    WithAsset(Forget(s, k), k, s.assets[k].(job := Queued, command := None, startedAt := None))
  }

  function HandleStarting(c: Settings, s: State, k: nat, w: World): (State, Effect)
    requires k < |s.assets|
  {
    var a := s.assets[k];
    if Elapsed(a, w.now) > c.startTimeout then (FailJob(s, k), NoEffect)
    else if w.online != Some(true) || w.send.None? then (s, NoEffect)
    else (WithAsset(s, k, a.(job := Running, command := w.send, startedAt := Some(w.now), attempts := a.attempts + 1)), Dispatched(k))
  }

  function HandleRunning(c: Settings, s: State, k: nat, w: World): (State, Effect)
    requires k < |s.assets|
  {
    var a := s.assets[k];
    if Elapsed(a, w.now) > c.jobTimeout then (FailJob(s, k), NoEffect)
    else if a.command.None? then (Requeue(s, k), NoEffect)
    else
      match w.command
      case Lost => (Requeue(s, k), NoEffect)
      case Success =>
        if k !in s.successSeen then (s.(successSeen := s.successSeen[k := w.now]), NoEffect)
        else if w.now - s.successSeen[k] > c.grace then (FailJob(s, k), NoEffect)
        else (s, NoEffect)
      case CommandFailed => if a.attempts < c.maxAttempts then (Requeue(s, k), NoEffect) else (FailJob(s, k), NoEffect)
      case InProgress => (Forget(s, k), NoEffect)
  }

  function MaybeIdleStop(c: Settings, s: State, w: World): (State, Effect) {
    if w.instance == DescribeThrows then (s, NoEffect)
    else if w.instance != Up || c.keepWarm then (s.(emptyTicks := 0), NoEffect)
    else if s.emptyTicks + 1 >= 2 then (s.(emptyTicks := if w.stops then 0 else s.emptyTicks + 1), StopRequested)
    else (s.(emptyTicks := s.emptyTicks + 1), NoEffect)
  }

  function Promote(s: State, k: nat, w: World): (State, Effect)
    requires k < |s.assets|
  {
    var promoted := s.assets[k].(job := Starting, startedAt := Some(w.now));
    match w.instance
    case Stopped =>
      if w.now < s.nextStartAt then (s, NoEffect)
      else
        (match w.start
         case StartOk => (WithAsset(s, k, promoted).(nextStartAt := 0), Started)
         case NoCapacity => (s, NoEffect)
         case StartThrows => (s, NoEffect))
    case Up => (WithAsset(s, k, promoted), NoEffect)
    case Changing | DescribeThrows => (s, NoEffect)
  }

  /** No capacity only delays the next start; it costs no attempt. */
  function BackedOff(c: Settings, s: State, w: World): State {
    if w.instance == Stopped && w.now >= s.nextStartAt && w.start == NoCapacity then s.(nextStartAt := w.now + c.backoff) else s
  }

  function Tick(c: Settings, s: State, w: World): (State, Effect) {
    var active := FindActive(s.assets);
    if active.Some? then
      var s := s.(emptyTicks := 0);
      if s.assets[active.value].job == Running then HandleRunning(c, s, active.value, w) else HandleStarting(c, s, active.value, w)
    else
      var waiting := FindWaiting(s.assets);
      if waiting.None? then MaybeIdleStop(c, s, w)
      else
        var s := s.(emptyTicks := 0);
        var next := Promote(s, waiting.value, w);
        (BackedOff(c, next.0, w), next.1)
  }

  // ---- runs

  /** Between polls an asset may be uploaded, and a worker's callback may finish one. */
  datatype Event = Poll(world: World) | Uploaded | CalledBack(asset: nat)

  datatype Sight = Work | Idle | Unclear

  /** The state together with what a run has seen: the time of the last poll; for each asset the polls
      at which it was active (in all and in its present phase), the command lookups that were lost
      after its attempts were used up, and how many of these came before its last dispatch; and for
      each poll whether it saw work. */
  datatype Watched = Watched(
    state: State,
    clock: Option<int>,
    total: seq<nat>,
    phase: seq<nat>,
    late: seq<nat>,
    overdrawn: seq<nat>,
    sights: seq<Sight>,
    stops: nat)

  const FRESH := Watched(State([], 0, 0, map[]), None, [], [], [], [], [], 0)

  predicate Columns(x: Watched) {
    |x.total| == |x.phase| == |x.late| == |x.overdrawn| == |x.state.assets|
  }

  function SightOf(c: Settings, s: State, w: World): Sight {
    if FindActive(s.assets).Some? || FindWaiting(s.assets).Some? then Work
    else if w.instance == Up && !c.keepWarm then Idle else Unclear
  }

  /** A lost lookup requeues the job without looking at its attempts; here they are used up. */
  predicate LosesLate(c: Settings, s: State, k: nat, w: World)
    requires k < |s.assets|
  {
    && s.assets[k].job == Running && Elapsed(s.assets[k], w.now) <= c.jobTimeout && w.command == Lost
    && s.assets[k].attempts >= c.maxAttempts
  }

  function Polled(c: Settings, x: Watched, w: World): (y: Watched)
    requires Columns(x)
    ensures Columns(y) && |y.state.assets| == |x.state.assets|
  {
    var next := Tick(c, x.state, w);
    var k := FindActive(x.state.assets);
    var y := Watched(next.0, Some(w.now), x.total, x.phase, x.late, x.overdrawn, x.sights + [SightOf(c, x.state, w)],
                     x.stops + if next.1 == StopRequested then 1 else 0);
    if k.None? then
      var p := FindWaiting(x.state.assets);
      if p.Some? then y.(phase := x.phase[p.value := 0]) else y
    else
      y.(total := x.total[k.value := x.total[k.value] + 1],
         phase := x.phase[k.value := if next.1.Dispatched? then 0 else x.phase[k.value] + 1],
         late := x.late[k.value := x.late[k.value] + if LosesLate(c, x.state, k.value, w) then 1 else 0],
         overdrawn := if next.1.Dispatched? then x.overdrawn[k.value := x.late[k.value]] else x.overdrawn)
  }

  function Happens(c: Settings, x: Watched, e: Event): (y: Watched)
    requires Columns(x)
    ensures Columns(y)
  {
    match e
    case Poll(w) => Polled(c, x, w)
    case Uploaded =>
      x.(state := x.state.(assets := x.state.assets + [Asset(true, NoJob, None, None, 0)]),
         total := x.total + [0], phase := x.phase + [0], late := x.late + [0], overdrawn := x.overdrawn + [0])
    case CalledBack(k) =>
      if k < |x.state.assets| then x.(state := WithAsset(x.state, k, x.state.assets[k].(processing := false, job := JobDone))) else x
  }

  function Run(c: Settings, events: seq<Event>): (x: Watched)
    ensures Columns(x)
  {
    if events == [] then FRESH else Happens(c, Run(c, events[..|events| - 1]), events[|events| - 1])
  }

  /** Polls are at least one interval apart. */
  predicate Paced(c: Settings, events: seq<Event>, interval: nat) {
    events != [] ==>
      var n := |events| - 1;
      && Paced(c, events[..n], interval)
      && (events[n].Poll? && Run(c, events[..n]).clock.Some? ==> events[n].world.now >= Run(c, events[..n]).clock.value + interval)
  }
}

/** Serial use, bounded attempts and bounded time of the scheduler, over all runs. */
module SchedulerProofs {
  import opened Options
  import opened Scheduler

  // ---- bounds

  /** What the attempts allow: the first dispatch is not checked against them. */
  function Budget(c: Settings): nat {
    if c.maxAttempts == 0 then 1 else c.maxAttempts
  }

  /** Polls that a start, or a running job, can last. */
  function StartPolls(c: Settings, interval: nat): nat
    requires interval > 0
  {
    c.startTimeout / interval + 1
  }

  function JobPolls(c: Settings, interval: nat): nat
    requires interval > 0
  {
    c.jobTimeout / interval + 1
  }

  function Cycles(c: Settings, interval: nat, n: nat): nat
    requires interval > 0
  {
    n * (StartPolls(c, interval) + JobPolls(c, interval))
  }

  lemma CyclesGrow(c: Settings, interval: nat, n: nat, m: nat)
    requires interval > 0 && n < m
    ensures Cycles(c, interval, n) + StartPolls(c, interval) + JobPolls(c, interval) <= Cycles(c, interval, m)
  {
    var size := StartPolls(c, interval) + JobPolls(c, interval);
    assert (m - n - 1) * size >= 0;
    assert m * size == n * size + (m - n - 1) * size + size;
  }

  lemma PhaseFits(phase: nat, interval: nat, timeout: nat)
    requires interval > 0 && phase * interval <= timeout
    ensures phase <= timeout / interval
  {
    var q := timeout / interval;
    assert timeout < (q + 1) * interval;
    assert phase <= q || phase * interval >= (q + 1) * interval;
  }

  // ---- the invariant of one asset

  /** How long the asset has been in its phase, in polls and on the clock. */
  predicate Timed(a: Asset, clock: Option<int>, phase: nat, interval: nat, timeout: nat) {
    && a.startedAt.Some? && clock.Some?
    && phase * interval <= clock.value - a.startedAt.value
    && (phase > 0 ==> clock.value - a.startedAt.value <= timeout)
  }

  predicate AssetOk(c: Settings, interval: nat, a: Asset, clock: Option<int>, total: nat, phase: nat, late: nat)
    requires interval > 0
  {
    match a.job
    case NoJob | Queued => a.attempts < Budget(c) + late && total <= Cycles(c, interval, a.attempts)
    case Starting =>
      && a.attempts < Budget(c) + late && Timed(a, clock, phase, interval, c.startTimeout)
      && total <= Cycles(c, interval, a.attempts) + phase
    case Running =>
      && 1 <= a.attempts <= Budget(c) + late && a.command.Some? && Timed(a, clock, phase, interval, c.jobTimeout)
      && total <= Cycles(c, interval, a.attempts - 1) + StartPolls(c, interval) + phase
    case JobFailed | JobDone => a.attempts <= Budget(c) + late && total <= Cycles(c, interval, Budget(c) + late)
  }

  predicate OneActive(assets: seq<Asset>) {
    forall j, k :: 0 <= j < k < |assets| && Active(assets[j]) ==> !Active(assets[k])
  }

  /** Idle polls since the last one that saw work. */
  function IdlePolls(sights: seq<Sight>): nat {
    if sights == [] then 0
    else
      match sights[|sights| - 1]
      case Work => 0
      case Idle => IdlePolls(sights[..|sights| - 1]) + 1
      case Unclear => IdlePolls(sights[..|sights| - 1])
  }

  predicate WatchedOk(c: Settings, interval: nat, x: Watched)
    requires interval > 0 && Columns(x)
  {
    && OneActive(x.state.assets)
    && (forall k :: 0 <= k < |x.state.assets| ==>
          AssetOk(c, interval, x.state.assets[k], x.clock, x.total[k], x.phase[k], x.late[k]))
  }

  // ---- one poll of the active asset

  lemma PhaseAdvances(a: Asset, clock: Option<int>, phase: nat, interval: nat, timeout: nat, now: int)
    requires interval > 0 && Timed(a, clock, phase, interval, timeout) && now >= clock.value + interval
    ensures phase <= timeout / interval
    ensures now - a.startedAt.value <= timeout ==> Timed(a, Some(now), phase + 1, interval, timeout)
  {
    assert (phase + 1) * interval == phase * interval + interval;
    if phase > 0 {
      PhaseFits(phase, interval, timeout);
    }
  }

  lemma StartingPolled(c: Settings, interval: nat, s: State, k: nat, w: World, clock: Option<int>, total: nat, phase: nat, late: nat)
    requires interval > 0 && k < |s.assets| && s.assets[k].job == Starting
    requires AssetOk(c, interval, s.assets[k], clock, total, phase, late) && w.now >= clock.value + interval
    ensures var next := HandleStarting(c, s, k, w);
            AssetOk(c, interval, next.0.assets[k], Some(w.now), total + 1, if next.1.Dispatched? then 0 else phase + 1, late)
  {
    hide Cycles, StartPolls, JobPolls, Timed;
    var a := s.assets[k];
    TimedHasClock(a, clock, phase, interval, c.startTimeout);
    PhaseAdvances(a, clock, phase, interval, c.startTimeout, w.now);
    StartFits(c, interval, phase);
    CyclesGrow(c, interval, a.attempts, Budget(c) + late);
    DispatchIsTimed(a.(startedAt := Some(w.now), job := Running, command := w.send, attempts := a.attempts + 1), w.now, interval, c.jobTimeout);
  }

  lemma TimedHasClock(a: Asset, clock: Option<int>, phase: nat, interval: nat, timeout: nat)
    requires Timed(a, clock, phase, interval, timeout)
    ensures a.startedAt.Some? && clock.Some?
  {
  }

  lemma StartFits(c: Settings, interval: nat, phase: nat)
    requires interval > 0
    ensures phase <= c.startTimeout / interval ==> phase + 1 <= StartPolls(c, interval)
    ensures phase <= c.jobTimeout / interval ==> phase + 1 <= JobPolls(c, interval)
  {
  }

  lemma DispatchIsTimed(a: Asset, now: int, interval: nat, timeout: nat)
    requires a.startedAt == Some(now)
    ensures Timed(a, Some(now), 0, interval, timeout)
  {
  }

  lemma RunningPolled(c: Settings, interval: nat, s: State, k: nat, w: World, clock: Option<int>, total: nat, phase: nat, late: nat)
    requires interval > 0 && k < |s.assets| && s.assets[k].job == Running
    requires AssetOk(c, interval, s.assets[k], clock, total, phase, late) && w.now >= clock.value + interval
    ensures var next := HandleRunning(c, s, k, w);
            var late' := late + if LosesLate(c, s, k, w) then 1 else 0;
            AssetOk(c, interval, next.0.assets[k], Some(w.now), total + 1, phase + 1, late')
  {
    hide Cycles, StartPolls, JobPolls, Timed;
    var a := s.assets[k];
    var late' := late + if LosesLate(c, s, k, w) then 1 else 0;
    TimedHasClock(a, clock, phase, interval, c.jobTimeout);
    PhaseAdvances(a, clock, phase, interval, c.jobTimeout, w.now);
    StartFits(c, interval, phase);
    CyclesGrow(c, interval, a.attempts - 1, a.attempts);
    CyclesReach(c, interval, a.attempts, Budget(c) + late');
  }

  lemma CyclesReach(c: Settings, interval: nat, n: nat, m: nat)
    requires interval > 0 && n <= m
    ensures Cycles(c, interval, n) <= Cycles(c, interval, m)
  {
    hide Cycles;
    if n < m {
      CyclesGrow(c, interval, n, m);
    }
  }

  // ---- every event

  lemma OthersUntouched(c: Settings, s: State, w: World)
    ensures var next := Tick(c, s, w).0;
            && |next.assets| == |s.assets|
            && (FindActive(s.assets).Some? ==>
                  forall j :: 0 <= j < |s.assets| && j != FindActive(s.assets).value ==> next.assets[j] == s.assets[j])
            && (FindActive(s.assets).None? && FindWaiting(s.assets).Some? ==>
                  forall j :: 0 <= j < |s.assets| && j != FindWaiting(s.assets).value ==> next.assets[j] == s.assets[j])
            && (FindActive(s.assets).None? && FindWaiting(s.assets).None? ==> next.assets == s.assets)
  {
  }

  /** An asset that is not active does not depend on the clock or its phase. */
  lemma RestingOk(c: Settings, interval: nat, a: Asset, clock: Option<int>, clock': Option<int>, total: nat, phase: nat, phase': nat, late: nat)
    requires interval > 0 && AssetOk(c, interval, a, clock, total, phase, late) && !Active(a)
    ensures AssetOk(c, interval, a, clock', total, phase', late)
  {
  }

  lemma ActivePolled(c: Settings, interval: nat, x: Watched, w: World)
    requires interval > 0 && Columns(x) && WatchedOk(c, interval, x)
    requires FindActive(x.state.assets).Some? && (x.clock.Some? ==> w.now >= x.clock.value + interval)
    ensures WatchedOk(c, interval, Polled(c, x, w))
  {
    hide AssetOk, Timed;
    var k := FindActive(x.state.assets).value;
    var y := Polled(c, x, w);
    var s := x.state.(emptyTicks := 0);
    OthersUntouched(c, x.state, w);
    assert x.clock.Some? by { ActiveHasClock(c, interval, x.state.assets[k], x.clock, x.total[k], x.phase[k], x.late[k]); }
    if x.state.assets[k].job == Running {
      RunningPolled(c, interval, s, k, w, x.clock, x.total[k], x.phase[k], x.late[k]);
    } else {
      StartingPolled(c, interval, s, k, w, x.clock, x.total[k], x.phase[k], x.late[k]);
    }
    forall j | 0 <= j < |y.state.assets| ensures AssetOk(c, interval, y.state.assets[j], y.clock, y.total[j], y.phase[j], y.late[j]) {
      if j != k {
        assert !Active(x.state.assets[j]);
        RestingOk(c, interval, x.state.assets[j], x.clock, y.clock, x.total[j], x.phase[j], x.phase[j], x.late[j]);
      }
    }
  }

  lemma ActiveHasClock(c: Settings, interval: nat, a: Asset, clock: Option<int>, total: nat, phase: nat, late: nat)
    requires interval > 0 && AssetOk(c, interval, a, clock, total, phase, late) && Active(a)
    ensures clock.Some?
  {
  }

  lemma RestPolled(c: Settings, interval: nat, x: Watched, w: World)
    requires interval > 0 && Columns(x) && WatchedOk(c, interval, x)
    requires FindActive(x.state.assets).None?
    ensures WatchedOk(c, interval, Polled(c, x, w))
  {
    hide AssetOk, Timed;
    var y := Polled(c, x, w);
    var p := FindWaiting(x.state.assets);
    OthersUntouched(c, x.state, w);
    forall j | 0 <= j < |y.state.assets| ensures AssetOk(c, interval, y.state.assets[j], y.clock, y.total[j], y.phase[j], y.late[j]) {
      RestingOk(c, interval, x.state.assets[j], x.clock, y.clock, x.total[j], x.phase[j], y.phase[j], x.late[j]);
      if p == Some(j) && y.state.assets[j] != x.state.assets[j] {
        PromotedOk(c, interval, x.state.assets[j], w.now, x.total[j], x.late[j], x.clock, x.phase[j]);
      }
    }
  }

  lemma PromotedOk(c: Settings, interval: nat, a: Asset, now: int, total: nat, late: nat, clock: Option<int>, phase: nat)
    requires interval > 0 && AssetOk(c, interval, a, clock, total, phase, late) && Waiting(a)
    ensures AssetOk(c, interval, a.(job := Starting, startedAt := Some(now)), Some(now), total, 0, late)
  {
  }

  lemma CalledBackOk(c: Settings, interval: nat, a: Asset, clock: Option<int>, total: nat, phase: nat, late: nat)
    requires interval > 0 && AssetOk(c, interval, a, clock, total, phase, late)
    ensures AssetOk(c, interval, a.(processing := false, job := JobDone), clock, total, phase, late)
  {
    hide Cycles, StartPolls, JobPolls;
    StartFits(c, interval, phase);
    if a.attempts < Budget(c) + late {
      CyclesGrow(c, interval, a.attempts, Budget(c) + late);
    }
    if a.job == Starting {
      PhaseFits(phase, interval, if phase > 0 then c.startTimeout else 0);
    }
    if a.job == Running {
      PhaseFits(phase, interval, if phase > 0 then c.jobTimeout else 0);
      CyclesGrow(c, interval, a.attempts - 1, a.attempts);
    }
  }

  lemma HappensKeeps(c: Settings, interval: nat, x: Watched, e: Event)
    requires interval > 0
    requires Columns(x) && WatchedOk(c, interval, x)
    requires e.Poll? && x.clock.Some? ==> e.world.now >= x.clock.value + interval
    ensures WatchedOk(c, interval, Happens(c, x, e))
  {
    hide AssetOk, Polled;
    match e
    case Poll(w) =>
      if FindActive(x.state.assets).Some? {
        ActivePolled(c, interval, x, w);
      } else {
        RestPolled(c, interval, x, w);
      }
    case Uploaded => assert AssetOk(c, interval, Asset(true, NoJob, None, None, 0), x.clock, 0, 0, 0) by { UploadedOk(c, interval, x.clock); }
    case CalledBack(k) =>
      if k < |x.state.assets| {
        CalledBackOk(c, interval, x.state.assets[k], x.clock, x.total[k], x.phase[k], x.late[k]);
      }
  }

  lemma UploadedOk(c: Settings, interval: nat, clock: Option<int>)
    requires interval > 0
    ensures AssetOk(c, interval, Asset(true, NoJob, None, None, 0), clock, 0, 0, 0)
  {
  }

  lemma {:induction false} RunKeeps(c: Settings, interval: nat, events: seq<Event>)
    requires interval > 0 && Paced(c, events, interval)
    ensures WatchedOk(c, interval, Run(c, events))
  {
    hide Happens, AssetOk;
    if events == [] {
    } else {
      RunKeeps(c, interval, events[..|events| - 1]);
      HappensKeeps(c, interval, Run(c, events[..|events| - 1]), events[|events| - 1]);
    }
  }

  // ---- attempts

  /** How far n dispatches go past the attempts. */
  function Over(c: Settings, n: nat): nat {
    if n > Budget(c) then n - Budget(c) else 0
  }

  /** Each late loss buys exactly one more dispatch. */
  predicate Spent(c: Settings, a: Asset, late: nat, overdrawn: nat) {
    && overdrawn == Over(c, a.attempts)
    && match a.job
       case NoJob | Queued | Starting => late == Over(c, a.attempts + 1)
       case Running => a.attempts >= 1 && a.command.Some? && late == Over(c, a.attempts)
       case JobFailed | JobDone => Over(c, a.attempts) <= late <= Over(c, a.attempts + 1)
  }

  predicate AllSpent(c: Settings, x: Watched)
    requires Columns(x)
  {
    forall k :: 0 <= k < |x.state.assets| ==> Spent(c, x.state.assets[k], x.late[k], x.overdrawn[k])
  }

  lemma PolledSpends(c: Settings, x: Watched, w: World)
    requires Columns(x) && AllSpent(c, x)
    ensures AllSpent(c, Polled(c, x, w))
  {
    var y := Polled(c, x, w);
    OthersUntouched(c, x.state, w);
    forall j | 0 <= j < |y.state.assets| ensures Spent(c, y.state.assets[j], y.late[j], y.overdrawn[j]) {
      assert Spent(c, x.state.assets[j], x.late[j], x.overdrawn[j]);
    }
  }

  lemma {:induction false} RunSpends(c: Settings, events: seq<Event>)
    ensures AllSpent(c, Run(c, events))
  {
    hide Spent, Polled;
    if events == [] {
    } else {
      var x := Run(c, events[..|events| - 1]);
      RunSpends(c, events[..|events| - 1]);
      match events[|events| - 1]
      case Poll(w) => PolledSpends(c, x, w);
      case Uploaded => UploadedSpends(c);
      case CalledBack(k) =>
        if k < |x.state.assets| {
          CalledBackSpends(c, x.state.assets[k], x.late[k], x.overdrawn[k]);
        }
    }
  }

  lemma UploadedSpends(c: Settings)
    ensures Spent(c, Asset(true, NoJob, None, None, 0), 0, 0)
  {
  }

  lemma CalledBackSpends(c: Settings, a: Asset, late: nat, overdrawn: nat)
    requires Spent(c, a, late, overdrawn)
    ensures Spent(c, a.(processing := false, job := JobDone), late, overdrawn)
  {
  }

  // ---- the results

  /** The scheduler uses the instance for one asset at a time, whatever the clock does. */
  lemma {:induction false} SerialUse(c: Settings, events: seq<Event>, j: nat, k: nat)
    ensures var assets := Run(c, events).state.assets;
            j < |assets| && k < |assets| && Active(assets[j]) && Active(assets[k]) ==> j == k
  {
    OneActiveAlways(c, events);
  }

  lemma {:induction false} OneActiveAlways(c: Settings, events: seq<Event>)
    ensures OneActive(Run(c, events).state.assets)
  {
    if events == [] {
    } else {
      var x := Run(c, events[..|events| - 1]);
      OneActiveAlways(c, events[..|events| - 1]);
      match events[|events| - 1]
      case Poll(w) => OthersUntouched(c, x.state, w);
      case Uploaded =>
      case CalledBack(k) =>
    }
  }

  /** Exactly when an asset is dispatched more often than its attempts allow, whatever the clock does:
      once for each command lookup that was lost after the attempts were used up and was followed by
      another dispatch. A lookup lost earlier uses up an attempt like any other failure. */
  lemma AttemptsAreExact(c: Settings, events: seq<Event>, k: nat)
    ensures var x := Run(c, events);
            k < |x.state.assets| ==>
              var a := x.state.assets[k];
              && (a.attempts > Budget(c) <==> x.overdrawn[k] > 0)
              && (a.attempts > Budget(c) ==> a.attempts == Budget(c) + x.overdrawn[k])
              && (Waiting(a) || a.job == Starting ==> x.late[k] == Over(c, a.attempts + 1))
              && (a.job == Running ==> x.late[k] == x.overdrawn[k])
              && x.overdrawn[k] <= x.late[k] <= x.overdrawn[k] + 1
  {
    hide Run;
    RunSpends(c, events);
    var x := Run(c, events);
    if k < |x.state.assets| {
      assert Spent(c, x.state.assets[k], x.late[k], x.overdrawn[k]);
    }
  }

  /** While polls keep their interval, an asset is active for at most as many cycles of the two
      timeouts as it may be dispatched. */
  lemma ActiveTimeIsBounded(c: Settings, interval: nat, events: seq<Event>, k: nat)
    requires interval > 0 && Paced(c, events, interval)
    ensures var x := Run(c, events);
            k < |x.state.assets| ==>
              x.total[k] <= (Budget(c) + x.late[k]) * (c.startTimeout / interval + 1 + c.jobTimeout / interval + 1)
  {
    hide Run;
    RunKeeps(c, interval, events);
    var x := Run(c, events);
    if k < |x.state.assets| {
      var a := x.state.assets[k];
      CalledBackOk(c, interval, a, x.clock, x.total[k], x.phase[k], x.late[k]);
    }
  }

  /** How often a run has dispatched an asset. */
  function Dispatches(c: Settings, events: seq<Event>, k: nat): nat {
    if events == [] then 0
    else
      var n := |events| - 1;
      var now := events[n].Poll? && Tick(c, Run(c, events[..n]).state, events[n].world).1 == Dispatched(k);
      Dispatches(c, events[..n], k) + if now then 1 else 0
  }

  /** The attempts of an asset are its dispatches. */
  lemma {:induction false} AttemptsCountDispatches(c: Settings, events: seq<Event>, k: nat)
    ensures var assets := Run(c, events).state.assets;
            Dispatches(c, events, k) == if k < |assets| then assets[k].attempts else 0
  {
    hide Tick, Polled;
    if events == [] {
    } else {
      var n := |events| - 1;
      AttemptsCountDispatches(c, events[..n], k);
      if events[n].Poll? {
        PollDispatches(c, Run(c, events[..n]), events[n].world, k);
      }
    }
  }

  lemma PollDispatches(c: Settings, x: Watched, w: World, k: nat)
    requires Columns(x)
    ensures var before, after := x.state.assets, Polled(c, x, w).state.assets;
            var now := if Tick(c, x.state, w).1 == Dispatched(k) then 1 else 0;
            (if k < |after| then after[k].attempts else 0) == (if k < |before| then before[k].attempts else 0) + now
  {
    OthersUntouched(c, x.state, w);
  }

  /** A stop is asked for only when this poll and an earlier one found the instance up with
      nothing active or queued, and no poll between them saw any. */
  lemma StopNeedsTwoIdlePolls(c: Settings, events: seq<Event>, w: World)
    ensures var x := Run(c, events);
            Tick(c, x.state, w).1 == StopRequested ==> SightOf(c, x.state, w) == Idle && IdlePolls(x.sights) >= 1
  {
    hide Run;
    IdleTicksAreSeen(c, events);
  }

  lemma {:induction false} IdleTicksAreSeen(c: Settings, events: seq<Event>)
    ensures var x := Run(c, events); x.state.emptyTicks <= IdlePolls(x.sights)
  {
    hide Polled;
    if events == [] {
    } else {
      var n := |events| - 1;
      IdleTicksAreSeen(c, events[..n]);
      if events[n].Poll? {
        PollSeesIdleTicks(c, Run(c, events[..n]), events[n].world);
      }
    }
  }

  lemma PollSeesIdleTicks(c: Settings, x: Watched, w: World)
    requires Columns(x) && x.state.emptyTicks <= IdlePolls(x.sights)
    ensures var y := Polled(c, x, w); y.state.emptyTicks <= IdlePolls(y.sights)
  {
    assert Polled(c, x, w).sights[..|x.sights|] == x.sights;
  }

  /** What IdlePolls counts: with one, some poll was idle and no later one saw work. */
  lemma {:induction false} IdlePollsMean(sights: seq<Sight>)
    ensures IdlePolls(sights) >= 1 <==>
            exists p :: 0 <= p < |sights| && sights[p] == Idle && forall q :: p < q < |sights| ==> sights[q] != Work
  {
    if sights == [] {
    } else {
      var n := |sights| - 1;
      IdlePollsMean(sights[..n]);
      if IdlePolls(sights[..n]) >= 1 {
        var p :| 0 <= p < n && sights[..n][p] == Idle && forall q :: p < q < n ==> sights[..n][q] != Work;
        assert sights[p] == Idle && forall q :: p < q < n ==> sights[q] != Work;
      }
      assert sights[n] == Idle ==> IdlePolls(sights) >= 1;
      if p :| 0 <= p < |sights| && sights[p] == Idle && forall q :: p < q < |sights| ==> sights[q] != Work {
        if p < n {
          assert sights[..n][p] == Idle && forall q :: p < q < n ==> sights[..n][q] != Work;
        }
      }
    }
  }

  lemma RunNext(c: Settings, events: seq<Event>, e: Event)
    ensures Run(c, events + [e]) == Happens(c, Run(c, events), e)
  {
    hide Happens;
    assert (events + [e])[..|events|] == events;
  }

  const LOSING := World(0, Up, StartOk, Some(true), Some(7), Lost, true)

  /** An upload, and n times the three polls that promote it, dispatch it and lose its command. */
  function Losses(n: nat): seq<Event> {
    if n == 0 then [Uploaded] else Losses(n - 1) + [Poll(LOSING)] + [Poll(LOSING)] + [Poll(LOSING)]
  }

  /** Nothing but late losses bounds the dispatches: whatever the settings and for every n, some run
      dispatches one asset n times and then queues it again. */
  lemma {:induction false} LostLookupOverspends(c: Settings, n: nat)
    ensures var x := Run(c, Losses(n));
            && x.state.assets == [Asset(true, if n == 0 then NoJob else Queued, None, None, n)]
            && x.late == [Over(c, n + 1)]
  {
    hide Happens, Polled, Run, AllSpent;
    if n == 0 {
      FirstUpload(c);
    } else {
      var before := Losses(n - 1);
      var e := Poll(LOSING);
      LostLookupOverspends(c, n - 1);
      RunNext(c, before, e);
      RunNext(c, before + [e], e);
      RunNext(c, before + [e] + [e], e);
      PollsAre(c, Run(c, before), LOSING);
      DispatchedAndLost(c, Run(c, before));
      assert Losses(n) == before + [e] + [e] + [e];
    }
    RunSpends(c, Losses(n));
    WaitingSpent(c, Run(c, Losses(n)));
  }

  lemma WaitingSpent(c: Settings, x: Watched)
    requires Columns(x) && AllSpent(c, x) && |x.state.assets| == 1 && (x.state.assets[0].job == NoJob || x.state.assets[0].job == Queued)
    ensures x.late == [Over(c, x.state.assets[0].attempts + 1)]
  {
    assert Spent(c, x.state.assets[0], x.late[0], x.overdrawn[0]);
  }

  lemma DispatchedAndLost(c: Settings, x: Watched)
    requires Columns(x) && |x.state.assets| == 1 && x.state.assets[0].job in {NoJob, Queued}
    requires x.state.assets[0] == Asset(true, x.state.assets[0].job, None, None, x.state.assets[0].attempts)
    ensures var y := Polled(c, Polled(c, Polled(c, x, LOSING), LOSING), LOSING);
            y.state.assets == [Asset(true, Queued, None, None, x.state.assets[0].attempts + 1)]
  {
    var a := x.state.assets[0];
    var x1 := Polled(c, x, LOSING);
    assert x1.state.assets == [a.(job := Starting, startedAt := Some(0))];
    var x2 := Polled(c, x1, LOSING);
    assert x2.state.assets == [Asset(true, Running, Some(7), Some(0), a.attempts + 1)];
  }

  lemma PollsAre(c: Settings, x: Watched, w: World)
    requires Columns(x)
    ensures Happens(c, x, Poll(w)) == Polled(c, x, w)
    ensures Happens(c, Polled(c, x, w), Poll(w)) == Polled(c, Polled(c, x, w), w)
    ensures Happens(c, Polled(c, Polled(c, x, w), w), Poll(w)) == Polled(c, Polled(c, Polled(c, x, w), w), w)
  {
    hide Polled;
  }

  lemma FirstUpload(c: Settings)
    ensures Run(c, [Uploaded]).state.assets == [Asset(true, NoJob, None, None, 0)]
  {
    assert [Uploaded][..0] == [];
  }
}

/** What one poll does, as a table over the active, waiting and idle cases. */
module SchedulerEffects {
  import opened Options
  import opened Scheduler
  import opened SchedulerProofs

  /** How long the asset has been in its phase. */
  function Age(a: Asset, now: int): int {
    match a.startedAt
    case None => 0
    case Some(at) => now - at
  }

  function GivenUp(s: State, k: nat): State
    requires k < |s.assets|
  {
    State(s.assets[k := s.assets[k].(processing := false, job := JobFailed)], 0, s.nextStartAt, s.successSeen - {k})
  }

  function BackInQueue(s: State, k: nat): State
    requires k < |s.assets|
  {
    State(s.assets[k := s.assets[k].(job := Queued, command := None, startedAt := None)], 0, s.nextStartAt, s.successSeen - {k})
  }

  /** The one starting asset is given up when its time is over, and dispatched once the instance is online
      and takes the command; until then it waits. */
  lemma StartingEffect(c: Settings, s: State, k: nat, w: World)
    requires OneActive(s.assets) && k < |s.assets| && s.assets[k].job == Starting
    ensures var a := s.assets[k];
            Tick(c, s, w)
            == if Age(a, w.now) > c.startTimeout then (GivenUp(s, k), NoEffect)
               else if w.online == Some(true) && w.send.Some? then
                 (s.(assets := s.assets[k := a.(job := Running, command := w.send, startedAt := Some(w.now), attempts := a.attempts + 1)], emptyTicks := 0),
                  Dispatched(k))
               else (s.(emptyTicks := 0), NoEffect)
  {
    assert Active(s.assets[k]);
    assert FindActive(s.assets) == Some(k);
  }

  /** The one running asset is given up when its time is over, when its command failed with no attempt
      left, or when its callback has not come within the grace period after the command's success; it goes
      back in the queue when its command is lost or failed with an attempt left. */
  lemma RunningEffect(c: Settings, s: State, k: nat, w: World)
    requires OneActive(s.assets) && k < |s.assets| && s.assets[k].job == Running
    ensures var a := s.assets[k];
            Tick(c, s, w)
            == (if Age(a, w.now) > c.jobTimeout then GivenUp(s, k)
                else if a.command.None? || w.command == Lost then BackInQueue(s, k)
                else
                  match w.command
                  case Success =>
                    if k !in s.successSeen then s.(successSeen := s.successSeen[k := w.now], emptyTicks := 0)
                    else if w.now > s.successSeen[k] + c.grace then GivenUp(s, k) else s.(emptyTicks := 0)
                  case CommandFailed => if a.attempts < c.maxAttempts then BackInQueue(s, k) else GivenUp(s, k)
                  case InProgress => s.(successSeen := s.successSeen - {k}, emptyTicks := 0),
                NoEffect)
  {
    assert Active(s.assets[k]);
    assert FindActive(s.assets) == Some(k);
  }

  /** With nothing active, the oldest waiting asset starts once the instance is up or could be started; an
      instance without capacity is not asked again before the back-off is over. */
  lemma WaitingEffect(c: Settings, s: State, k: nat, w: World)
    requires forall j :: 0 <= j < |s.assets| ==> s.assets[j].job !in {Starting, Running}
    requires k < |s.assets| && s.assets[k].processing && s.assets[k].job in {NoJob, Queued}
    requires forall j :: 0 <= j < k ==> !(s.assets[j].processing && s.assets[j].job in {NoJob, Queued})
    ensures var starting := s.(assets := s.assets[k := s.assets[k].(job := Starting, startedAt := Some(w.now))], emptyTicks := 0);
            Tick(c, s, w)
            == match w.instance
               case Up => (starting, NoEffect)
               case Stopped =>
                 if w.now < s.nextStartAt then (s.(emptyTicks := 0), NoEffect)
                 else
                   (match w.start
                    case StartOk => (starting.(nextStartAt := 0), Started)
                    case NoCapacity => (s.(emptyTicks := 0, nextStartAt := w.now + c.backoff), NoEffect)
                    case StartThrows => (s.(emptyTicks := 0), NoEffect))
               case Changing => (s.(emptyTicks := 0), NoEffect)
               case DescribeThrows => (s.(emptyTicks := 0), NoEffect)
  {
    NothingActive(s.assets);
    assert Waiting(s.assets[k]);
    var found := FindWaiting(s.assets);
    assert found.Some? && !(found.value < k) && !(k < found.value);
  }

  lemma NothingActive(assets: seq<Asset>)
    requires forall j :: 0 <= j < |assets| ==> assets[j].job !in {Starting, Running}
    ensures FindActive(assets).None?
  {
  }

  /** With nothing to do, the second poll in a row that finds the instance up stops it; a stop that throws
      is asked for again at the next poll. */
  lemma IdleEffect(c: Settings, s: State, w: World)
    requires forall j :: 0 <= j < |s.assets| ==>
               s.assets[j].job !in {Starting, Running} && !(s.assets[j].processing && s.assets[j].job in {NoJob, Queued})
    ensures Tick(c, s, w)
            == if w.instance == DescribeThrows then (s, NoEffect)
               else if w.instance == Up && !c.keepWarm then
                 if s.emptyTicks == 0 then (s.(emptyTicks := 1), NoEffect)
                 else (s.(emptyTicks := if w.stops then 0 else s.emptyTicks + 1), StopRequested)
               else (s.(emptyTicks := 0), NoEffect)
  {
    NothingActive(s.assets);
    NothingWaiting(s.assets);
  }

  lemma NothingWaiting(assets: seq<Asset>)
    requires forall j :: 0 <= j < |assets| ==> !(assets[j].processing && assets[j].job in {NoJob, Queued})
    ensures FindWaiting(assets).None?
  {
  }
}
