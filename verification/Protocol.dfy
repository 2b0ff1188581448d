/**
 The rebuild protocol: many handlers, a channel with one slot, and a consumer that waits out
 a debounce before it rebuilds. A transition system over all interleavings, with time.
 */
module Protocol {
  import opened Counting

  type Resource = string

  /** Kinds that count for readiness, kinds that have an informer, and the debounce. */
  datatype Config = Config(enabled: set<Resource>, watched: set<Resource>, debounce: nat)

  /** Informers are only made for enabled kinds. */
  predicate Sensible(cfg: Config) {
    cfg.watched <= cfg.enabled
  }

  datatype Consumer =
    | Idle
    | Draining(deadline: nat)
    | Starting
    | Reading(seen: map<Resource, nat>)

  /**
   `store` counts the updates of each informer's store, and `graph` says which of them the
   graph was built from. `pending` counts updates whose handler has still to run, `slot` is
   the channel, `requested` is set once the initial rebuild has been asked for, and `starts`
   lists the times at which rebuilds began.
   */
  datatype State = State(
    clock: nat,
    store: map<Resource, nat>,
    pending: map<Resource, nat>,
    slot: bool,
    consumer: Consumer,
    synced: set<Resource>,
    requested: bool,
    graph: map<Resource, nat>,
    starts: seq<nat>)

  function Initial(cfg: Config): State {
    var zero := map r | r in cfg.watched :: 0 as nat;
    State(0, zero, zero, false, Idle, {}, false, zero, [])
  }

  datatype Step =
    | StoreUpdate(r: Resource)
    | Notify(r: Resource)
    | MarkSynced(r: Resource)
    | InitialSync
    | Receive
    | DrainReceive
    | Timer
    | Check
    | Read(r: Resource)
    | Finish
    | Tick(time: nat)

  predicate Ready(cfg: Config, s: State) {
    cfg.enabled <= s.synced
  }

  predicate CanDo(cfg: Config, s: State, step: Step) {
    match step
    case StoreUpdate(r) => r in s.store && r in s.pending
    case Notify(r) => r in s.pending && s.pending[r] > 0
    case MarkSynced(r) => r in cfg.watched && !s.requested
    case InitialSync => cfg.watched <= s.synced && !s.requested
    case Receive => s.consumer.Idle? && s.slot
    case DrainReceive => s.consumer.Draining? && s.slot
    case Timer => s.consumer.Draining? && s.clock >= s.consumer.deadline
    case Check => s.consumer.Starting?
    case Read(r) => s.consumer.Reading? && r in s.store && r !in s.consumer.seen
    case Finish => s.consumer.Reading? && s.consumer.seen.Keys == cfg.watched
    case Tick(time) => true
  }

  /**
   A handler's send, like the initial request, finds the slot full or fills it. Receiving
   while draining does not touch the timer. A rebuild that is not ready is discarded.
   */
  function Do(cfg: Config, s: State, step: Step): State
    requires CanDo(cfg, s, step)
  {
    match step
    case StoreUpdate(r) => s.(store := s.store[r := s.store[r] + 1], pending := s.pending[r := s.pending[r] + 1])
    case Notify(r) => s.(pending := s.pending[r := s.pending[r] - 1], slot := true)
    case MarkSynced(r) => s.(synced := s.synced + {r})
    case InitialSync => s.(slot := true, requested := true)
    case Receive => s.(slot := false, consumer := Draining(s.clock + cfg.debounce))
    case DrainReceive => s.(slot := false)
    case Timer => s.(consumer := Starting, starts := s.starts + [s.clock])
    case Check => s.(consumer := if Ready(cfg, s) then Reading(map[]) else Idle)
    case Read(r) => s.(consumer := Reading(s.consumer.seen[r := s.store[r]]))
    case Finish => s.(graph := s.consumer.seen, consumer := Idle)
    case Tick(time) => s.(clock := s.clock + time)
  }

  ghost predicate Next(cfg: Config, s: State, s': State) {
    exists step :: CanDo(cfg, s, step) && s' == Do(cfg, s, step)
  }

  ghost predicate IsRun(cfg: Config, run: seq<State>) {
    && run != [] && run[0] == Initial(cfg)
    && forall i :: 0 <= i < |run| - 1 ==> Next(cfg, run[i], run[i + 1])
  }

  // ----- No update is lost -----

  ghost predicate Typed(cfg: Config, s: State) {
    && s.store.Keys == s.pending.Keys == s.graph.Keys == cfg.watched
    && (s.consumer.Reading? ==> s.consumer.seen.Keys <= cfg.watched)
    && s.synced <= cfg.watched
    && (s.requested ==> s.synced == cfg.watched)
  }

  /** What was read for the graph being built is not older than the graph it replaces. */
  ghost predicate Aged(s: State) {
    && s.store.Keys == s.graph.Keys
    && (forall r :: r in s.graph ==> s.graph[r] <= s.store[r])
    && (s.consumer.Reading? ==>
          forall r :: r in s.consumer.seen && r in s.graph ==> s.graph[r] <= s.consumer.seen[r] <= s.store[r])
  }

  /** The graph is up to date with the resource, or something that is still to happen will make it so. */
  ghost predicate Covered(s: State, r: Resource)
    requires r in s.store && r in s.graph && r in s.pending
  {
    || s.graph[r] == s.store[r]
    || s.pending[r] > 0
    || s.slot
    || s.consumer.Draining?
    || s.consumer.Starting?
    || (s.consumer.Reading? && (r !in s.consumer.seen || s.consumer.seen[r] == s.store[r]))
  }

  ghost predicate Safe(cfg: Config, s: State) {
    Typed(cfg, s) && Aged(s) && (s.requested ==> forall r :: r in cfg.watched ==> Covered(s, r))
  }

  lemma InitialIsSafe(cfg: Config)
    ensures Safe(cfg, Initial(cfg))
  {}

  lemma StepKeepsTyped(cfg: Config, s: State, step: Step)
    requires Sensible(cfg) && Typed(cfg, s) && CanDo(cfg, s, step)
    ensures Typed(cfg, Do(cfg, s, step))
  {}

  lemma StepKeepsAged(cfg: Config, s: State, step: Step)
    requires Typed(cfg, s) && Aged(s) && CanDo(cfg, s, step)
    ensures Aged(Do(cfg, s, step))
  {}

  lemma StepKeepsSafe(cfg: Config, s: State, step: Step)
    requires Sensible(cfg) && cfg.enabled == cfg.watched
    requires Safe(cfg, s) && CanDo(cfg, s, step)
    ensures Safe(cfg, Do(cfg, s, step))
  {
    StepKeepsTyped(cfg, s, step);
    StepKeepsAged(cfg, s, step);
    var s' := Do(cfg, s, step);
    forall r | s'.requested && r in cfg.watched ensures Covered(s', r) {
      if !step.InitialSync? {
        assert Covered(s, r);
      }
    }
  }

  /** In every state of every run, once the initial rebuild is requested, every update is covered. */
  lemma {:induction false} NoLostUpdate(cfg: Config, run: seq<State>, n: nat)
    requires Sensible(cfg) && cfg.enabled == cfg.watched
    requires IsRun(cfg, run) && n < |run|
    ensures Safe(cfg, run[n])
  {
    hide Safe, CanDo, Do;
    if n == 0 {
      InitialIsSafe(cfg);
    } else {
      NoLostUpdate(cfg, run, n - 1);
      assert Next(cfg, run[n - 1], run[n - 1 + 1]);
      var step :| CanDo(cfg, run[n - 1], step) && run[n] == Do(cfg, run[n - 1], step);
      StepKeepsSafe(cfg, run[n - 1], step);
    }
  }

  ghost predicate Quiescent(s: State) {
    s.requested && !s.slot && s.consumer.Idle? && forall r :: r in s.pending ==> s.pending[r] == 0
  }

  /** When nothing is left to happen, the graph is that of the stores. */
  lemma QuiescentIsCurrent(cfg: Config, run: seq<State>, n: nat)
    requires Sensible(cfg) && cfg.enabled == cfg.watched
    requires IsRun(cfg, run) && n < |run| && Quiescent(run[n])
    ensures run[n].graph == run[n].store
  {
    hide IsRun;
    NoLostUpdate(cfg, run, n);
    assert forall r :: r in cfg.watched ==> Covered(run[n], r);
  }

  // ----- And nothing is left to happen before long -----

  /** Steps of the agent itself, not of the cluster or the clock. */
  predicate Internal(step: Step) {
    !step.StoreUpdate? && !step.MarkSynced? && !step.InitialSync? && !step.Tick?
  }

  ghost function Phase(cfg: Config, c: Consumer): int {
    match c
    case Idle => 0
    case Reading(seen) => 1 + |cfg.watched| - |seen|
    case Starting => |cfg.watched| + 2
    case Draining(_) => |cfg.watched| + 3
  }

  /** A handler that has yet to run is worth more than all the work it can cause. */
  ghost function Work(cfg: Config, s: State): int {
    Times(Sum(s.pending), |cfg.watched| + 5) + SlotWork(cfg, s.slot) + Phase(cfg, s.consumer)
  }

  /** A full slot is worth a whole rebuild. */
  ghost function SlotWork(cfg: Config, slot: bool): nat {
    if slot then |cfg.watched| + 4 else 0
  }

  ghost function Times(a: nat, b: nat): (product: nat) {
    a * b
  }

  lemma OneTimesLess(a: nat, b: nat)
    requires a > 0
    ensures Times(a - 1, b) == Times(a, b) - b
  {}

  lemma SumOfOneLess(m: map<string, nat>, k: string)
    requires k in m && m[k] > 0
    ensures Sum(m[k := m[k] - 1]) == Sum(m) - 1
  {
    hide Sum;
    var less := m[k := (m[k] - 1) as nat];
    SumWithout(m, k);
    SumWithout(less, k);
    assert less - {k} == m - {k};
  }

  lemma SubsetIsNoLarger(a: set<Resource>, b: set<Resource>)
    requires a <= b
    ensures |a| <= |b|
    ensures |a| == |b| ==> a == b
  {
    assert b == a + (b - a);
  }

  lemma PhaseIsBounded(cfg: Config, s: State)
    requires Typed(cfg, s)
    ensures 0 <= Phase(cfg, s.consumer) <= |cfg.watched| + 3
    ensures s.consumer.Reading? ==> Phase(cfg, s.consumer) >= 1
  {
    if s.consumer.Reading? {
      SubsetIsNoLarger(s.consumer.seen.Keys, cfg.watched);
      assert |s.consumer.seen| == |s.consumer.seen.Keys|;
    }
  }

  /** A step that leaves the handlers alone lowers the rest of the work. */
  lemma ConsumerStepsRunOut(cfg: Config, s: State, step: Step)
    requires Typed(cfg, s) && CanDo(cfg, s, step) && Internal(step) && !step.Notify?
    ensures
      var s' := Do(cfg, s, step);
      && s'.pending == s.pending
      && SlotWork(cfg, s'.slot) + Phase(cfg, s'.consumer) < SlotWork(cfg, s.slot) + Phase(cfg, s.consumer)
  {
    PhaseIsBounded(cfg, s);
    if step.Read? {
      ReadingRunsOut(cfg, s, step.r);
    }
  }

  lemma ReadingRunsOut(cfg: Config, s: State, r: Resource)
    requires CanDo(cfg, s, Read(r))
    ensures Phase(cfg, Do(cfg, s, Read(r)).consumer) == Phase(cfg, s.consumer) - 1
  {
    var seen, seen' := s.consumer.seen, Do(cfg, s, Read(r)).consumer.seen;
    assert seen'.Keys == seen.Keys + {r};
    assert |seen'| == |seen'.Keys| && |seen| == |seen.Keys|;
  }

  lemma NotifyRunsOut(cfg: Config, s: State, r: Resource)
    requires CanDo(cfg, s, Notify(r))
    ensures Work(cfg, Do(cfg, s, Notify(r))) < Work(cfg, s)
  {
    hide Sum, Times, Phase;
    SumOfOneLess(s.pending, r);
    OneTimesLess(Sum(s.pending), |cfg.watched| + 5);
  }

  /** Every step of the agent leaves it less to do. */
  lemma InternalStepsRunOut(cfg: Config, s: State, step: Step)
    requires Sensible(cfg) && Typed(cfg, s) && CanDo(cfg, s, step) && Internal(step)
    ensures 0 <= Work(cfg, Do(cfg, s, step)) < Work(cfg, s)
  {
    hide Sum, Times, Phase, CanDo, Do, Typed, SlotWork;
    StepKeepsTyped(cfg, s, step);
    WorkIsNatural(cfg, Do(cfg, s, step));
    if step.Notify? {
      NotifyRunsOut(cfg, s, step.r);
    } else {
      ConsumerStepsRunOut(cfg, s, step);
    }
  }

  /** As long as there is something to do, the agent can do it, at the latest when its timer is up. */
  lemma WorkIsPossible(cfg: Config, s: State)
    requires Sensible(cfg) && Typed(cfg, s) && s.requested && !Quiescent(s)
    ensures
      || (exists step :: Internal(step) && CanDo(cfg, s, step))
      || (s.consumer.Draining? && CanDo(cfg, Do(cfg, s, Tick(s.consumer.deadline)), Timer))
  {
    match s.consumer {
      case Idle =>
        if s.slot {
          assert CanDo(cfg, s, Receive);
        } else {
          var r :| r in s.pending && s.pending[r] != 0;
          assert CanDo(cfg, s, Notify(r));
        }
      case Draining(_) =>
      case Starting =>
        assert CanDo(cfg, s, Check);
      case Reading(seen) =>
        if seen.Keys == cfg.watched {
          assert CanDo(cfg, s, Finish);
        } else {
          assert exists r :: r in cfg.watched && r !in seen;
          var r :| r in cfg.watched && r !in seen;
          assert CanDo(cfg, s, Read(r));
        }
    }
  }

  /** Steps that can follow one another from a state, ending in another. */
  ghost predicate Leads(cfg: Config, s: State, steps: seq<Step>, s': State)
    decreases |steps|
  {
    if steps == [] then s == s'
    else CanDo(cfg, s, steps[0]) && Leads(cfg, Do(cfg, s, steps[0]), steps[1..], s')
  }

  /** The agent's own steps and the passing of time. */
  ghost predicate Unprovoked(steps: seq<Step>) {
    forall i :: 0 <= i < |steps| ==> Internal(steps[i]) || steps[i].Tick?
  }

  ghost function OwnSteps(steps: seq<Step>): nat {
    if steps == [] then 0 else (if Internal(steps[0]) then 1 else 0) + OwnSteps(steps[1..])
  }

  /** Left alone, however it goes on, the agent takes no more steps than it has work. */
  lemma {:induction false} OwnStepsAreBounded(cfg: Config, s: State, steps: seq<Step>, s': State)
    requires Sensible(cfg) && Typed(cfg, s) && Unprovoked(steps) && Leads(cfg, s, steps, s')
    ensures OwnSteps(steps) + Work(cfg, s') <= Work(cfg, s) && Work(cfg, s') >= 0
    decreases |steps|
  {
    hide Work, CanDo, Do, Typed;
    if steps == [] {
      WorkIsNatural(cfg, s);
    } else {
      assert Internal(steps[0]) || steps[0].Tick?;
      var next := Do(cfg, s, steps[0]);
      StepKeepsTyped(cfg, s, steps[0]);
      if Internal(steps[0]) {
        InternalStepsRunOut(cfg, s, steps[0]);
      } else {
        TimeIsNoWork(cfg, s, steps[0].time);
      }
      OwnStepsAreBounded(cfg, next, steps[1..], s');
    }
  }

  lemma WorkIsNatural(cfg: Config, s: State)
    requires Typed(cfg, s)
    ensures Work(cfg, s) >= 0
  {
    hide Sum, Typed;
    PhaseIsBounded(cfg, s);
  }

  /** Left alone, the agent comes to rest with a graph of the stores as they are. */
  lemma {:induction false} Settles(cfg: Config, s: State) returns (steps: seq<Step>, s': State)
    requires Sensible(cfg) && cfg.enabled == cfg.watched && Safe(cfg, s) && s.requested
    ensures Unprovoked(steps) && Leads(cfg, s, steps, s')
    ensures Quiescent(s') && s'.store == s.store && s'.graph == s.store
    decreases Work(cfg, s)
  {
    hide Work, Quiescent, Safe, Typed, CanDo, Do, Leads;
    SafeIsTyped(cfg, s);
    if Quiescent(s) {
      steps, s' := [], s;
      RestIsCurrent(cfg, s);
      LeadsNowhere(cfg, s);
    } else {
      WorkIsPossible(cfg, s);
      if step :| Internal(step) && CanDo(cfg, s, step) {
        InternalStepsRunOut(cfg, s, step);
        StepKeepsSafe(cfg, s, step);
        InternalKeepsStore(cfg, s, step);
        steps, s' := Settles(cfg, Do(cfg, s, step));
        LeadsAfter(cfg, s, step, steps, s');
        steps := [step] + steps;
      } else {
        var tick := Tick(s.consumer.deadline);
        TimeIsNoWork(cfg, s, s.consumer.deadline);
        var later := Do(cfg, s, tick);
        StepKeepsSafe(cfg, s, tick);
        SafeIsTyped(cfg, later);
        InternalStepsRunOut(cfg, later, Timer);
        StepKeepsSafe(cfg, later, Timer);
        InternalKeepsStore(cfg, later, Timer);
        steps, s' := Settles(cfg, Do(cfg, later, Timer));
        LeadsAfter(cfg, later, Timer, steps, s');
        LeadsAfter(cfg, s, tick, [Timer] + steps, s');
        steps := [tick] + ([Timer] + steps);
      }
    }
  }

  lemma SafeIsTyped(cfg: Config, s: State)
    requires Safe(cfg, s)
    ensures Typed(cfg, s)
  {}

  lemma LeadsNowhere(cfg: Config, s: State)
    ensures Leads(cfg, s, [], s)
  {}

  lemma RestIsCurrent(cfg: Config, s: State)
    requires Safe(cfg, s) && Quiescent(s)
    ensures s.graph == s.store
  {}

  lemma InternalKeepsStore(cfg: Config, s: State, step: Step)
    requires CanDo(cfg, s, step) && Internal(step)
    ensures Do(cfg, s, step).store == s.store && Do(cfg, s, step).requested == s.requested
  {}

  lemma TimeIsNoWork(cfg: Config, s: State, time: nat)
    ensures CanDo(cfg, s, Tick(time))
    ensures Work(cfg, Do(cfg, s, Tick(time))) == Work(cfg, s)
    ensures Do(cfg, s, Tick(time)).store == s.store && Do(cfg, s, Tick(time)).requested == s.requested
  {}

  lemma LeadsAfter(cfg: Config, s: State, step: Step, steps: seq<Step>, s': State)
    requires CanDo(cfg, s, step) && Leads(cfg, Do(cfg, s, step), steps, s')
    ensures Leads(cfg, s, [step] + steps, s')
  {}

  // ----- The condition on the configuration is needed -----

  ghost predicate NeverRebuilt(cfg: Config, s: State) {
    Typed(cfg, s) && s.graph == Initial(cfg).graph && !s.consumer.Reading?
  }

  lemma StepKeepsUnbuilt(cfg: Config, s: State, step: Step)
    requires Sensible(cfg) && cfg.enabled != cfg.watched
    requires NeverRebuilt(cfg, s) && CanDo(cfg, s, step)
    ensures NeverRebuilt(cfg, Do(cfg, s, step))
  {
    StepKeepsTyped(cfg, s, step);
  }

  /**
   A kind that is enabled but has no informer never counts as synced. Then no rebuild is
   ever carried out: the graph stays empty, and is current only as long as every store is.
   */
  lemma {:induction false} UnwatchedKindBlocksRebuilds(cfg: Config, run: seq<State>, n: nat)
    requires Sensible(cfg) && cfg.enabled != cfg.watched
    requires IsRun(cfg, run) && n < |run|
    ensures NeverRebuilt(cfg, run[n])
    ensures run[n].graph == run[n].store <==> forall r :: r in run[n].store ==> run[n].store[r] == 0
  {
    hide CanDo, Do;
    if n == 0 {
    } else {
      UnwatchedKindBlocksRebuilds(cfg, run, n - 1);
      assert Next(cfg, run[n - 1], run[n - 1 + 1]);
      var step :| CanDo(cfg, run[n - 1], step) && run[n] == Do(cfg, run[n - 1], step);
      StepKeepsUnbuilt(cfg, run[n - 1], step);
    }
  }

  /** And a first update of any watched kind makes the graph stale for the rest of every run. */
  lemma {:induction false} StaleForGood(cfg: Config, run: seq<State>, i: nat, j: nat, r: Resource)
    requires Sensible(cfg) && cfg.enabled != cfg.watched
    requires IsRun(cfg, run) && i <= j < |run| && r in run[i].store && run[i].store[r] > 0
    ensures r in run[j].store && r in run[j].graph && run[j].graph[r] < run[j].store[r]
  {
    hide CanDo, Do;
    UnwatchedKindBlocksRebuilds(cfg, run, j);
    if i < j {
      StaleForGood(cfg, run, i, j - 1, r);
      assert Next(cfg, run[j - 1], run[j - 1 + 1]);
      var step :| CanDo(cfg, run[j - 1], step) && run[j] == Do(cfg, run[j - 1], step);
      StoreNeverShrinks(cfg, run[j - 1], step, r);
    }
  }

  lemma StoreNeverShrinks(cfg: Config, s: State, step: Step, r: Resource)
    requires CanDo(cfg, s, step) && r in s.store
    ensures r in Do(cfg, s, step).store && s.store[r] <= Do(cfg, s, step).store[r]
  {}

  /** So the agent can come to rest with a stale graph, which cannot be where every kind is watched. */
  lemma RestsStale(cfg: Config, r: Resource) returns (run: seq<State>)
    requires Sensible(cfg) && cfg.enabled != cfg.watched && cfg.watched == {r}
    ensures IsRun(cfg, run) && Quiescent(run[|run| - 1])
    ensures run[|run| - 1].graph != run[|run| - 1].store
  {
    run := [Initial(cfg)];
    run := Then(cfg, run, StoreUpdate(r));
    run := Then(cfg, run, MarkSynced(r));
    run := Then(cfg, run, InitialSync);
    run := Then(cfg, run, Notify(r));
    run := Then(cfg, run, Receive);
    run := Then(cfg, run, Tick(cfg.debounce));
    run := Then(cfg, run, Timer);
    run := Then(cfg, run, Check);
    var end := run[|run| - 1];
    assert end.graph[r] == 0 && end.store[r] == 1;
  }

  lemma Then(cfg: Config, run: seq<State>, step: Step) returns (longer: seq<State>)
    requires IsRun(cfg, run) && CanDo(cfg, run[|run| - 1], step)
    ensures IsRun(cfg, longer) && |longer| == |run| + 1
    ensures longer[|run|] == Do(cfg, run[|run| - 1], step)
  {
    longer := run + [Do(cfg, run[|run| - 1], step)];
    assert Next(cfg, longer[|run| - 1], longer[|run|]);
  }

  // ----- How often rebuilds start -----

  ghost predicate Spaced(starts: seq<nat>, gap: nat) {
    forall i :: 0 <= i < |starts| - 1 ==> starts[i] + gap <= starts[i + 1]
  }

  ghost predicate Timed(cfg: Config, s: State) {
    && Spaced(s.starts, cfg.debounce)
    && (s.starts != [] ==> s.starts[|s.starts| - 1] <= s.clock)
    && (s.starts != [] && s.consumer.Draining? ==> s.starts[|s.starts| - 1] + cfg.debounce <= s.consumer.deadline)
  }

  lemma StepKeepsDeadline(cfg: Config, s: State, step: Step)
    requires CanDo(cfg, s, step) && Do(cfg, s, step).consumer.Draining?
    ensures Do(cfg, s, step).consumer.deadline ==
      if s.consumer.Draining? then s.consumer.deadline else s.clock + cfg.debounce
  {}

  lemma StartWaits(cfg: Config, s: State, step: Step)
    requires CanDo(cfg, s, step) && s.consumer.Draining? && !Do(cfg, s, step).consumer.Draining?
    ensures s.clock >= s.consumer.deadline && Do(cfg, s, step).starts == s.starts + [s.clock]
  {}

  /**
   In every run: however many more receipts there are, a drain that began with a receipt in
   state i ends one debounce after that receipt at the earliest, and then a rebuild starts.
   */
  lemma {:induction false} DeadlineIsFixed(cfg: Config, run: seq<State>, i: nat, j: nat)
    requires IsRun(cfg, run) && i < j < |run|
    requires !run[i].consumer.Draining? && forall k :: i < k <= j ==> run[k].consumer.Draining?
    ensures run[j].consumer.deadline == run[i].clock + cfg.debounce
    ensures j + 1 < |run| && !run[j + 1].consumer.Draining? ==>
      run[j].clock >= run[i].clock + cfg.debounce && run[j + 1].starts == run[j].starts + [run[j].clock]
    decreases j
  {
    hide CanDo, Do;
    assert Next(cfg, run[j - 1], run[j - 1 + 1]);
    var step :| CanDo(cfg, run[j - 1], step) && run[j] == Do(cfg, run[j - 1], step);
    StepKeepsDeadline(cfg, run[j - 1], step);
    if i < j - 1 {
      DeadlineIsFixed(cfg, run, i, j - 1);
    }
    if j + 1 < |run| && !run[j + 1].consumer.Draining? {
      assert Next(cfg, run[j], run[j + 1]);
      var last :| CanDo(cfg, run[j], last) && run[j + 1] == Do(cfg, run[j], last);
      StartWaits(cfg, run[j], last);
    }
  }

  lemma StepKeepsTimed(cfg: Config, s: State, step: Step)
    requires Timed(cfg, s) && CanDo(cfg, s, step)
    ensures Timed(cfg, Do(cfg, s, step))
  {}

  /** In every run, rebuilds start at least one debounce apart. */
  lemma {:induction false} RebuildsAreSpaced(cfg: Config, run: seq<State>, n: nat)
    requires IsRun(cfg, run) && n < |run|
    ensures Timed(cfg, run[n])
  {
    hide Timed, CanDo, Do;
    if n == 0 {
      assert Timed(cfg, run[0]) by { NoStarts(cfg); }
    } else {
      RebuildsAreSpaced(cfg, run, n - 1);
      assert Next(cfg, run[n - 1], run[n - 1 + 1]);
      var step :| CanDo(cfg, run[n - 1], step) && run[n] == Do(cfg, run[n - 1], step);
      StepKeepsTimed(cfg, run[n - 1], step);
    }
  }

  lemma NoStarts(cfg: Config)
    ensures Timed(cfg, Initial(cfg))
  {}

  lemma {:induction false} SpacedApart(starts: seq<nat>, gap: nat, i: nat, j: nat)
    requires Spaced(starts, gap) && i <= j < |starts|
    ensures starts[i] + (j - i) * gap <= starts[j]
    decreases j - i
  {
    if i < j {
      SpacedApart(starts, gap, i, j - 1);
      assert starts[j - 1] + gap <= starts[j - 1 + 1];
      assert (j - 1 - i) * gap + gap == (j - i) * gap;
    }
  }

  ghost function StartsWithin(starts: seq<nat>, from: nat, length: nat): set<int> {
    set i | 0 <= i < |starts| && from <= starts[i] <= from + length
  }

  lemma {:induction false} IntervalSize(s: set<int>, lo: int, hi: int)
    requires lo <= hi + 1 && forall i :: i in s ==> lo <= i <= hi
    ensures |s| <= hi - lo + 1
    decreases hi - lo
  {
    if lo == hi + 1 {
      forall i ensures i !in s {}
      assert s == {};
    } else {
      IntervalSize(s - {hi}, lo, hi - 1);
      if hi in s {
        assert |s| == |s - {hi}| + 1;
      } else {
        assert s - {hi} == s;
      }
    }
  }

  /** The first start that is not before the given time. */
  ghost function FirstFrom(starts: seq<nat>, from: nat): (i: nat)
    ensures i <= |starts| && forall j :: 0 <= j < i ==> starts[j] < from
    ensures i < |starts| ==> starts[i] >= from
  {
    if starts == [] || starts[0] >= from then 0 else 1 + FirstFrom(starts[1..], from)
  }

  lemma TimesIsMonotone(a: nat, b: nat, c: nat)
    requires a <= b
    ensures a * c <= b * c
  {
    assert b * c == a * c + (b - a) * c;
  }

  lemma QuotientBound(a: nat, b: nat, c: nat)
    requires b > 0 && a * b <= c
    ensures a <= c / b
  {
    if c / b + 1 <= a {
      TimesIsMonotone(c / b + 1, a, b);
    }
  }

  /** With a positive debounce, a window of any length sees at most one rebuild more than debounces fit in it. */
  lemma RebuildRateBound(cfg: Config, run: seq<State>, n: nat, from: nat, length: nat)
    requires cfg.debounce > 0 && IsRun(cfg, run) && n < |run|
    ensures |StartsWithin(run[n].starts, from, length)| <= length / cfg.debounce + 1
  {
    hide IsRun;
    RebuildsAreSpaced(cfg, run, n);
    var starts := run[n].starts;
    var within := StartsWithin(starts, from, length);
    var first := FirstFrom(starts, from);
    forall i | i in within ensures first <= i <= first + length / cfg.debounce {
      SpacedApart(starts, cfg.debounce, first, i);
      QuotientBound(i - first, cfg.debounce, length);
    }
    IntervalSize(within, first, first + length / cfg.debounce);
  }
}
