/** Any number of readiness requests running at once. Each slot serves one request after
    another; a step is one critical section, one probe, one log line, a tick of the clock or
    a change of a dependency. Every interleaving is a sequence of steps. */
module ReadinessRuns {
  import opened Wrappers
  import opened Readiness

  /** Where the request of one slot stands. `began` is the version of the environment at the
      start of its probe pair. */
  datatype Phase =
    | Idle
    | Missed(decidedAt: int, storesSeen: nat)
    | ProbingKratos(began: nat)
    | ProbingHydra(kratos: CheckResult, began: nat)
    | Probed(kratos: CheckResult, hydra: CheckResult, began: nat)
    | OwesBoth(previous: Option<ReadinessResult>, current: ReadinessResult)
    | OwesHydra(previous: Option<ReadinessResult>, current: ReadinessResult)

  /** The start of a probe pair, with the clock reading that decided on it and the numbers of
      stores made before that decision and before the start. */
  datatype Start = Start(slot: nat, at: int, decidedAt: int, storesSeen: nat, storesMade: nat)

  datatype StoreEvent = StoreEvent(result: ReadinessResult, at: int, began: nat)

  /** The shared state, the slots, and the history of the run. */
  datatype State = State(
    clock: int, env: Environment, version: nat, cached: Option<Cached>, slots: seq<Phase>,
    starts: seq<Start>, stores: seq<StoreEvent>, log: seq<LogLine>)

  datatype Step =
    | Tick(elapsed: nat)
    | Change(env: Environment)
    | Check(slot: nat)
    | Begin(slot: nat)
    | KratosAnswers(slot: nat)
    | HydraAnswers(slot: nat)
    | Store(slot: nat)
    | LogKratos(slot: nat)
    | LogHydra(slot: nat)

  function Initial(requests: nat, clock: int, env: Environment): State {
    State(clock, env, 0, None, seq(requests, _ => Idle), [], [], [])
  }

  /** One step; a step its slot is not ready for changes nothing. */
  function Apply(config: Config, s: State, step: Step): State {
    match step
    case Tick(elapsed) => s.(clock := s.clock + elapsed)
    case Change(env) => s.(env := env, version := s.version + 1)
    case _ => if step.slot < |s.slots| then ApplyInSlot(config, s, step, s.slots[step.slot]) else s
  }

  function ApplyInSlot(config: Config, s: State, step: Step, phase: Phase): State
    requires !step.Tick? && !step.Change? && step.slot < |s.slots|
  {
    var i := step.slot;
    match (step, phase)
    case (Check(_), Idle) =>
      if CacheLookup(s.cached, s.clock).Some? then s
      else s.(slots := s.slots[i := Missed(s.clock, |s.stores|)])
    case (Begin(_), Missed(decidedAt, storesSeen)) =>
      s.(slots := s.slots[i := ProbingKratos(s.version)],
         starts := s.starts + [Start(i, s.clock, decidedAt, storesSeen, |s.stores|)])
    case (KratosAnswers(_), ProbingKratos(began)) =>
      s.(slots := s.slots[i := ProbingHydra(ProbeKratos(config, s.env), began)])
    case (HydraAnswers(_), ProbingHydra(kratos, began)) =>
      s.(slots := s.slots[i := Probed(kratos, ProbeHydra(config, s.env), began)])
    case (Store(_), Probed(kratos, hydra, began)) =>
      var result := Combine(kratos, hydra);
      s.(slots := s.slots[i := OwesBoth(CachedResult(s.cached), result)],
         cached := Some(Cached(result, s.clock)),
         stores := s.stores + [StoreEvent(result, s.clock, began)])
    case (LogKratos(_), OwesBoth(previous, current)) =>
      s.(slots := s.slots[i := OwesHydra(previous, current)],
         log := s.log + DependencyLines(Kratos, previous, current))
    case (LogHydra(_), OwesHydra(previous, current)) =>
      s.(slots := s.slots[i := Idle], log := s.log + DependencyLines(Hydra, previous, current))
    case _ => s
  }

  /** The state after a whole run. */
  function Run(config: Config, initial: State, steps: seq<Step>): State {
    if steps == [] then initial
    else Apply(config, Run(config, initial, steps[..|steps| - 1]), steps[|steps| - 1])
  }

  // ---------------------------------------------------------------------------------------
  // The cache and the order of stores
  // ---------------------------------------------------------------------------------------

  ghost predicate CacheIsLastStore(s: State) {
    if s.stores == [] then s.cached == None
    else var last := s.stores[|s.stores| - 1]; s.cached == Some(Cached(last.result, last.at))
  }

  ghost predicate StoresInOrder(s: State) {
    && (forall a, b | 0 <= a < b < |s.stores| :: s.stores[a].at <= s.stores[b].at)
    && (forall a | 0 <= a < |s.stores| :: s.stores[a].at <= s.clock)
  }

  /** What a probe pair knows is what the environment still says, unless it changed since. */
  ghost predicate PhaseCurrent(config: Config, s: State, phase: Phase) {
    match phase
    case ProbingKratos(began) => began <= s.version
    case ProbingHydra(kratos, began) =>
      began <= s.version && (began == s.version ==> kratos == ProbeKratos(config, s.env))
    case Probed(kratos, hydra, began) =>
      && began <= s.version
      && (began == s.version ==> kratos == ProbeKratos(config, s.env) && hydra == ProbeHydra(config, s.env))
    case _ => true
  }

  ghost predicate StoreCurrent(config: Config, s: State, event: StoreEvent) {
    && event.began <= s.version
    && (event.result.status.Healthy? <==> event.result.kratos.status.Healthy? && event.result.hydra.status.Healthy?)
    && (event.began == s.version ==> event.result == FreshResult(config, s.env))
  }

  ghost predicate KnowledgeCurrent(config: Config, s: State) {
    && (forall i | 0 <= i < |s.slots| :: PhaseCurrent(config, s, s.slots[i]))
    && (forall a | 0 <= a < |s.stores| :: StoreCurrent(config, s, s.stores[a]))
  }

  // ---------------------------------------------------------------------------------------
  // The rate of probe pairs
  // ---------------------------------------------------------------------------------------

  /** How far back the earlier starts of a slot lie, given the phase it is in. */
  ghost predicate SlotRested(s: State, phase: Phase, start: Start) {
    match phase
    case Missed(decidedAt, _) => start.at + CACHE_TTL <= decidedAt
    case ProbingKratos(_) => true
    case ProbingHydra(_, _) => true
    case Probed(_, _, _) => true
    case _ => s.cached.Some? && start.at <= s.cached.value.storedAt
  }

  /** A decision to probe is at least a TTL past every store made before it. */
  ghost predicate DecisionRested(s: State, decidedAt: int, storesSeen: nat) {
    && storesSeen <= |s.stores|
    && forall j | 0 <= j < storesSeen :: s.stores[j].at + CACHE_TTL <= decidedAt
  }

  ghost predicate PhaseRested(s: State, phase: Phase) {
    phase.Missed? ==> phase.decidedAt <= s.clock && DecisionRested(s, phase.decidedAt, phase.storesSeen)
  }

  ghost predicate Spaced(starts: seq<Start>) {
    forall a, b | 0 <= a < b < |starts| && starts[a].slot == starts[b].slot :: starts[a].at + CACHE_TTL <= starts[b].at
  }

  ghost predicate StartsDecided(s: State) {
    forall a | 0 <= a < |s.starts| ::
      && s.starts[a].slot < |s.slots|
      && s.starts[a].decidedAt <= s.starts[a].at <= s.clock
      && s.starts[a].storesSeen <= s.starts[a].storesMade <= |s.stores|
      && DecisionRested(s, s.starts[a].decidedAt, s.starts[a].storesSeen)
  }

  ghost predicate SlotsRested(s: State) {
    forall i, a | 0 <= i < |s.slots| && 0 <= a < |s.starts| && s.starts[a].slot == i ::
      SlotRested(s, s.slots[i], s.starts[a])
  }

  ghost predicate PhasesRested(s: State) {
    forall i | 0 <= i < |s.slots| :: PhaseRested(s, s.slots[i])
  }

  ghost predicate StartsRested(s: State) {
    Spaced(s.starts) && StartsDecided(s) && SlotsRested(s) && PhasesRested(s)
  }

  // ---------------------------------------------------------------------------------------
  // The transition log
  // ---------------------------------------------------------------------------------------

  /** "Unhealthy" lines of `d` minus its "recovered" lines. */
  function NetLines(d: Dependency, log: seq<LogLine>): int {
    if log == [] then 0
    else
      var last := log[|log| - 1];
      NetLines(d, log[..|log| - 1])
      + (if last.d != d then 0 else if last.BecameUnhealthy? then 1 else -1)
  }

  /** The same count over the lines a request has yet to write. */
  function Owed(d: Dependency, phase: Phase): int {
    match phase
    case OwesBoth(previous, current) => NetLines(d, DependencyLines(d, previous, current))
    case OwesHydra(previous, current) => if d.Hydra? then NetLines(d, DependencyLines(d, previous, current)) else 0
    case _ => 0
  }

  function TotalOwed(d: Dependency, slots: seq<Phase>): int {
    if slots == [] then 0 else Owed(d, slots[0]) + TotalOwed(d, slots[1..])
  }

  /** 1 when the cache says `d` is unhealthy. */
  function Level(d: Dependency, cached: Option<ReadinessResult>): int {
    if cached.Some? && cached.value.Check(d).status.Unhealthy? then 1 else 0
  }

  ghost predicate LogBalanced(s: State) {
    forall d: Dependency :: NetLines(d, s.log) + TotalOwed(d, s.slots) == Level(d, CachedResult(s.cached))
  }

  lemma {:induction false} NetLinesAppend(d: Dependency, log: seq<LogLine>, lines: seq<LogLine>)
    ensures NetLines(d, log + lines) == NetLines(d, log) + NetLines(d, lines)
  {
    if lines == [] {
      assert log + lines == log;
    } else {
      var init := lines[..|lines| - 1];
      assert (log + lines)[..|log + lines| - 1] == log + init;
      NetLinesAppend(d, log, init);
    }
  }

  lemma {:induction false} TotalOwedUpdate(d: Dependency, slots: seq<Phase>, i: nat, phase: Phase)
    requires i < |slots|
    ensures TotalOwed(d, slots[i := phase]) == TotalOwed(d, slots) - Owed(d, slots[i]) + Owed(d, phase)
  {
    if i == 0 {
      assert slots[i := phase][1..] == slots[1..];
    } else {
      assert slots[i := phase][1..] == slots[1..][i - 1 := phase];
      TotalOwedUpdate(d, slots[1..], i - 1, phase);
    }
  }

  lemma {:induction false} IdleSlotsOweNothing(d: Dependency, slots: seq<Phase>)
    requires forall i | 0 <= i < |slots| :: Owed(d, slots[i]) == 0
    ensures TotalOwed(d, slots) == 0
  {
    if slots != [] {
      IdleSlotsOweNothing(d, slots[1..]);
    }
  }

  /** The lines of one replacement are worth the difference of the two levels. */
  lemma LinesAreLevelChange(d: Dependency, previous: Option<ReadinessResult>, current: ReadinessResult)
    ensures NetLines(d, DependencyLines(d, previous, current)) == Level(d, Some(current)) - Level(d, previous)
  {
  }

  lemma LinesOfOther(d: Dependency, other: Dependency, previous: Option<ReadinessResult>, current: ReadinessResult)
    requires d != other
    ensures NetLines(d, DependencyLines(other, previous, current)) == 0
  {
  }

  lemma LogStaysBalanced(config: Config, s: State, step: Step)
    requires LogBalanced(s)
    ensures LogBalanced(Apply(config, s, step))
  {
    var t := Apply(config, s, step);
    if t != s && !step.Tick? && !step.Change? {
      var i := step.slot;
      forall d: Dependency
        ensures NetLines(d, t.log) + TotalOwed(d, t.slots) == Level(d, CachedResult(t.cached))
      {
        TotalOwedUpdate(d, s.slots, i, t.slots[i]);
        match s.slots[i]
        case Probed(kratos, hydra, _) =>
          LinesAreLevelChange(d, CachedResult(s.cached), Combine(kratos, hydra));
        case OwesBoth(previous, current) =>
          NetLinesAppend(d, s.log, DependencyLines(Kratos, previous, current));
          if d.Hydra? { LinesOfOther(d, Kratos, previous, current); }
        case OwesHydra(previous, current) =>
          NetLinesAppend(d, s.log, DependencyLines(Hydra, previous, current));
          if d.Kratos? { LinesOfOther(d, Hydra, previous, current); }
        case _ =>
      }
    }
  }

  // ---------------------------------------------------------------------------------------
  // The invariant of every run
  // ---------------------------------------------------------------------------------------

  ghost predicate Invariant(config: Config, s: State) {
    && CacheIsLastStore(s)
    && StoresInOrder(s)
    && KnowledgeCurrent(config, s)
    && StartsRested(s)
    && LogBalanced(s)
  }

  lemma StoresStayInOrder(config: Config, s: State, step: Step)
    requires CacheIsLastStore(s) && StoresInOrder(s)
    ensures CacheIsLastStore(Apply(config, s, step)) && StoresInOrder(Apply(config, s, step))
  {
  }

  lemma KnowledgeStaysCurrent(config: Config, s: State, step: Step)
    requires KnowledgeCurrent(config, s)
    ensures KnowledgeCurrent(config, Apply(config, s, step))
  {
  }

  /** A cache miss comes a TTL after every store so far. */
  lemma MissIsRested(s: State)
    requires CacheIsLastStore(s) && StoresInOrder(s)
    requires CacheLookup(s.cached, s.clock).None?
    ensures DecisionRested(s, s.clock, |s.stores|)
  {
  }

  lemma StartsStaySpaced(config: Config, s: State, step: Step)
    requires StartsRested(s)
    ensures Spaced(Apply(config, s, step).starts)
  {
    if step.Begin? && step.slot < |s.slots| && s.slots[step.slot].Missed? {
      forall a | 0 <= a < |s.starts| && s.starts[a].slot == step.slot
        ensures s.starts[a].at + CACHE_TTL <= s.clock
      {
        assert SlotRested(s, s.slots[step.slot], s.starts[a]) && PhaseRested(s, s.slots[step.slot]);
      }
    }
  }

  lemma StartsStayDecided(config: Config, s: State, step: Step)
    requires StartsRested(s)
    ensures StartsDecided(Apply(config, s, step))
  {
    if step.Begin? && step.slot < |s.slots| {
      assert PhaseRested(s, s.slots[step.slot]);
    }
  }

  lemma PhasesStayRested(config: Config, s: State, step: Step)
    requires CacheIsLastStore(s) && StoresInOrder(s) && PhasesRested(s)
    ensures PhasesRested(Apply(config, s, step))
  {
    if CacheLookup(s.cached, s.clock).None? {
      MissIsRested(s);
    }
  }

  lemma SlotsStayRested(config: Config, s: State, step: Step)
    requires CacheIsLastStore(s) && StoresInOrder(s) && StartsDecided(s) && SlotsRested(s)
    ensures SlotsRested(Apply(config, s, step))
  {
    var t := Apply(config, s, step);
    forall i, a | 0 <= i < |t.slots| && 0 <= a < |t.starts| && t.starts[a].slot == i
      ensures SlotRested(t, t.slots[i], t.starts[a])
    {
      if a < |s.starts| {
        assert SlotRested(s, s.slots[i], s.starts[a]);
      }
    }
  }

  lemma InitialInvariant(config: Config, requests: nat, clock: int, env: Environment)
    ensures Invariant(config, Initial(requests, clock, env))
  {
    var s := Initial(requests, clock, env);
    forall d: Dependency ensures NetLines(d, s.log) + TotalOwed(d, s.slots) == Level(d, CachedResult(s.cached)) {
      IdleSlotsOweNothing(d, s.slots);
    }
  }

  lemma StepKeepsInvariant(config: Config, s: State, step: Step)
    requires Invariant(config, s)
    ensures Invariant(config, Apply(config, s, step))
    ensures |Apply(config, s, step).slots| == |s.slots|
  {
    StoresStayInOrder(config, s, step);
    KnowledgeStaysCurrent(config, s, step);
    StartsStaySpaced(config, s, step);
    StartsStayDecided(config, s, step);
    SlotsStayRested(config, s, step);
    PhasesStayRested(config, s, step);
    LogStaysBalanced(config, s, step);
  }

  lemma {:induction false} RunKeepsInvariant(
    config: Config, requests: nat, clock: int, env: Environment, steps: seq<Step>)
    ensures var s := Run(config, Initial(requests, clock, env), steps);
            Invariant(config, s) && |s.slots| == requests
  {
    if steps == [] {
      InitialInvariant(config, requests, clock, env);
    } else {
      RunKeepsInvariant(config, requests, clock, env, steps[..|steps| - 1]);
      StepKeepsInvariant(config, Run(config, Initial(requests, clock, env), steps[..|steps| - 1]), steps[|steps| - 1]);
    }
  }
}
