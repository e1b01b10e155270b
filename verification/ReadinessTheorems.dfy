/** What holds of every run of the readiness handler, whatever the interleaving. */
module ReadinessTheorems {
  import opened Wrappers
  import opened Readiness
  import opened ReadinessRuns

  // ---------------------------------------------------------------------------------------
  // How often the dependencies are probed
  // ---------------------------------------------------------------------------------------

  /** The window is half open and two seconds long. */
  predicate InWindow(start: Start, from: int) {
    from <= start.at < from + 2_000_000_000
  }

  function CountInWindow(starts: seq<Start>, from: int): nat {
    if starts == [] then 0
    else CountInWindow(starts[..|starts| - 1], from) + (if InWindow(starts[|starts| - 1], from) then 1 else 0)
  }

  ghost function SlotsInWindow(starts: seq<Start>, from: int): set<nat> {
    set a | 0 <= a < |starts| && InWindow(starts[a], from) :: starts[a].slot
  }

  lemma SlotsInWindowOfLast(starts: seq<Start>, from: int)
    requires starts != []
    ensures var init, last := starts[..|starts| - 1], starts[|starts| - 1];
            SlotsInWindow(starts, from)
            == SlotsInWindow(init, from) + (if InWindow(last, from) then {last.slot} else {})
  {
    var init, last := starts[..|starts| - 1], starts[|starts| - 1];
    forall slot | slot in SlotsInWindow(starts, from)
      ensures slot in SlotsInWindow(init, from) + (if InWindow(last, from) then {last.slot} else {})
    {
      var a :| 0 <= a < |starts| && InWindow(starts[a], from) && starts[a].slot == slot;
      assert a < |init| ==> init[a] == starts[a];
    }
    forall slot | slot in SlotsInWindow(init, from)
      ensures slot in SlotsInWindow(starts, from)
    {
      var a :| 0 <= a < |init| && InWindow(init[a], from) && init[a].slot == slot;
      assert starts[a] == init[a];
    }
    assert InWindow(last, from) ==> starts[|starts| - 1].slot in SlotsInWindow(starts, from);
  }

  /** Starts of one slot are too far apart to share a window, so the starts in a window are
      as many as their slots. */
  lemma {:induction false} OneStartPerSlot(starts: seq<Start>, from: int)
    requires Spaced(starts)
    ensures CountInWindow(starts, from) == |SlotsInWindow(starts, from)|
  {
    if starts == [] {
      assert SlotsInWindow(starts, from) == {};
    } else {
      var init, last := starts[..|starts| - 1], starts[|starts| - 1];
      OneStartPerSlot(init, from);
      SlotsInWindowOfLast(starts, from);
      assert InWindow(last, from) ==> last.slot !in SlotsInWindow(init, from);
    }
  }

  lemma {:induction false} SetBelow(s: set<nat>, bound: nat)
    requires forall x | x in s :: x < bound
    ensures |s| <= bound
  {
    if bound > 0 {
      SetBelow(s - {bound - 1}, bound - 1);
      if bound - 1 !in s { assert s - {bound - 1} == s; }
    } else {
      assert s == {};
    }
  }

  /** With at most `requests` requests in flight, no two-second window sees more than that
      many probe pairs start. */
  lemma ProbeRateBound(config: Config, requests: nat, clock: int, env: Environment, steps: seq<Step>, from: int)
    ensures CountInWindow(Run(config, Initial(requests, clock, env), steps).starts, from) <= requests
  {
    RunKeepsInvariant(config, requests, clock, env, steps);
    var s := Run(config, Initial(requests, clock, env), steps);
    OneStartPerSlot(s.starts, from);
    SetBelow(SlotsInWindow(s.starts, from), requests);
  }

  /** All slots check before any of them stores: the first `n` of `requests` have missed. */
  lemma {:induction false} AllMiss(config: Config, requests: nat, clock: int, env: Environment, n: nat)
    requires n <= requests
    ensures Run(config, Initial(requests, clock, env), seq(n, i requires 0 <= i < n => Check(i)))
         == Initial(requests, clock, env)
            .(slots := seq(requests, i requires 0 <= i < requests => if i < n then Missed(clock, 0) else Idle))
  {
    var initial := Initial(requests, clock, env);
    var steps := seq(n, i requires 0 <= i < n => Check(i));
    if n == 0 {
      assert initial.slots == seq(requests, i requires 0 <= i < requests => Idle);
    } else {
      AllMiss(config, requests, clock, env, n - 1);
      assert steps[..n - 1] == seq(n - 1, i requires 0 <= i < n - 1 => Check(i));
      var before := Run(config, initial, steps[..n - 1]);
      assert before.slots[n - 1 := Missed(clock, 0)]
             == seq(requests, i requires 0 <= i < requests => if i < n then Missed(clock, 0) else Idle);
    }
  }

  lemma RunExtend(config: Config, initial: State, steps: seq<Step>, step: Step)
    ensures Run(config, initial, steps + [step]) == Apply(config, Run(config, initial, steps), step)
  {
    assert (steps + [step])[..|steps|] == steps;
  }

  lemma CountOneMore(starts: seq<Start>, start: Start, from: int)
    requires InWindow(start, from)
    ensures CountInWindow(starts + [start], from) == CountInWindow(starts, from) + 1
  {
    assert (starts + [start])[..|starts|] == starts;
  }

  function RushSteps(requests: nat, n: nat): seq<Step> {
    seq(requests, i requires 0 <= i < requests => Check(i)) + seq(n, i requires 0 <= i < n => Begin(i))
  }

  lemma RushOneMore(requests: nat, n: nat)
    requires n > 0
    ensures RushSteps(requests, n) == RushSteps(requests, n - 1) + [Begin(n - 1)]
  {
  }

  /** The first `n` of the slots, which had all missed, have started. */
  ghost predicate Rushed(s: State, requests: nat, clock: int, n: nat) {
    && s.clock == clock && |s.slots| == requests
    && (forall i | n <= i < requests :: s.slots[i] == Missed(clock, 0))
    && CountInWindow(s.starts, clock) == n
  }

  lemma OneMoreRushes(config: Config, s: State, requests: nat, clock: int, n: nat)
    requires n < requests && Rushed(s, requests, clock, n)
    ensures Rushed(Apply(config, s, Begin(n)), requests, clock, n + 1)
  {
    CountOneMore(s.starts, Start(n, clock, clock, 0, |s.stores|), clock);
  }

  lemma {:induction false} AllBegin(config: Config, requests: nat, clock: int, env: Environment, n: nat)
    requires n <= requests
    ensures Rushed(Run(config, Initial(requests, clock, env), RushSteps(requests, n)), requests, clock, n)
  {
    if n == 0 {
      AllMiss(config, requests, clock, env, requests);
      assert RushSteps(requests, n) == seq(requests, i requires 0 <= i < requests => Check(i));
    } else {
      AllBegin(config, requests, clock, env, n - 1);
      RushOneMore(requests, n);
      var before := Run(config, Initial(requests, clock, env), RushSteps(requests, n - 1));
      RunExtend(config, Initial(requests, clock, env), RushSteps(requests, n - 1), Begin(n - 1));
      OneMoreRushes(config, before, requests, clock, n - 1);
    }
  }

  /** The bound is reached: for any number of requests some run starts a probe pair for each
      of them at the same instant. */
  lemma ProbeRateBoundIsReached(config: Config, requests: nat, clock: int, env: Environment)
    ensures exists steps :: CountInWindow(Run(config, Initial(requests, clock, env), steps).starts, clock) == requests
  {
    AllBegin(config, requests, clock, env, requests);
  }

  // ---------------------------------------------------------------------------------------
  // Probing soon after a store
  // ---------------------------------------------------------------------------------------

  /** Start `a` came less than a TTL after store `j`, made before it. */
  predicate TooSoonAfter(s: State, a: nat, j: nat)
    requires a < |s.starts| && j < |s.stores|
  {
    j < s.starts[a].storesMade && s.starts[a].at < s.stores[j].at + CACHE_TTL
  }

  /** Some probe pair started although a store was less than a TTL old. */
  ghost predicate StartedEarly(s: State) {
    exists a: nat, j: nat | a < |s.starts| && j < |s.stores| :: TooSoonAfter(s, a, j)
  }

  /** Every store that a start follows too closely was made after the start was decided. */
  lemma EarlyProbeWasDecidedBeforeStore(
    config: Config, requests: nat, clock: int, env: Environment, steps: seq<Step>, a: nat, j: nat)
    requires var s := Run(config, Initial(requests, clock, env), steps);
             a < |s.starts| && j < |s.stores| && TooSoonAfter(s, a, j)
    ensures var s := Run(config, Initial(requests, clock, env), steps);
            s.starts[a].storesSeen <= j
  {
    RunKeepsInvariant(config, requests, clock, env, steps);
  }

  /** The one slot has every store in view when it decides. */
  ghost predicate SeesEveryStore(s: State) {
    && |s.slots| == 1 && (s.slots[0].Missed? ==> s.slots[0].storesSeen == |s.stores|)
    && forall a | 0 <= a < |s.starts| :: s.starts[a].storesSeen == s.starts[a].storesMade
  }

  lemma LoneStepSeesEveryStore(config: Config, s: State, step: Step)
    requires SeesEveryStore(s)
    ensures SeesEveryStore(Apply(config, s, step))
  {
  }

  /** A single request at a time decides with every store in view. */
  lemma {:induction false} LoneRequestSeesEveryStore(config: Config, clock: int, env: Environment, steps: seq<Step>)
    ensures SeesEveryStore(Run(config, Initial(1, clock, env), steps))
  {
    if steps != [] {
      LoneRequestSeesEveryStore(config, clock, env, steps[..|steps| - 1]);
      LoneStepSeesEveryStore(config, Run(config, Initial(1, clock, env), steps[..|steps| - 1]), steps[|steps| - 1]);
    }
  }

  lemma {:induction false} NoRequestNoStart(config: Config, clock: int, env: Environment, steps: seq<Step>)
    ensures var s := Run(config, Initial(0, clock, env), steps); s.slots == [] && s.starts == []
  {
    if steps != [] {
      NoRequestNoStart(config, clock, env, steps[..|steps| - 1]);
    }
  }

  lemma BothMiss(config: Config, requests: nat, clock: int, env: Environment) returns (steps: seq<Step>)
    requires requests >= 2
    ensures var s := Run(config, Initial(requests, clock, env), steps);
            && |s.slots| == requests && s.slots[0].Missed? && s.slots[1].ProbingKratos?
            && s.clock == clock && |s.starts| == 1 && s.stores == []
  {
    var s := Initial(requests, clock, env);
    RunExtend(config, s, [], Check(0));
    steps := [] + [Check(0)];
    RunExtend(config, s, steps, Check(1));
    steps := steps + [Check(1)];
    RunExtend(config, s, steps, Begin(1));
    steps := steps + [Begin(1)];
  }

  /** Two requests are enough: both miss, one of them stores, the other starts. */
  lemma OvertakenRun(config: Config, requests: nat, clock: int, env: Environment) returns (steps: seq<Step>)
    requires requests >= 2
    ensures StartedEarly(Run(config, Initial(requests, clock, env), steps))
  {
    var s := Initial(requests, clock, env);
    steps := BothMiss(config, requests, clock, env);
    RunExtend(config, s, steps, KratosAnswers(1));
    steps := steps + [KratosAnswers(1)];
    RunExtend(config, s, steps, HydraAnswers(1));
    steps := steps + [HydraAnswers(1)];
    RunExtend(config, s, steps, Store(1));
    steps := steps + [Store(1)];
    RunExtend(config, s, steps, Begin(0));
    steps := steps + [Begin(0)];
    assert TooSoonAfter(Run(config, s, steps), 1, 0);
  }

  ghost predicate ReachesEarlyStart(config: Config, requests: nat, clock: int, env: Environment, steps: seq<Step>) {
    StartedEarly(Run(config, Initial(requests, clock, env), steps))
  }

  /** A probe pair can start within a TTL of a store exactly when two requests can overlap. */
  lemma EarlyProbesNeedTwoRequests(config: Config, requests: nat, clock: int, env: Environment)
    ensures (exists steps :: ReachesEarlyStart(config, requests, clock, env, steps)) <==> requests >= 2
  {
    if requests >= 2 {
      var steps := OvertakenRun(config, requests, clock, env);
      assert ReachesEarlyStart(config, requests, clock, env, steps);
    } else {
      forall steps
        ensures !ReachesEarlyStart(config, requests, clock, env, steps)
      {
        if requests == 1 {
          LoneRequestIsNeverEarly(config, clock, env, steps);
        } else {
          NoRequestNoStart(config, clock, env, steps);
        }
      }
    }
  }

  lemma LoneRequestIsNeverEarly(config: Config, clock: int, env: Environment, steps: seq<Step>)
    ensures !StartedEarly(Run(config, Initial(1, clock, env), steps))
  {
    var s := Run(config, Initial(1, clock, env), steps);
    LoneRequestSeesEveryStore(config, clock, env, steps);
    forall a: nat, j: nat | a < |s.starts| && j < |s.stores|
      ensures !TooSoonAfter(s, a, j)
    {
      if TooSoonAfter(s, a, j) {
        EarlyProbeWasDecidedBeforeStore(config, 1, clock, env, steps, a, j);
      }
    }
  }

  // ---------------------------------------------------------------------------------------
  // What a cache hit means
  // ---------------------------------------------------------------------------------------

  /** A hit is the newest store's complete probe pair, strictly less than two seconds old;
      it is healthy exactly when both dependencies were; and it is what a fresh probe would
      say unless a dependency changed after that probe pair began. */
  lemma HitIsRecentProbe(config: Config, requests: nat, clock: int, env: Environment, steps: seq<Step>)
    requires var s := Run(config, Initial(requests, clock, env), steps);
             CacheLookup(s.cached, s.clock).Some?
    ensures var s := Run(config, Initial(requests, clock, env), steps);
            var hit := CacheLookup(s.cached, s.clock).value;
            && s.stores != []
            && var newest := s.stores[|s.stores| - 1];
               && hit == newest.result
               && newest.at <= s.clock < newest.at + 2_000_000_000
               && (hit.status.Healthy? <==> hit.kratos.status.Healthy? && hit.hydra.status.Healthy?)
               && (newest.began == s.version ==>
                     hit == FreshResult(config, s.env) && ResultTells(config, s.env.kratos, s.env.hydra, hit))
  {
    RunKeepsInvariant(config, requests, clock, env, steps);
    var s := Run(config, Initial(requests, clock, env), steps);
    assert StoreCurrent(config, s, s.stores[|s.stores| - 1]);
    FreshResultTells(config, s.env);
  }

  lemma StoreTimesNeverDecrease(
    config: Config, requests: nat, clock: int, env: Environment, steps: seq<Step>, a: nat, b: nat)
    requires a < b < |Run(config, Initial(requests, clock, env), steps).stores|
    ensures var stores := Run(config, Initial(requests, clock, env), steps).stores; stores[a].at <= stores[b].at
  {
    RunKeepsInvariant(config, requests, clock, env, steps);
  }

  // ---------------------------------------------------------------------------------------
  // The log
  // ---------------------------------------------------------------------------------------

  /** "Unhealthy" lines minus "recovered" lines, written or still owed, are 1 while the cache
      says unhealthy and 0 otherwise. */
  lemma LogConservation(config: Config, requests: nat, clock: int, env: Environment, steps: seq<Step>, d: Dependency)
    ensures var s := Run(config, Initial(requests, clock, env), steps);
            NetLines(d, s.log) + TotalOwed(d, s.slots) == Level(d, CachedResult(s.cached))
  {
    RunKeepsInvariant(config, requests, clock, env, steps);
  }

  /** Once no request owes a line, the log alone tells the cached status. */
  lemma SettledLogTellsStatus(
    config: Config, requests: nat, clock: int, env: Environment, steps: seq<Step>, d: Dependency)
    requires var s := Run(config, Initial(requests, clock, env), steps);
             forall i | 0 <= i < |s.slots| :: !s.slots[i].OwesBoth? && !s.slots[i].OwesHydra?
    ensures var s := Run(config, Initial(requests, clock, env), steps);
            NetLines(d, s.log) == if s.cached.Some? && s.cached.value.result.Check(d).status.Unhealthy? then 1 else 0
  {
    var s := Run(config, Initial(requests, clock, env), steps);
    LogConservation(config, requests, clock, env, steps, d);
    IdleSlotsOweNothing(d, s.slots);
  }
}
