/** One goroutine updating the maintenance state while others take snapshots of it. A step is
    one atomic store or one atomic load; version 0 is the state the service starts with, and
    version `v` is what the `v`-th update writes. */
module MaintenanceRuns {
  import opened Wrappers
  import opened Maintenance

  datatype Cell<T> = Cell(value: T, version: nat)

  datatype Memory = Memory(enabled: Cell<bool>, message: Cell<string>, retryAfter: Cell<Option<int>>)

  datatype WriterPhase = Ready | EnabledStored | MessageStored

  /** How far a snapshot has come, with the number of stores that came before each load. */
  datatype Reader =
    | Unread
    | HasEnabled(enabled: Cell<bool>, first: nat)
    | HasMessage(enabled: Cell<bool>, message: Cell<string>, first: nat, second: nat)
    | Complete(enabled: Cell<bool>, message: Cell<string>, retryAfter: Cell<Option<int>>,
               first: nat, second: nat, third: nat)

  datatype State = State(memory: Memory, writer: WriterPhase, next: nat, stores: nat, readers: seq<Reader>)

  datatype Step = WriterStores | ReaderLoads(reader: nat)

  function Initial(updates: seq<Settings>, readers: nat): State
    requires updates != []
  {
    State(Memory(Cell(updates[0].enabled, 0), Cell(EffectiveMessage(updates[0].message), 0),
                 Cell(updates[0].retryAfter, 0)),
          Ready, 1, 0, seq(readers, _ => Unread))
  }

  function WriterStep(updates: seq<Settings>, s: State): State {
    if s.next >= |updates| then s else
      var u := updates[s.next];
      match s.writer
      case Ready =>
        s.(memory := s.memory.(enabled := Cell(u.enabled, s.next)), writer := EnabledStored, stores := s.stores + 1)
      case EnabledStored =>
        s.(memory := s.memory.(message := Cell(EffectiveMessage(u.message), s.next)),
           writer := MessageStored, stores := s.stores + 1)
      case MessageStored =>
        s.(memory := s.memory.(retryAfter := Cell(u.retryAfter, s.next)),
           writer := Ready, stores := s.stores + 1, next := s.next + 1)
  }

  function ReaderStep(s: State, reader: Reader): Reader {
    match reader
    case Unread => HasEnabled(s.memory.enabled, s.stores)
    case HasEnabled(e, first) => HasMessage(e, s.memory.message, first, s.stores)
    case HasMessage(e, m, first, second) => Complete(e, m, s.memory.retryAfter, first, second, s.stores)
    case Complete(_, _, _, _, _, _) => Unread
  }

  function Apply(updates: seq<Settings>, s: State, step: Step): State {
    match step
    case WriterStores => WriterStep(updates, s)
    case ReaderLoads(i) => if i < |s.readers| then s.(readers := s.readers[i := ReaderStep(s, s.readers[i])]) else s
  }

  function Run(updates: seq<Settings>, s: State, steps: seq<Step>): State
    decreases steps
  {
    if steps == [] then s else Run(updates, Apply(updates, s, steps[0]), steps[1..])
  }

  // The version each field holds once `stores` stores have been made.

  function EnabledVersion(stores: nat): nat { (stores + 2) / 3 }

  function MessageVersion(stores: nat): nat { (stores + 1) / 3 }

  function RetryVersion(stores: nat): nat { stores / 3 }

  ghost predicate HoldsEnabled(updates: seq<Settings>, c: Cell<bool>, stores: nat) {
    c.version == EnabledVersion(stores) < |updates| && c.value == updates[c.version].enabled
  }

  ghost predicate HoldsMessage(updates: seq<Settings>, c: Cell<string>, stores: nat) {
    c.version == MessageVersion(stores) < |updates| && c.value == EffectiveMessage(updates[c.version].message)
  }

  ghost predicate HoldsRetry(updates: seq<Settings>, c: Cell<Option<int>>, stores: nat) {
    c.version == RetryVersion(stores) < |updates| && c.value == updates[c.version].retryAfter
  }

  ghost predicate WriterConsistent(updates: seq<Settings>, s: State) {
    && s.next == s.stores / 3 + 1
    && (s.writer == if s.stores % 3 == 0 then Ready else if s.stores % 3 == 1 then EnabledStored else MessageStored)
    && HoldsEnabled(updates, s.memory.enabled, s.stores)
    && HoldsMessage(updates, s.memory.message, s.stores)
    && HoldsRetry(updates, s.memory.retryAfter, s.stores)
  }

  ghost predicate ReaderConsistent(updates: seq<Settings>, s: State, reader: Reader) {
    && (!reader.Unread? ==> reader.first <= s.stores && HoldsEnabled(updates, reader.enabled, reader.first))
    && (reader.HasMessage? || reader.Complete? ==>
          reader.first <= reader.second <= s.stores && HoldsMessage(updates, reader.message, reader.second))
    && (reader.Complete? ==>
          reader.second <= reader.third <= s.stores && HoldsRetry(updates, reader.retryAfter, reader.third))
  }

  ghost predicate Invariant(updates: seq<Settings>, s: State) {
    && WriterConsistent(updates, s)
    && forall i | 0 <= i < |s.readers| :: ReaderConsistent(updates, s, s.readers[i])
  }

  lemma WriterKeepsInvariant(updates: seq<Settings>, s: State)
    requires Invariant(updates, s)
    ensures Invariant(updates, WriterStep(updates, s))
  {
    var t := WriterStep(updates, s);
    assert WriterConsistent(updates, t);
    forall i | 0 <= i < |t.readers| ensures ReaderConsistent(updates, t, t.readers[i]) {
      assert ReaderConsistent(updates, s, s.readers[i]);
    }
  }

  lemma StepKeepsInvariant(updates: seq<Settings>, s: State, step: Step)
    requires Invariant(updates, s)
    ensures Invariant(updates, Apply(updates, s, step))
  {
    match step
    case WriterStores => WriterKeepsInvariant(updates, s);
    case ReaderLoads(i) => assert i < |s.readers| ==> ReaderConsistent(updates, s, s.readers[i]);
  }

  lemma {:induction false} RunKeepsInvariant(updates: seq<Settings>, s: State, steps: seq<Step>)
    requires Invariant(updates, s)
    ensures Invariant(updates, Run(updates, s, steps))
    decreases steps
  {
    if steps != [] {
      StepKeepsInvariant(updates, s, steps[0]);
      RunKeepsInvariant(updates, Apply(updates, s, steps[0]), steps[1..]);
    }
  }

  /** Some run over `updates` lets reader `i` complete a snapshot of these versions. */
  ghost predicate Observes(updates: seq<Settings>, readers: nat, steps: seq<Step>, i: nat, e: nat, m: nat, r: nat)
    requires updates != []
  {
    var s := Run(updates, Initial(updates, readers), steps);
    && i < |s.readers| && s.readers[i].Complete?
    && s.readers[i].enabled.version == e && s.readers[i].message.version == m && s.readers[i].retryAfter.version == r
  }

  /** Later fields are at most one version behind earlier ones. */
  predicate TornAtMostOnce(e: nat, m: nat, r: nat) {
    m + 1 >= e && r + 1 >= e && r + 1 >= m
  }

  lemma SnapshotTearsAtMostOnce(updates: seq<Settings>, readers: nat, steps: seq<Step>, i: nat, e: nat, m: nat, r: nat)
    requires updates != [] && Observes(updates, readers, steps, i, e, m, r)
    ensures TornAtMostOnce(e, m, r) && e < |updates| && m < |updates| && r < |updates|
  {
    RunKeepsInvariant(updates, Initial(updates, readers), steps);
    var s := Run(updates, Initial(updates, readers), steps);
    assert ReaderConsistent(updates, s, s.readers[i]);
  }

  /** Every field of a snapshot is what some one update wrote, whole. */
  lemma SnapshotValues(updates: seq<Settings>, readers: nat, steps: seq<Step>, i: nat)
    requires updates != []
    requires var s := Run(updates, Initial(updates, readers), steps); i < |s.readers| && s.readers[i].Complete?
    ensures var snap := Run(updates, Initial(updates, readers), steps).readers[i];
            && snap.enabled.version < |updates| && snap.enabled.value == updates[snap.enabled.version].enabled
            && snap.message.version < |updates|
            && snap.message.value == EffectiveMessage(updates[snap.message.version].message)
            && (updates[snap.message.version].message != "" ==>
                  snap.message.value == updates[snap.message.version].message)
            && snap.retryAfter.version < |updates|
            && snap.retryAfter.value == updates[snap.retryAfter.version].retryAfter
  {
    RunKeepsInvariant(updates, Initial(updates, readers), steps);
    var s := Run(updates, Initial(updates, readers), steps);
    assert ReaderConsistent(updates, s, s.readers[i]);
  }

  /** No update in progress when the snapshot began, and no store until it ended. */
  ghost predicate Undisturbed(snap: Reader)
    requires snap.Complete?
  {
    snap.first == snap.third && snap.first % 3 == 0
  }

  lemma VersionsAgreeBetweenUpdates(stores: nat)
    requires stores % 3 == 0
    ensures EnabledVersion(stores) == MessageVersion(stores) == RetryVersion(stores) == stores / 3
  {
  }

  /** Such a snapshot is the newest finished update, all three fields of it. */
  lemma UndisturbedSnapshotIsLatest(updates: seq<Settings>, readers: nat, steps: seq<Step>, i: nat)
    requires updates != []
    requires var s := Run(updates, Initial(updates, readers), steps);
             i < |s.readers| && s.readers[i].Complete? && Undisturbed(s.readers[i])
    ensures var snap := Run(updates, Initial(updates, readers), steps).readers[i];
            var latest := snap.third / 3;
            && latest < |updates|
            && Settings(snap.enabled.value, snap.message.value, snap.retryAfter.value)
               == updates[latest].(message := EffectiveMessage(updates[latest].message))
  {
    RunKeepsInvariant(updates, Initial(updates, readers), steps);
    var s := Run(updates, Initial(updates, readers), steps);
    var snap := s.readers[i];
    assert ReaderConsistent(updates, s, snap);
    assert snap.first == snap.second == snap.third;
    VersionsAgreeBetweenUpdates(snap.third);
  }

  // Every combination of versions within the bound is reached.

  function WriterSteps(n: nat): seq<Step> {
    seq(n, _ => WriterStores)
  }

  lemma {:induction false} RunConcat(updates: seq<Settings>, s: State, first: seq<Step>, second: seq<Step>)
    ensures Run(updates, s, first + second) == Run(updates, Run(updates, s, first), second)
    decreases first
  {
    if first == [] {
      assert first + second == second;
    } else {
      assert (first + second)[1..] == first[1..] + second;
      RunConcat(updates, Apply(updates, s, first[0]), first[1..], second);
    }
  }

  /** The writer alone moves on by `n` stores while updates are left; readers stay put. */
  lemma {:induction false} WriterAlone(updates: seq<Settings>, s: State, n: nat)
    requires Invariant(updates, s) && s.stores + n <= 3 * (|updates| - 1)
    ensures var t := Run(updates, s, WriterSteps(n));
            Invariant(updates, t) && t.stores == s.stores + n && t.readers == s.readers
    decreases n
  {
    if n > 0 {
      StepKeepsInvariant(updates, s, WriterStores);
      assert WriterSteps(n)[1..] == WriterSteps(n - 1);
      WriterAlone(updates, WriterStep(updates, s), n - 1);
    }
  }

  lemma RunOne(updates: seq<Settings>, s: State, step: Step)
    ensures Run(updates, s, [step]) == Apply(updates, s, step)
  {
    assert [step][1..] == [];
  }

  /** The writer moves on to `stores` stores, then the only reader makes its next load. */
  lemma AdvanceAndLoad(updates: seq<Settings>, s: State, stores: nat) returns (steps: seq<Step>, t: State)
    requires Invariant(updates, s) && |s.readers| == 1
    requires s.stores <= stores <= 3 * (|updates| - 1)
    ensures t == Run(updates, s, steps) && Invariant(updates, t) && t.stores == stores
    ensures |t.readers| == 1 && t.readers[0] == ReaderStep(t, s.readers[0])
  {
    WriterAlone(updates, s, stores - s.stores);
    var u := Run(updates, s, WriterSteps(stores - s.stores));
    t := Apply(updates, u, ReaderLoads(0));
    StepKeepsInvariant(updates, u, ReaderLoads(0));
    steps := WriterSteps(stores - s.stores) + [ReaderLoads(0)];
    RunConcat(updates, s, WriterSteps(stores - s.stores), [ReaderLoads(0)]);
    RunOne(updates, u, ReaderLoads(0));
  }

  function Max(a: int, b: int): int { if a < b then b else a }

  /** Instants, counted in stores, at which the three fields hold versions (e, m, r). */
  lemma TearInstants(e: nat, m: nat, r: nat) returns (first: nat, second: nat, third: nat)
    requires TornAtMostOnce(e, m, r)
    ensures first <= second <= third <= 3 * Max(e, Max(m, r))
    ensures EnabledVersion(first) == e && MessageVersion(second) == m && RetryVersion(third) == r
  {
    first := Max(0, 3 * e - 2);
    second := Max(first, 3 * m - 1);
    third := Max(second, 3 * r);
  }

  lemma EveryBoundedTearIsReached(updates: seq<Settings>, e: nat, m: nat, r: nat) returns (steps: seq<Step>)
    requires e < |updates| && m < |updates| && r < |updates| && TornAtMostOnce(e, m, r)
    ensures Observes(updates, 1, steps, 0, e, m, r)
  {
    var initial := Initial(updates, 1);
    var first, second, third := TearInstants(e, m, r);
    var a, s := AdvanceAndLoad(updates, initial, first);
    var b, t := AdvanceAndLoad(updates, s, second);
    var c, u := AdvanceAndLoad(updates, t, third);
    RunConcat(updates, initial, a, b);
    RunConcat(updates, initial, a + b, c);
    steps := a + b + c;
    assert ReaderConsistent(updates, u, u.readers[0]);
  }

  ghost predicate Observable(updates: seq<Settings>, e: nat, m: nat, r: nat)
    requires updates != []
  {
    exists readers, steps, i :: Observes(updates, readers, steps, i, e, m, r)
  }

  /** A snapshot can show versions (e, m, r) exactly when they exist and none of the later
      loads is more than one version behind an earlier one. */
  lemma ObservableVersions(updates: seq<Settings>, e: nat, m: nat, r: nat)
    requires updates != []
    ensures Observable(updates, e, m, r) <==>
            e < |updates| && m < |updates| && r < |updates| && TornAtMostOnce(e, m, r)
  {
    if e < |updates| && m < |updates| && r < |updates| && TornAtMostOnce(e, m, r) {
      var steps := EveryBoundedTearIsReached(updates, e, m, r);
      assert Observes(updates, 1, steps, 0, e, m, r);
    }
    if Observable(updates, e, m, r) {
      var readers, steps, i :| Observes(updates, readers, steps, i, e, m, r);
      SnapshotTearsAtMostOnce(updates, readers, steps, i, e, m, r);
    }
  }
}
