/** Finding the actor id again when a refresh token is exchanged
    (internal/challenge/refresh_resolver.go): read, re-stamp once if there is none, read again. */
module Refresh {
  import opened Wrappers

  datatype ReadAnswer = ReadFailed | ReadGave(actorId: string)

  /** Unavailable is ErrRefreshTemporarilyUnavailable. */
  datatype Answer = Resolved(actorId: string) | Unavailable

  /** Where a resolution stands. */
  datatype Phase = FirstRead | Stamping | SecondRead | Finished(answer: Answer)

  function Begin(grantedScope: seq<string>): Phase {
    if "alkemio" !in grantedScope then Finished(Resolved("")) else FirstRead
  }

  function AfterFirstRead(answer: ReadAnswer): Phase {
    if answer.ReadFailed? then Finished(Unavailable)
    else if answer.actorId != "" then Finished(Resolved(answer.actorId))
    else Stamping
  }

  function AfterStamp(ok: bool): Phase {
    if ok then SecondRead else Finished(Unavailable)
  }

  function AfterSecondRead(answer: ReadAnswer): Phase {
    if answer.ReadFailed? || answer.actorId == "" then Finished(Unavailable) else Finished(Resolved(answer.actorId))
  }

  /** The actor ids in Kratos by identity id, at one moment. */
  type Store = map<string, string>

  function HeldIn(store: Store, id: string): string {
    if id in store then store[id] else ""
  }

  /** One of the stores `from` to `to` held `actorId` for the identity. */
  ghost predicate HeldDuring(history: seq<Store>, from: nat, to: nat, id: string, actorId: string) {
    exists i | from <= i <= to && i < |history| :: HeldIn(history[i], id) == actorId
  }

  /** A call to the outside. While a read was under way Kratos went through the stores `from`
      to `to` of its history. */
  datatype Event = Read(id: string, from: nat, to: nat, answer: ReadAnswer) | Stamp(id: string, ok: bool)

  /** Reads after store `start` tell the truth or fail: what they give was held while they were
      under way. */
  ghost predicate Honest(start: nat, history: seq<Store>, e: Event) {
    e.Read? ==>
      && start <= e.from <= e.to < |history|
      && (e.answer.ReadGave? ==> HeldDuring(history, e.from, e.to, e.id, e.answer.actorId))
  }

  function Advance(phase: Phase, e: Event): Option<Phase> {
    match (phase, e)
    case (FirstRead, Read(_, _, _, answer)) => Some(AfterFirstRead(answer))
    case (Stamping, Stamp(_, ok)) => Some(AfterStamp(ok))
    case (SecondRead, Read(_, _, _, answer)) => Some(AfterSecondRead(answer))
    case _ => None
  }

  /** The phase after these events for `id`; None when they are not a resolution's events. */
  function Replay(id: string, phase: Phase, events: seq<Event>): Option<Phase>
    decreases events
  {
    if events == [] then Some(phase)
    else if events[0].id != id then None
    else
      var next := Advance(phase, events[0]);
      if next.None? then None else Replay(id, next.value, events[1..])
  }

  /** The events of a finished resolution: read, then stamp, then read, cut off where the
      answer is known. */
  ghost predicate Shaped(id: string, events: seq<Event>, answer: Answer) {
    && 1 <= |events| <= 3
    && (forall i | 0 <= i < |events| :: events[i].id == id && (events[i].Read? <==> i != 1))
    && match |events|
       case 1 => AfterFirstRead(events[0].answer) == Finished(answer)
       case 2 => AfterFirstRead(events[0].answer) == Stamping && AfterStamp(events[1].ok) == Finished(answer)
       case _ =>
         && AfterFirstRead(events[0].answer) == Stamping && AfterStamp(events[1].ok) == SecondRead
         && AfterSecondRead(events[2].answer) == Finished(answer)
  }

  lemma ReplayShape(id: string, events: seq<Event>, answer: Answer)
    requires Replay(id, FirstRead, events) == Some(Finished(answer))
    ensures Shaped(id, events, answer)
  {
    assert events != [] && events[0].Read?;
    var second := AfterFirstRead(events[0].answer);
    if second.Stamping? {
      assert events[1..] != [] && events[1..][0] == events[1] && events[1].Stamp?;
      assert events[1..][1..] == events[2..];
      var third := AfterStamp(events[1].ok);
      assert Replay(id, third, events[2..]) == Some(Finished(answer));
      if third.SecondRead? {
        assert events[2..] != [] && events[2..][0] == events[2] && events[2].Read?;
        assert events[2..][1..] == events[3..];
        assert Replay(id, AfterSecondRead(events[2].answer), events[3..]) == Some(Finished(answer));
        assert events[3..] == [];
      } else {
        assert events[2..] == [];
      }
    } else {
      assert events[1..] == [];
    }
  }

  /** A finished resolution asked nothing without `alkemio` in scope; otherwise it made at most
      two reads and one stamp, stamped only after an empty read, and answers with what its last
      read gave or not at all. */
  lemma ResolutionSummary(id: string, grantedScope: seq<string>, events: seq<Event>, answer: Answer)
    requires Replay(id, Begin(grantedScope), events) == Some(Finished(answer))
    ensures answer == Resolved("") <==> "alkemio" !in grantedScope
    ensures "alkemio" !in grantedScope <==> events == []
    ensures |events| <= 3 && forall i | 0 <= i < |events| :: events[i].id == id && (events[i].Read? <==> i != 1)
    ensures |events| > 1 ==> events[0].answer == ReadGave("")
    ensures |events| == 3 ==> events[1].ok
    ensures answer.Resolved? && answer.actorId != "" ==>
              events != [] && var last := events[|events| - 1]; last.Read? && last.answer == ReadGave(answer.actorId)
    ensures answer.Unavailable? ==>
              && events != []
              && var last := events[|events| - 1];
                 (last.Stamp? && !last.ok) ||
                 (last.Read? && (last.answer.ReadFailed? || (|events| == 3 && last.answer.actorId == "")))
  {
    if "alkemio" in grantedScope {
      ReplayShape(id, events, answer);
    }
  }

  /** Kratos as the resolver meets it: others write to it between and during its calls. Every
      store it has been in is in `history`, the present one last. */
  class Kratos {
    var actorIds: Store
    ghost var history: seq<Store>
    ghost var events: seq<Event>

    ghost predicate Valid()
      reads this
    {
      history != [] && history[|history| - 1] == actorIds
    }

    constructor (actorIds: Store)
      ensures Valid() && this.actorIds == actorIds && history == [actorIds] && events == []
    {
      this.actorIds := actorIds;
      history := [actorIds];
      events := [];
    }

    /** Anyone else may have written anything. */
    method OthersWrite()
      requires Valid()
      modifies this`actorIds, this`history
      ensures Valid() && history == old(history) + [actorIds]
    {
      actorIds := *;
      history := history + [actorIds];
    }

    /** An answer was held at some moment of the call. */
    method ReadAlkemioActorID(id: string) returns (answer: ReadAnswer)
      requires Valid()
      modifies this
      ensures Valid() && old(history) <= history
      ensures events == old(events) + [Read(id, |old(history)| - 1, |history| - 1, answer)]
      ensures answer.ReadGave? ==>
                HeldDuring(history, |old(history)| - 1, |history| - 1, id, answer.actorId)
    {
      ghost var from, read := |history| - 1, |history|;
      OthersWrite();
      var fails: bool := *;
      answer := if fails then ReadFailed else ReadGave(HeldIn(actorIds, id));
      OthersWrite();
      assert answer.ReadGave? ==> HeldIn(history[read], id) == answer.actorId;
      events := events + [Read(id, from, |history| - 1, answer)];
    }

    /** The re-stamper writes what it likes, and so does everyone else meanwhile. */
    method ReStamp(id: string) returns (ok: bool)
      requires Valid()
      modifies this
      ensures Valid() && old(history) <= history
      ensures events == old(events) + [Stamp(id, ok)]
    {
      OthersWrite();
      ok := *;
      events := events + [Stamp(id, ok)];
    }
  }

  lemma {:induction false} ReplayAppend(id: string, phase: Phase, events: seq<Event>, e: Event)
    requires Replay(id, phase, events).Some? && e.id == id
    ensures Replay(id, phase, events + [e]) == Advance(Replay(id, phase, events).value, e)
    decreases events
  {
    if events == [] {
      assert (events + [e])[1..] == [];
    } else {
      assert (events + [e])[1..] == events[1..] + [e];
      ReplayAppend(id, Advance(phase, events[0]).value, events[1..], e);
    }
  }

  /** What a resolution has done since store `start`, and the phase it is in: honest reads, the
      second after the first. */
  ghost predicate Trace(
    id: string, grantedScope: seq<string>, start: nat, history: seq<Store>, events: seq<Event>, phase: Phase)
  {
    && Replay(id, Begin(grantedScope), events) == Some(phase)
    && |events| <= 3
    && (events != [] ==> events[0].Read? && Honest(start, history, events[0]))
    && (|events| == 3 ==> Honest(events[0].to, history, events[2]))
  }

  lemma TraceOfRead(
    id: string, grantedScope: seq<string>, history: seq<Store>, later: seq<Store>, first: Event)
    requires "alkemio" in grantedScope && history != [] && history <= later
    requires first.Read? && first.id == id && Honest(|history| - 1, later, first)
    ensures Trace(id, grantedScope, |history| - 1, later, [first], AfterFirstRead(first.answer))
  {
    ReplayAppend(id, FirstRead, [], first);
    assert [] + [first] == [first];
  }

  lemma TraceOfStamp(
    id: string, grantedScope: seq<string>, start: nat, history: seq<Store>, later: seq<Store>, first: Event, ok: bool)
    requires start < |history| && history <= later
    requires Trace(id, grantedScope, start, history, [first], Stamping)
    ensures Trace(id, grantedScope, start, later, [first, Stamp(id, ok)], AfterStamp(ok))
  {
    ReplayAppend(id, Begin(grantedScope), [first], Stamp(id, ok));
    assert [first] + [Stamp(id, ok)] == [first, Stamp(id, ok)];
  }

  lemma TraceOfSecondRead(
    id: string, grantedScope: seq<string>, start: nat, history: seq<Store>, later: seq<Store>,
    first: Event, stamp: Event, second: Event)
    requires start < |history| && history <= later
    requires Trace(id, grantedScope, start, history, [first, stamp], SecondRead)
    requires second.Read? && second.id == id && Honest(|history| - 1, later, second)
    ensures Trace(id, grantedScope, start, later, [first, stamp, second], AfterSecondRead(second.answer))
  {
    ReplayAppend(id, Begin(grantedScope), [first, stamp], second);
    assert [first, stamp] + [second] == [first, stamp, second];
  }

  /** A non-empty answer is what Kratos held during the last read. */
  lemma AnswerWasHeld(
    id: string, grantedScope: seq<string>, start: nat, history: seq<Store>, events: seq<Event>, actorId: string)
    requires Trace(id, grantedScope, start, history, events, Finished(Resolved(actorId))) && actorId != ""
    ensures events != []
    ensures var last := events[|events| - 1];
            last.Read? && start <= last.from && HeldDuring(history, last.from, last.to, id, actorId)
  {
    ResolutionSummary(id, grantedScope, events, Resolved(actorId));
  }

  /** RefreshResolver.Resolve, making the calls `made`. A non-empty answer was held by Kratos
      during the last read, which is the last thing that happened. */
  method Resolve(kratos: Kratos, identityId: string, grantedScope: seq<string>)
    returns (answer: Answer, ghost made: seq<Event>)
    requires kratos.Valid()
    modifies kratos
    ensures kratos.Valid() && old(kratos.history) <= kratos.history && kratos.events == old(kratos.events) + made
    ensures Trace(identityId, grantedScope, |old(kratos.history)| - 1, kratos.history, made, Finished(answer))
    ensures answer.Resolved? && answer.actorId != "" ==>
              && made != []
              && var last := made[|made| - 1];
                 && last.Read? && last.to == |kratos.history| - 1 && |old(kratos.history)| - 1 <= last.from
                 && HeldDuring(kratos.history, last.from, last.to, identityId, answer.actorId)
  {
    if "alkemio" !in grantedScope {
      return Resolved(""), [];
    }
    ghost var before, history := kratos.history, kratos.history;
    var actorId := "";
    var first := kratos.ReadAlkemioActorID(identityId);
    ghost var read := Read(identityId, |before| - 1, |kratos.history| - 1, first);
    TraceOfRead(identityId, grantedScope, before, kratos.history, read);
    if first.ReadFailed? {
      return Unavailable, [read];
    }
    actorId := first.actorId;
    if actorId != "" {
      return Resolved(actorId), [read];
    }
    history := kratos.history;
    var stamped := kratos.ReStamp(identityId);
    ghost var stamp := Stamp(identityId, stamped);
    TraceOfStamp(identityId, grantedScope, |before| - 1, history, kratos.history, read, stamped);
    if !stamped {
      return Unavailable, [read, stamp];
    }
    history := kratos.history;
    var second := kratos.ReadAlkemioActorID(identityId);
    ghost var again := Read(identityId, |history| - 1, |kratos.history| - 1, second);
    TraceOfSecondRead(identityId, grantedScope, |before| - 1, history, kratos.history, read, stamp, again);
    made := [read, stamp, again];
    assert kratos.events == old(kratos.events) + made;
    if second.ReadFailed? {
      return Unavailable, made;
    }
    actorId := second.actorId;
    if actorId == "" {
      return Unavailable, made;
    }
    answer := Resolved(actorId);
  }

  // ---------------------------------------------------------------------------------------
  // The stub transports
  // ---------------------------------------------------------------------------------------

  const HAPPY := "kratos-happy"
  const MISS_THEN_PRESENT := "kratos-miss-then-present"
  const PERMANENT_MISS := "kratos-permanent-miss"

  function StubHeld(restamped: set<string>, id: string): string {
    if id == HAPPY then "actor-happy"
    else if id == MISS_THEN_PRESENT then (if id in restamped then "actor-miss-then-present" else "")
    else ""
  }

  /** The stub reader and the stub stamper share one set of stamped identities. */
  class StubTransports {
    var restamped: set<string>

    constructor ()
      ensures restamped == {}
    {
      restamped := {};
    }

    method ReadAlkemioActorID(id: string) returns (answer: ReadAnswer)
      ensures answer == ReadGave(StubHeld(restamped, id))
    {
      answer := ReadGave(StubHeld(restamped, id));
    }

    method ReStamp(id: string) returns (ok: bool)
      modifies this
      ensures ok
      ensures restamped == old(restamped) + if id == PERMANENT_MISS then {} else {id}
    {
      if id != PERMANENT_MISS {
        restamped := restamped + {id};
      }
      ok := true;
    }

    /** With the stubs every identity but the two known ones is unavailable once `alkemio` is
        in scope, whatever was stamped before; the comments in the token hook say otherwise. */
    method Resolve(identityId: string, grantedScope: seq<string>) returns (answer: Answer)
      modifies this
      ensures answer == if "alkemio" !in grantedScope then Resolved("")
                        else if identityId == HAPPY then Resolved("actor-happy")
                        else if identityId == MISS_THEN_PRESENT then Resolved("actor-miss-then-present")
                        else Unavailable
    {
      if "alkemio" !in grantedScope {
        return Resolved("");
      }
      var first := ReadAlkemioActorID(identityId);
      if first.actorId != "" {
        return Resolved(first.actorId);
      }
      var _ := ReStamp(identityId);
      var second := ReadAlkemioActorID(identityId);
      if second.actorId == "" {
        return Unavailable;
      }
      answer := Resolved(second.actorId);
    }
  }
}
