/** The Alkemio API lookup with its retries (internal/alkemio/identity_resolver.go). HTTP
    answers, cancellations and the time calls take are given by a script; times are in
    milliseconds. */
module IdentityResolver {
  import opened Wrappers
  import opened Text
  import opened UuidText

  const DEFAULT_TIMEOUT: int := 30_000
  const DEFAULT_MAX_RETRIES: int := 1
  const DEFAULT_BACKOFF: int := 200

  /** Config after NewIdentityResolver has filled in its defaults. */
  datatype Resolver = Resolver(timeout: int, retries: int)

  datatype ContextError = Canceled | DeadlineExceeded

  datatype ResolveError =
    | AuthenticationIdRequired
    | AuthenticationIdNotUuid
    | NotFound
    | Context(cause: ContextError)
    | Temporary
    | RequestNotBuilt
    | Rejected(status: int)
    | ActorIdMissing
    | ActorIdNotUuid

  datatype Payload = Payload(userId: string, actorId: string)

  /** A body of None does not decode. */
  datatype HttpReply = NotBuilt | TransportFailure | Response(status: int, body: Option<Payload>)

  /** One attempt: what the server answers, how long that takes, whether the caller has
      cancelled by then, and whether the wait after it is cut short before its time. */
  datatype Attempt = Attempt(reply: HttpReply, elapsed: nat, canceled: bool, waitCut: Option<ContextError>)

  type Script = nat -> Attempt

  function NewResolver(timeout: int, retries: int): (r: Resolver)
    ensures r.timeout > 0 && r.retries > 0
    ensures timeout > 0 ==> r.timeout == timeout
    ensures retries > 0 ==> r.retries == retries
    ensures timeout <= 0 ==> r.timeout == 30_000
    ensures retries <= 0 ==> r.retries == 1
  {
    Resolver(if timeout <= 0 then DEFAULT_TIMEOUT else timeout, if retries <= 0 then DEFAULT_MAX_RETRIES else retries)
  }

  /** withTimeout: the deadline of the derived context. */
  function Deadline(r: Resolver, now: int, caller: Option<int>): (d: Option<int>)
    ensures r.timeout > 0 ==> d.Some? && d.value <= now + r.timeout
    ensures caller.Some? ==> d.Some? && d.value <= caller.value
    ensures d == caller || d == Some(now + r.timeout)
  {
    if r.timeout <= 0 then caller
    else if caller.Some? && caller.value - now <= r.timeout then caller
    else Some(now + r.timeout)
  }

  /** ctx.Err() at a time. */
  function ContextErr(deadline: Option<int>, now: int, canceled: bool): Option<ContextError> {
    if canceled then Some(Canceled)
    else if deadline.Some? && deadline.value <= now then Some(DeadlineExceeded)
    else None
  }

  function BackoffDuration(attempt: int): int {
    if attempt <= 0 then DEFAULT_BACKOFF else attempt * DEFAULT_BACKOFF
  }

  predicate IsTemporary(e: ResolveError) {
    e.Temporary?
  }

  /** An answer that names an actor: not an error status, a body that decodes, and in it a UUID
      as `actorId` or, where that is blank as it is with older servers, as `userId`. */
  ghost predicate Tells(reply: HttpReply, actorId: string) {
    && reply.Response? && reply.status < 400 && reply.body.Some?
    && actorId == TrimSpace(if TrimSpace(reply.body.value.actorId) != "" then reply.body.value.actorId
                            else reply.body.value.userId)
    && actorId != "" && Parse(actorId).Some?
  }

  /** An answer worth another attempt. */
  ghost predicate MayBeRetried(reply: HttpReply) {
    reply.TransportFailure? || (reply.Response? && (reply.status >= 500 || (reply.status < 400 && reply.body.None?)))
  }

  /** resolveOnce: what one answer means; `ctxErr` is the context's error once it is in. */
  function Classify(reply: HttpReply, ctxErr: Option<ContextError>): (r: Result<string, ResolveError>)
    ensures r.Ok? ==> Trimmed(r.value) && IsUuid(r.value)
    ensures forall actorId :: r == Ok(actorId) <==> Tells(reply, actorId)
    ensures r == Err(NotFound) <==> reply.Response? && reply.status == 404
    ensures r == Err(Temporary) <==>
              || (reply.TransportFailure? && ctxErr.None?)
              || (reply.Response? && (reply.status >= 500 || (reply.status < 400 && reply.body.None?)))
  {
    match reply
    case NotBuilt => Err(RequestNotBuilt)
    case TransportFailure => if ctxErr.Some? then Err(Context(ctxErr.value)) else Err(Temporary)
    case Response(status, body) =>
      if status == 404 then Err(NotFound)
      else if status >= 500 then Err(Temporary)
      else if status >= 400 then Err(Rejected(status))
      else if body.None? then Err(Temporary)
      else
        var preferred := TrimSpace(body.value.actorId);
        var actorId := if preferred == "" then TrimSpace(body.value.userId) else preferred;
        if actorId == "" then Err(ActorIdMissing)
        else if !IsUuid(actorId) then Err(ActorIdNotUuid)
        else Ok(actorId)
  }

  /** The time when attempt `i` has been answered, all waits before it having run their time. */
  function AnsweredAt(script: Script, start: int, i: nat): int
    requires i > 0
  {
    (if i == 1 then start else AnsweredAt(script, start, i - 1) + BackoffDuration(i - 1)) + script(i).elapsed
  }

  function ErrAfter(script: Script, start: int, deadline: Option<int>, i: nat): Option<ContextError>
    requires i > 0
  {
    ContextErr(deadline, AnsweredAt(script, start, i), script(i).canceled)
  }

  function Answer(script: Script, start: int, deadline: Option<int>, i: nat): Result<string, ResolveError>
    requires i > 0
  {
    Classify(script(i).reply, ErrAfter(script, start, deadline, i))
  }

  /** What cuts a wait until `wake` short. */
  function WaitCut(attempt: Attempt, deadline: Option<int>, wake: int): Option<ContextError> {
    if attempt.waitCut.Some? then attempt.waitCut
    else if deadline.Some? && deadline.value < wake then Some(DeadlineExceeded)
    else None
  }

  /** What cuts the wait after attempt `i` short. */
  function WaitError(script: Script, start: int, deadline: Option<int>, i: nat): Option<ContextError>
    requires i > 0
  {
    WaitCut(script(i), deadline, AnsweredAt(script, start, i) + BackoffDuration(i))
  }

  /** Another call follows attempt `i`, the budget permitting. */
  predicate LeadsToNext(script: Script, start: int, deadline: Option<int>, i: nat)
    requires i > 0
  {
    && Answer(script, start, deadline, i) == Err(Temporary)
    && ErrAfter(script, start, deadline, i).None?
    && WaitError(script, start, deadline, i).None?
  }

  /** The waits before call `n`, all having run their time. */
  function WaitsBefore(n: nat): int {
    if n <= 1 then 0 else WaitsBefore(n - 1) + BackoffDuration(n - 1)
  }

  /** In total 100 n (n - 1) milliseconds for n calls. */
  lemma {:induction false} WaitsAddUp(n: nat)
    ensures WaitsBefore(n) == if n == 0 then 0 else 100 * n * (n - 1)
  {
    if n > 1 {
      WaitsAddUp(n - 1);
      assert 100 * (n - 1) * (n - 2) + 200 * (n - 1) == 100 * n * (n - 1);
    }
  }

  /** The result that attempt `n`, the last one made, determines. */
  predicate IsResultOf(
    r: Resolver, script: Script, start: int, deadline: Option<int>, n: nat, result: Result<string, ResolveError>)
    requires n > 0
  {
    var answer := Answer(script, start, deadline, n);
    var err := ErrAfter(script, start, deadline, n);
    if answer.Ok? || answer == Err(NotFound) then result == answer
    else if err.Some? then result == Err(Context(err.value))
    else if IsTemporary(answer.error) && n < r.retries then
      WaitError(script, start, deadline, n).Some?
      && result == Err(Context(WaitError(script, start, deadline, n).value))
    else result == answer
  }

  /** Time spent in the first `n` calls. */
  function TimeInCalls(script: Script, n: nat): nat {
    if n == 0 then 0 else TimeInCalls(script, n - 1) + script(n).elapsed
  }

  /** The clock: the calls so far and the waits between them. */
  lemma {:induction false} AnsweredAtAddsUp(script: Script, start: int, n: nat)
    requires n > 0
    ensures AnsweredAt(script, start, n) == start + TimeInCalls(script, n) + WaitsBefore(n)
  {
    if n > 1 {
      AnsweredAtAddsUp(script, start, n - 1);
    }
  }

  /** What a failure that is not about the answer says: the caller has cancelled or the deadline
      has passed when the answer is in, or one of the two cuts the wait after it short. */
  ghost predicate StopTells(
    r: Resolver, attempt: Attempt, answered: int, deadline: Option<int>, n: nat, result: Result<string, ResolveError>)
  {
    var expired := deadline.Some? && deadline.value <= answered;
    var settled := result.Ok? || result == Err(NotFound);
    && (!settled && attempt.canceled ==> result == Err(Context(Canceled)))
    && (!settled && !attempt.canceled && expired ==> result == Err(Context(DeadlineExceeded)))
    && (!attempt.canceled && !expired && result.Err? && result.error.Context? ==>
          && n < r.retries && MayBeRetried(attempt.reply)
          && if attempt.waitCut.Some? then result.error.cause == attempt.waitCut.value
             else result.error.cause == DeadlineExceeded && deadline.Some? && deadline.value < answered + 200 * n)
  }

  lemma StopOfLastAttempt(
    r: Resolver, script: Script, start: int, deadline: Option<int>, n: nat, result: Result<string, ResolveError>)
    requires n > 0 && IsResultOf(r, script, start, deadline, n, result)
    ensures StopTells(r, script(n), AnsweredAt(script, start, n), deadline, n, result)
  {
    assert Answer(script, start, deadline, n)
           == Classify(script(n).reply, ErrAfter(script, start, deadline, n));
    assert BackoffDuration(n) == 200 * n;
  }

  /** What the result says about the last answer. */
  ghost predicate ResultTells(r: Resolver, reply: HttpReply, n: nat, result: Result<string, ResolveError>) {
    && (forall actorId :: result == Ok(actorId) <==> Tells(reply, actorId))
    && (result == Err(NotFound) <==> reply.Response? && reply.status == 404)
    && (result == Err(Temporary) ==> MayBeRetried(reply) && n >= r.retries)
  }

  lemma ResultOfLastAnswer(
    r: Resolver, script: Script, start: int, deadline: Option<int>, n: nat, result: Result<string, ResolveError>)
    requires n > 0 && IsResultOf(r, script, start, deadline, n, result)
    ensures ResultTells(r, script(n).reply, n, result)
  {
    assert Answer(script, start, deadline, n)
           == Classify(script(n).reply, ErrAfter(script, start, deadline, n));
  }

  /** The retry loop. Makes `calls` HTTP calls and sleeps `slept` milliseconds in waits that ran
      their time: WaitsAddUp says how many that are. */
  method Retry(r: Resolver, script: Script, start: int, deadline: Option<int>)
    returns (result: Result<string, ResolveError>, calls: nat, slept: int)
    ensures 1 <= calls <= if r.retries <= 0 then 1 else r.retries
    ensures slept == WaitsBefore(calls)
    ensures forall i: nat | 1 <= i < calls :: LeadsToNext(script, start, deadline, i)
    ensures IsResultOf(r, script, start, deadline, calls, result)
  {
    calls, slept := 0, 0;
    var now := start;
    var attempts := r.retries;
    if attempts <= 0 {
      attempts := DEFAULT_MAX_RETRIES;
    }
    var lastErr: Option<ResolveError> := None;
    var attempt := 1;
    while attempt <= attempts
      invariant 1 <= attempt <= attempts && calls == attempt - 1
      invariant slept == WaitsBefore(attempt)
      invariant now + script(attempt).elapsed == AnsweredAt(script, start, attempt)
      invariant forall i: nat | 1 <= i < attempt :: LeadsToNext(script, start, deadline, i)
      decreases attempts - attempt
    {
      calls := attempt; // one more than before
      now := now + script(attempt).elapsed;
      var ctxErr := ContextErr(deadline, now, script(attempt).canceled);
      var once := Classify(script(attempt).reply, ctxErr);
      assert ctxErr == ErrAfter(script, start, deadline, attempt) && once == Answer(script, start, deadline, attempt);
      if once.Ok? {
        return once, calls, slept;
      }
      if once.error == NotFound {
        return once, calls, slept;
      }
      lastErr := Some(once.error);
      if ctxErr.Some? {
        return Err(Context(ctxErr.value)), calls, slept;
      }
      if attempt == attempts || !IsTemporary(once.error) {
        break;
      }
      var delay := BackoffDuration(attempt);
      if delay <= 0 {
        delay := DEFAULT_BACKOFF;
      }
      var cut := WaitCut(script(attempt), deadline, now + delay);
      if cut.Some? {
        return Err(Context(cut.value)), calls, slept;
      }
      now, slept := now + delay, slept + delay;
      attempt := attempt + 1;
    }
    if lastErr.Some? {
      return Err(lastErr.value), calls, slept;
    }
    // The loop is entered and leaves an error behind, so what follows it in the program is dead.
    assert false;
    result := Err(Temporary);
  }

  /** Makes no call for a malformed id, and otherwise what the retry loop makes. */
  method Resolve(r: Resolver, script: Script, start: int, callerDeadline: Option<int>, authenticationId: string)
    returns (result: Result<string, ResolveError>, calls: nat, slept: int)
    ensures calls == 0 <==> !IsUuid(TrimSpace(authenticationId))
    ensures calls == 0 ==> result == Err(
                             if TrimSpace(authenticationId) == "" then AuthenticationIdRequired
                             else AuthenticationIdNotUuid)
    ensures calls <= if r.retries <= 0 then 1 else r.retries
    ensures slept == if calls == 0 then 0 else 100 * calls * (calls - 1)
    ensures var deadline := Deadline(r, start, callerDeadline);
            && (forall i: nat | 1 <= i < calls :: LeadsToNext(script, start, deadline, i))
            && (calls > 0 ==> IsResultOf(r, script, start, deadline, calls, result))
    ensures forall i: nat | 1 <= i < calls :: MayBeRetried(script(i).reply)
    ensures calls > 0 ==>
              && ResultTells(r, script(calls).reply, calls, result)
              && StopTells(r, script(calls), AnsweredAt(script, start, calls),
                           Deadline(r, start, callerDeadline), calls, result)
  {
    var id := TrimSpace(authenticationId);
    if id == "" {
      return Err(AuthenticationIdRequired), 0, 0;
    }
    if !IsUuid(id) {
      return Err(AuthenticationIdNotUuid), 0, 0;
    }
    result, calls, slept := Retry(r, script, start, Deadline(r, start, callerDeadline));
    WaitsAddUp(calls);
    ghost var deadline := Deadline(r, start, callerDeadline);
    ResultOfLastAnswer(r, script, start, deadline, calls, result);
    StopOfLastAttempt(r, script, start, deadline, calls, result);
    forall i: nat | 1 <= i < calls
      ensures MayBeRetried(script(i).reply)
    {
      assert LeadsToNext(script, start, deadline, i);
    }
  }

  /** Every call so far fits between the start and the deadline: so do the waits. */
  lemma {:induction false} WaitsFitDeadline(script: Script, start: int, deadline: int, calls: nat)
    requires calls >= 1
    requires forall i: nat | 1 <= i < calls :: LeadsToNext(script, start, Some(deadline), i)
    ensures AnsweredAt(script, start, calls) >= start + 100 * calls * (calls - 1)
    ensures calls >= 2 ==> start + 100 * calls * (calls - 1) <= deadline
  {
    if calls > 1 {
      WaitsFitDeadline(script, start, deadline, calls - 1);
      assert LeadsToNext(script, start, Some(deadline), calls - 1);
      assert BackoffDuration(calls - 1) == 200 * (calls - 1);
      assert 100 * (calls - 1) * (calls - 2) + 200 * (calls - 1) == 100 * calls * (calls - 1);
    }
  }

  /** The timeout bounds the calls whatever the retry limit: n calls take 100 n (n - 1) ms of
      waiting, so thirty seconds allow at most seventeen. */
  lemma TimeoutBoundsCalls(r: Resolver, script: Script, start: int, callerDeadline: Option<int>, calls: nat)
    requires r.timeout > 0 && calls >= 1
    requires forall i: nat | 1 <= i < calls :: LeadsToNext(script, start, Deadline(r, start, callerDeadline), i)
    ensures 100 * calls * (calls - 1) <= r.timeout
    ensures r.timeout == DEFAULT_TIMEOUT ==> calls <= 17
  {
    WaitsFitDeadline(script, start, Deadline(r, start, callerDeadline).value, calls);
    if calls >= 18 {
      assert 100 * calls * (calls - 1) >= 100 * 18 * 17;
    }
  }

  /** A resolver made from any configuration is bounded like this, and one without a configured
      timeout makes at most seventeen calls. */
  lemma ConfiguredResolverIsBounded(
    timeout: int, retries: int, script: Script, start: int, callerDeadline: Option<int>, calls: nat)
    requires calls >= 1
    requires var r := NewResolver(timeout, retries);
             forall i: nat | 1 <= i < calls :: LeadsToNext(script, start, Deadline(r, start, callerDeadline), i)
    ensures 100 * calls * (calls - 1) <= NewResolver(timeout, retries).timeout
    ensures timeout <= 0 ==> calls <= 17
  {
    TimeoutBoundsCalls(NewResolver(timeout, retries), script, start, callerDeadline, calls);
  }
}
