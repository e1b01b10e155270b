/** More of what holds of every run of the whole system: where refreshed actor ids come from,
    what refreshes leave alone, and that tokens with an actor id are really issued. */
module TokenSystemTheorems {
  import opened Wrappers
  import opened Text
  import opened UuidText
  import opened Identity
  import opened Challenge
  import opened LoginSessions
  import opened TokenHook
  import opened Refresh
  import opened ActorLookup
  import opened TokenSystem
  import IdentityResolver
  import Webhook

  // ---------------------------------------------------------------------------------------
  // A refreshed actor id was held by Kratos at the last read
  // ---------------------------------------------------------------------------------------

  lemma RunExtend(k: Setting, steps: seq<Step>, step: Step)
    ensures Run(k, steps + [step]) == Apply(k, Run(k, steps), step)
  {
    assert (steps + [step])[..|steps|] == steps;
  }

  /** What a read finds is the actor id claim of the public metadata. */
  lemma HeldIsActorClaim(kratos: map<string, KratosIdentity>, id: string, actorId: string)
    requires actorId != ""
    ensures Held(kratos, id) == actorId <==>
            && id in kratos && kratos[id].metadataPublic.Some?
            && ActorIdKey in kratos[id].metadataPublic.value
            && kratos[id].metadataPublic.value[ActorIdKey] == Str(actorId)
  {
  }

  /** Task `t` is a hook whose resolution ended with this actor id. */
  predicate AnsweredWith(s: State, t: nat, actorId: string) {
    t < |s.tasks| && s.tasks[t].HookRunning? && s.tasks[t].phase == Finished(Resolved(actorId))
  }

  /** Task `t` is a hook about to read, and Kratos holds this actor id for its subject. */
  predicate ReadsActor(s: State, t: nat, subject: string, actorId: string) {
    && t < |s.tasks| && s.tasks[t].HookRunning? && Reading(s.tasks[t].phase)
    && s.tasks[t].subject == subject && Held(s.kratos, subject) == actorId
  }

  lemma ReadAnswersWithHeldActor(k: Setting, s: State, read: nat, fails: bool, t: nat, actorId: string)
    requires AnsweredWith(Apply(k, s, HookReads(read, fails)), t, actorId) && actorId != ""
    ensures var subject := Apply(k, s, HookReads(read, fails)).tasks[t].subject;
            || (AnsweredWith(s, t, actorId) && s.tasks[t].subject == subject)
            || (read == t && !fails && ReadsActor(s, t, subject, actorId))
  {
  }

  lemma OtherStepsAnswerNothing(k: Setting, s: State, step: Step, t: nat, actorId: string)
    requires !step.HookReads? && AnsweredWith(Apply(k, s, step), t, actorId) && actorId != ""
    ensures AnsweredWith(s, t, actorId) && s.tasks[t].subject == Apply(k, s, step).tasks[t].subject
  {
  }

  lemma StepAnswersWithHeldActor(k: Setting, s: State, step: Step, t: nat, actorId: string)
    requires AnsweredWith(Apply(k, s, step), t, actorId) && actorId != ""
    ensures var subject := Apply(k, s, step).tasks[t].subject;
            || (AnsweredWith(s, t, actorId) && s.tasks[t].subject == subject)
            || (step == HookReads(t, false) && ReadsActor(s, t, subject, actorId))
  {
    if step.HookReads? {
      ReadAnswersWithHeldActor(k, s, step.task, step.fails, t, actorId);
    } else {
      OtherStepsAnswerNothing(k, s, step, t, actorId);
    }
  }

  lemma RunOfLast(k: Setting, steps: seq<Step>)
    requires steps != []
    ensures Run(k, steps) == Apply(k, Run(k, steps[..|steps| - 1]), steps[|steps| - 1])
  {
  }

  /** Step `n` of the run is a read that finds this actor id for task `t`, and the answer it
      leads to stands from then on. */
  ghost predicate AnsweredFrom(k: Setting, steps: seq<Step>, n: nat, t: nat, subject: string, actorId: string) {
    && n < |steps| && steps[n] == HookReads(t, false)
    && ReadsActor(Run(k, steps[..n]), t, subject, actorId)
    && forall m | n < m <= |steps| :: AnsweredWith(Run(k, steps[..m]), t, actorId)
  }

  lemma AnswerStandsOn(k: Setting, steps: seq<Step>, n: nat, t: nat, subject: string, actorId: string)
    requires steps != [] && AnsweredFrom(k, steps[..|steps| - 1], n, t, subject, actorId)
    requires AnsweredWith(Run(k, steps), t, actorId)
    ensures AnsweredFrom(k, steps, n, t, subject, actorId)
  {
    var init := steps[..|steps| - 1];
    assert init[..n] == steps[..n];
    forall m | n < m <= |steps|
      ensures AnsweredWith(Run(k, steps[..m]), t, actorId)
    {
      if m < |steps| { assert init[..m] == steps[..m]; } else { assert steps[..m] == steps; }
    }
  }

  /** In every run, the actor id a hook answers with is what Kratos held for the session's
      subject at the hook's own last read, step `n` of the run. */
  lemma {:induction false} AnswerWasHeldAtLastRead(k: Setting, steps: seq<Step>, t: nat, actorId: string)
    returns (n: nat)
    requires AnsweredWith(Run(k, steps), t, actorId) && actorId != ""
    ensures AnsweredFrom(k, steps, n, t, Run(k, steps).tasks[t].subject, actorId)
  {
    assert steps != [];
    var last := |steps| - 1;
    var init := steps[..last];
    RunOfLast(k, steps);
    StepAnswersWithHeldActor(k, Run(k, init), steps[last], t, actorId);
    if AnsweredWith(Run(k, init), t, actorId) && Run(k, init).tasks[t].subject == Run(k, steps).tasks[t].subject {
      n := AnswerWasHeldAtLastRead(k, init, t, actorId);
      AnswerStandsOn(k, steps, n, t, Run(k, init).tasks[t].subject, actorId);
    } else {
      n := last;
      assert steps[..|steps|] == steps;
    }
  }

  /** In every run, once a finished hook answers with an actor id, both tokens of its session
      hold it, whatever they have become in the meantime. */
  lemma AnswerReachesBothTokens(k: Setting, steps: seq<Step>, t: nat, actorId: string)
    requires AnsweredWith(Run(k, steps), t, actorId) && actorId != ""
    ensures var session := Run(k, steps).tasks[t].session;
            var sessions := Run(k, steps + [HookAnswers(t)]).sessions;
            && session < |sessions|
            && var tokens := sessions[session].tokens;
               && ActorIdKey in tokens.access && tokens.access[ActorIdKey] == Str(actorId)
               && ActorIdKey in tokens.id && tokens.id[ActorIdKey] == Str(actorId)
  {
    var s := Run(k, steps);
    RunKeepsInvariant(k, steps);
    RunExtend(k, steps, HookAnswers(t));
    assert GoodTask(k.dir, s.sessions, s.tasks[t]);
    AnswerSetsActor(k, s, t, actorId);
  }

  lemma AnswerSetsActor(k: Setting, s: State, t: nat, actorId: string)
    requires AnsweredWith(s, t, actorId) && actorId != "" && s.tasks[t].session < |s.sessions|
    ensures var session := s.tasks[t].session;
            var sessions := Apply(k, s, HookAnswers(t)).sessions;
            && |sessions| == |s.sessions|
            && var tokens := sessions[session].tokens;
               && ActorIdKey in tokens.access && tokens.access[ActorIdKey] == Str(actorId)
               && ActorIdKey in tokens.id && tokens.id[ActorIdKey] == Str(actorId)
  {
    var task := s.tasks[t];
    WithActorRefreshes(task.echoed, actorId);
    var next := WithActor(task.echoed, actorId);
    assert ActorIdKey in next.access && ActorIdKey in next.id;
    assert next.access != map[] && next.id != map[];
    assert ApplyBody(s.sessions[task.session].tokens, Encode(next)) == next;
  }

  // ---------------------------------------------------------------------------------------
  // Refreshes do find actor ids
  // ---------------------------------------------------------------------------------------

  /** Hook `t`, running for session `i`, is in this phase. */
  predicate HookIn(s: State, t: nat, i: nat, subject: string, phase: Phase) {
    && t < |s.tasks| && s.tasks[t].HookRunning? && s.tasks[t].session == i && s.tasks[t].subject == subject
    && s.tasks[t].phase == phase
  }

  lemma HookStarts(k: Setting, s: State, i: nat)
    requires i < |s.sessions| && "alkemio" in s.sessions[i].scope
    ensures var next := Apply(k, s, HookBegins(i));
            HookIn(next, |s.tasks|, i, s.sessions[i].subject, FirstRead) && next.kratos == s.kratos
  {
  }

  lemma HookFinds(k: Setting, s: State, t: nat, i: nat, subject: string, phase: Phase, actorId: string)
    requires HookIn(s, t, i, subject, phase) && Reading(phase) && Held(s.kratos, subject) == actorId && actorId != ""
    ensures AnsweredWith(Apply(k, s, HookReads(t, false)), t, actorId)
    ensures HookIn(Apply(k, s, HookReads(t, false)), t, i, subject, Finished(Resolved(actorId)))
  {
  }

  lemma HookMisses(k: Setting, s: State, t: nat, i: nat, subject: string)
    requires HookIn(s, t, i, subject, FirstRead) && Held(s.kratos, subject) == ""
    ensures var next := Apply(k, s, HookReads(t, false));
            HookIn(next, t, i, subject, Stamping) && next.kratos == s.kratos
  {
  }

  lemma HookIsStamped(k: Setting, s: State, t: nat, i: nat, subject: string, actorId: string)
    requires HookIn(s, t, i, subject, Stamping) && subject in s.kratos && Names(k.dir, subject, actorId)
    ensures var next := Apply(k, s, HookStamps(t, true, Some(map[ActorIdKey := Str(actorId)])));
            HookIn(next, t, i, subject, SecondRead) && Held(next.kratos, subject) == actorId
  {
  }

  ghost predicate BothTokensHold(s: State, i: nat, actorId: string) {
    && i < |s.sessions|
    && var tokens := s.sessions[i].tokens;
       && ActorIdKey in tokens.access && tokens.access[ActorIdKey] == Str(actorId)
       && ActorIdKey in tokens.id && tokens.id[ActorIdKey] == Str(actorId)
  }

  /** From any state a run can be in, a token hook with `alkemio` granted that nothing disturbs
      puts into both tokens the actor id Kratos holds for the subject. */
  lemma UndisturbedHookRefreshes(k: Setting, steps: seq<Step>, i: nat, actorId: string)
    requires var s := Run(k, steps);
             && i < |s.sessions| && "alkemio" in s.sessions[i].scope
             && Held(s.kratos, s.sessions[i].subject) == actorId && actorId != ""
    ensures var t := |Run(k, steps).tasks|;
            BothTokensHold(Run(k, steps + [HookBegins(i)] + [HookReads(t, false)] + [HookAnswers(t)]), i, actorId)
  {
    var s := Run(k, steps);
    var t, subject := |s.tasks|, s.sessions[i].subject;
    RunExtend(k, steps, HookBegins(i));
    HookStarts(k, s, i);
    var begun := steps + [HookBegins(i)];
    RunExtend(k, begun, HookReads(t, false));
    HookFinds(k, Run(k, begun), t, i, subject, FirstRead, actorId);
    AnswerReachesBothTokens(k, begun + [HookReads(t, false)], t, actorId);
  }

  /** And when Kratos holds none, the one the re-stamper writes. */
  lemma UndisturbedHookRestores(k: Setting, steps: seq<Step>, i: nat, actorId: string)
    requires var s := Run(k, steps);
             && i < |s.sessions| && "alkemio" in s.sessions[i].scope && s.sessions[i].subject in s.kratos
             && Held(s.kratos, s.sessions[i].subject) == "" && Names(k.dir, s.sessions[i].subject, actorId)
    ensures var t := |Run(k, steps).tasks|;
            BothTokensHold(Run(k, steps + [HookBegins(i)] + [HookReads(t, false)]
                                    + [HookStamps(t, true, Some(map[ActorIdKey := Str(actorId)]))]
                                    + [HookReads(t, false)] + [HookAnswers(t)]), i, actorId)
  {
    var s := Run(k, steps);
    var t, subject := |s.tasks|, s.sessions[i].subject;
    var stamps := HookStamps(t, true, Some(map[ActorIdKey := Str(actorId)]));
    assert actorId != "";
    RunExtend(k, steps, HookBegins(i));
    HookStarts(k, s, i);
    var begun := steps + [HookBegins(i)];
    RunExtend(k, begun, HookReads(t, false));
    HookMisses(k, Run(k, begun), t, i, subject);
    var missed := begun + [HookReads(t, false)];
    RunExtend(k, missed, stamps);
    HookIsStamped(k, Run(k, missed), t, i, subject, actorId);
    var stamped := missed + [stamps];
    RunExtend(k, stamped, HookReads(t, false));
    HookFinds(k, Run(k, stamped), t, i, subject, SecondRead, actorId);
    AnswerReachesBothTokens(k, stamped + [HookReads(t, false)], t, actorId);
  }

  // ---------------------------------------------------------------------------------------
  // Refreshes leave every other claim alone
  // ---------------------------------------------------------------------------------------

  /** The same claims in both tokens, the actor id aside. */
  ghost predicate SameButForActor(a: Tokens, b: Tokens) {
    a.access - {ActorIdKey} == b.access - {ActorIdKey} && a.id - {ActorIdKey} == b.id - {ActorIdKey}
  }

  /** What a running hook echoes is still its session, the actor id aside. */
  ghost predicate EchoAgrees(sessions: seq<TokenSession>, task: Task) {
    task.HookRunning? ==>
      task.session < |sessions| && SameButForActor(task.echoed, sessions[task.session].tokens)
  }

  ghost predicate EchoesAgree(s: State) {
    forall t | 0 <= t < |s.tasks| :: EchoAgrees(s.sessions, s.tasks[t])
  }

  ghost predicate SessionsKept(before: seq<TokenSession>, after: seq<TokenSession>) {
    && |before| <= |after|
    && forall i | 0 <= i < |before| ::
         && after[i].subject == before[i].subject && after[i].scope == before[i].scope
         && SameButForActor(after[i].tokens, before[i].tokens)
  }

  /** A reply to an older echo changes nothing but the actor id, left-out tokens included. */
  lemma ReplyKeepsClaims(current: Tokens, echoed: Tokens, answer: ResolverAnswer)
    requires SameButForActor(echoed, current)
    ensures var body := HookBody(echoed, answer);
            body.Some? ==> SameButForActor(ApplyBody(current, body.value), current)
  {
    if answer.Found? {
      var next := WithActor(echoed, answer.actorId);
      assert SameButForActor(next, current);
      assert next.access == map[] ==> ApplyBody(current, Encode(next)).access == current.access;
      assert next.id == map[] ==> ApplyBody(current, Encode(next)).id == current.id;
    }
  }

  lemma StepKeepsClaims(k: Setting, s: State, step: Step)
    requires EchoesAgree(s)
    ensures SessionsKept(s.sessions, Apply(k, s, step).sessions)
  {
    if step.HookAnswers? && step.task < |s.tasks| && s.tasks[step.task].HookRunning? {
      var task := s.tasks[step.task];
      assert EchoAgrees(s.sessions, task);
      if task.phase.Finished? {
        ReplyKeepsClaims(s.sessions[task.session].tokens, task.echoed, FromRefresh(task.phase.answer));
      }
    }
  }

  lemma EchoStillAgrees(before: seq<TokenSession>, after: seq<TokenSession>, task: Task)
    requires EchoAgrees(before, task) && SessionsKept(before, after)
    ensures EchoAgrees(after, task)
  {
  }

  /** A step leaves a task what it echoes, or the task is new and echoes its session. */
  lemma StepKeepsEcho(k: Setting, s: State, step: Step, t: nat)
    requires t < |Apply(k, s, step).tasks|
    ensures var task := Apply(k, s, step).tasks[t];
            || EchoAgrees(s.sessions, task)
            || (t < |s.tasks| && s.tasks[t].HookRunning? && task.HookRunning?
                && task.session == s.tasks[t].session && task.echoed == s.tasks[t].echoed)
  {
  }

  lemma StepKeepsEchoes(k: Setting, s: State, step: Step)
    requires EchoesAgree(s)
    ensures EchoesAgree(Apply(k, s, step))
  {
    StepKeepsClaims(k, s, step);
    var next := Apply(k, s, step);
    forall t | 0 <= t < |next.tasks|
      ensures EchoAgrees(next.sessions, next.tasks[t])
    {
      StepKeepsEcho(k, s, step, t);
      if t < |s.tasks| { assert EchoAgrees(s.sessions, s.tasks[t]); }
      EchoStillAgrees(s.sessions, next.sessions, next.tasks[t]);
    }
  }

  lemma {:induction false} RunKeepsEchoes(k: Setting, steps: seq<Step>)
    ensures EchoesAgree(Run(k, steps))
  {
    if steps != [] {
      RunKeepsEchoes(k, steps[..|steps| - 1]);
      StepKeepsEchoes(k, Run(k, steps[..|steps| - 1]), steps[|steps| - 1]);
    }
  }

  /** In every run a session once issued stays, with its subject and its scope, and whatever
      hooks overlap, and however old their echoes are, its claims stay what they were, the
      actor id aside. */
  lemma {:induction false} IssuedClaimsNeverChange(k: Setting, steps: seq<Step>, n: nat)
    requires n <= |steps|
    ensures SessionsKept(Run(k, steps[..n]).sessions, Run(k, steps).sessions)
    decreases |steps|
  {
    if n == |steps| {
      assert steps[..n] == steps;
    } else {
      var init := steps[..|steps| - 1];
      assert init[..n] == steps[..n];
      IssuedClaimsNeverChange(k, init, n);
      RunKeepsEchoes(k, init);
      StepKeepsClaims(k, Run(k, init), steps[|steps| - 1]);
    }
  }

  // ---------------------------------------------------------------------------------------
  // The second key the webhook writes
  // ---------------------------------------------------------------------------------------

  lemma WebhookPatchWrites(k: Setting, s: State, t: nat)
    requires t < |s.tasks| && s.tasks[t].WebhookResolved?
    ensures Apply(k, s, WebhookPatches(t)).kratos
         == WithMetadata(s.kratos, s.tasks[t].id, Webhook.PatchedMetadata(s.tasks[t].actorId))
  {
  }

  lemma PatchedMetadataIsHeld(kratos: map<string, KratosIdentity>, id: string, actorId: string)
    requires id in kratos
    ensures var patched := WithMetadata(kratos, id, Webhook.PatchedMetadata(actorId));
            Held(patched, id) == actorId && id in patched && Webhook.Patched(kratos[id], patched[id], actorId)
  {
  }

  /** Once a webhook has patched an identity, Kratos holds the actor id it resolved for it, and
      that is its directory entry. */
  lemma PatchSetsHeldActor(k: Setting, steps: seq<Step>, t: nat)
    requires t < |Run(k, steps).tasks| && Run(k, steps).tasks[t].WebhookResolved?
    requires Run(k, steps).tasks[t].id in Run(k, steps).kratos
    ensures var task := Run(k, steps).tasks[t];
            var kratos := Run(k, steps + [WebhookPatches(t)]).kratos;
            && Held(kratos, task.id) == task.actorId && Names(k.dir, task.id, task.actorId)
            && task.id in kratos
            && Webhook.Patched(Run(k, steps).kratos[task.id], kratos[task.id], task.actorId)
  {
    var s := Run(k, steps);
    RunKeepsInvariant(k, steps);
    RunExtend(k, steps, WebhookPatches(t));
    assert GoodTask(k.dir, s.sessions, s.tasks[t]);
    WebhookPatchWrites(k, s, t);
    PatchedMetadataIsHeld(s.kratos, s.tasks[t].id, s.tasks[t].actorId);
  }

  /** A user id comes only together with an actor id, and is the same. */
  predicate Mirrors(claims: Claims) {
    UserIdKey in claims ==> ActorIdKey in claims && claims[UserIdKey] == claims[ActorIdKey]
  }

  /** Whoever writes metadata besides the webhook keeps to that too. */
  predicate WritesOneId(step: Step) {
    && (step.EditIdentity? && step.identity.metadataPublic.Some? ==> Mirrors(step.identity.metadataPublic.value))
    && (step.HookStamps? && step.written.Some? ==> Mirrors(step.written.value))
  }

  ghost predicate KratosMirrors(kratos: map<string, KratosIdentity>) {
    forall id | id in kratos && kratos[id].metadataPublic.Some? :: Mirrors(kratos[id].metadataPublic.value)
  }

  lemma StepKeepsMirrors(k: Setting, s: State, step: Step)
    requires KratosMirrors(s.kratos) && WritesOneId(step)
    ensures KratosMirrors(Apply(k, s, step).kratos)
  {
  }

  lemma {:induction false} RunKeepsMirrors(k: Setting, steps: seq<Step>)
    requires forall i | 0 <= i < |steps| :: WritesOneId(steps[i])
    ensures KratosMirrors(Run(k, steps).kratos)
  {
    if steps != [] {
      RunKeepsMirrors(k, steps[..|steps| - 1]);
      StepKeepsMirrors(k, Run(k, steps[..|steps| - 1]), steps[|steps| - 1]);
    }
  }

  /** The user id in an identity's metadata is the directory entry of the identity as well. */
  lemma UserIdIsDirectoryActor(k: Setting, steps: seq<Step>, id: string)
    requires forall i | 0 <= i < |steps| :: WritesOneId(steps[i])
    requires var kratos := Run(k, steps).kratos;
             id in kratos && kratos[id].metadataPublic.Some? && UserIdKey in kratos[id].metadataPublic.value
    ensures var userId := Run(k, steps).kratos[id].metadataPublic.value[UserIdKey];
            userId.Str? && Names(k.dir, id, userId.text)
  {
    RunKeepsMirrors(k, steps);
    RunKeepsInvariant(k, steps);
    assert GoodIdentity(k.dir, id, Run(k, steps).kratos[id]);
  }

  // ---------------------------------------------------------------------------------------
  // Tokens with an actor id are issued
  // ---------------------------------------------------------------------------------------

  /** An identity with what a profile needs and no more. */
  function PlainIdentity(id: string, email: string): KratosIdentity {
    KratosIdentity(id, Object(map[EmailKey := Str(email), DisplayNameKey := Str("A")], ""), None, [])
  }

  lemma PlainIdentityHasProfile(platform: Platform, id: string, email: string)
    requires email != "" && Trimmed(email) && platform.isValidEmail(email)
    ensures BuildProfile(platform, Some(PlainIdentity(id, email))).Ok?
    ensures BuildProfile(platform, Some(PlainIdentity(id, email))).value.id == id
  {
    assert TrimSpace(email) == email && TrimSpace("A") == "A";
    var traits: Claims := map[EmailKey := Str(email), DisplayNameKey := Str("A")];
    assert StringAt(traits, EmailKey) == email && StringAt(traits, DisplayNameKey) == "A";
  }

  /** The identity is created and logs in. */
  lemma LoginIsReachable(k: Setting, u: Uuid, email: string) returns (steps: seq<Step>)
    requires email != "" && Trimmed(email) && k.platform.isValidEmail(email)
    ensures var s := Run(k, steps);
            && s.kratos == map[Print(u) := PlainIdentity(Print(u), email)]
            && |s.logins| == 1 && Settled(s.logins[0]) && s.logins[0].subject == Print(u)
            && s.sessions == [] && s.tasks == []
  {
    var id := Print(u);
    ParsePrint(u);
    assert TrimSpace(id) == id;
    PlainIdentityHasProfile(k.platform, id, email);
    RunExtend(k, [], EditIdentity(id, PlainIdentity(id, email)));
    steps := [] + [EditIdentity(id, PlainIdentity(id, email))];
    assert Run(k, steps).kratos == map[id := PlainIdentity(id, email)];
    RunExtend(k, steps, StandardLogin(id));
    var profile := Fetch(k.platform, KratosView(Run(k, steps).kratos), id);
    StandardLoginSettles(k.config, profile.value);
    steps := steps + [StandardLogin(id)];
  }

  /** The consent of such a login issues a session when the database has the actor. */
  lemma ConsentIssuesActor(k: Setting, s: State, u: Uuid, email: string)
    requires email != "" && Trimmed(email) && k.platform.isValidEmail(email) && u in k.dir
    requires s.kratos == map[Print(u) := PlainIdentity(Print(u), email)]
    requires |s.logins| == 1 && Settled(s.logins[0]) && s.logins[0].subject == Print(u)
    requires s.sessions == [] && s.tasks == []
    ensures var request := ConsentRequest("", None, ["alkemio"], [], "");
            var lookup := Lookup(Some(Row(true, k.dir[u])), Err(IdentityResolver.Temporary));
            var sessions := ConsentInOneGo(k, s, 0, request, lookup).sessions;
            |sessions| == 1 && sessions[0].subject == Print(u) && sessions[0].scope == ["alkemio"]
  {
    var request := ConsentRequest("", None, ["alkemio"], [], "");
    var lookup := Lookup(Some(Row(true, k.dir[u])), Err(IdentityResolver.Temporary));
    var id, actorId := Print(u), Print(k.dir[u]);
    ParsePrint(u);
    assert TrimSpace(id) == id;
    PlainIdentityHasProfile(k.platform, id, email);
    FetchSpawnsConsent(k, s, 0, request);
    var fetched := Fetch(k.platform, KratosView(s.kratos), id);
    var next := Spawn(s, ConsentFetched(id, ["alkemio"], fetched.value));
    ValidRowAlwaysResolves((_: Uuid) => lookup.database.value, id);
    Webhook.CanonicalIdPassesValidators(k.dir[u]);
    assert ActorOf(id, lookup) == Ok(actorId);
    AttachAndIssue(k, next, 0, lookup, "", request, WorldOfActor(k, actorId));
  }

  /** Not every part of a world matters to a consent: only the actor lookup does here. */
  function WorldOfActor(k: Setting, actorId: string): World {
    World(k.platform, HydraFailed(None), HydraFailed(None), HydraFailed(None), None,
          (_: string) => KratosFailed(None), (_: string) => Ok(actorId), HydraFailed(None))
  }

  /** Every actor of the directory can get into tokens: some run issues a session of its
      identity with `alkemio` granted, so what is said about such sessions is said of some. */
  lemma EveryActorReachesTokens(k: Setting, u: Uuid, email: string) returns (steps: seq<Step>)
    requires u in k.dir && email != "" && Trimmed(email) && k.platform.isValidEmail(email)
    ensures var sessions := Run(k, steps).sessions;
            && |sessions| == 1 && sessions[0].subject == Print(u) && sessions[0].scope == ["alkemio"]
            && ActorIdKey in sessions[0].tokens.access && sessions[0].tokens.access[ActorIdKey].Str?
            && Parse(sessions[0].tokens.access[ActorIdKey].text) == Some(k.dir[u])
  {
    var request := ConsentRequest("", None, ["alkemio"], [], "");
    var lookup := Lookup(Some(Row(true, k.dir[u])), Err(IdentityResolver.Temporary));
    steps := LoginIsReachable(k, u, email);
    ConsentIssuesActor(k, Run(k, steps), u, email);
    RunExtend(k, steps, ConsentFetches(0, request));
    steps := steps + [ConsentFetches(0, request)];
    RunExtend(k, steps, ConsentAttaches(0, lookup));
    steps := steps + [ConsentAttaches(0, lookup)];
    RunExtend(k, steps, ConsentIssues(0));
    steps := steps + [ConsentIssues(0)];
    TokensCarryDirectoryActors(k, steps, 0);
    ParsePrint(u);
    assert KeyOf(Print(u)) == Some(u);
  }
}
