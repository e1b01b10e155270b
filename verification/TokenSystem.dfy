/** The whole system at work: Kratos, Hydra's login sessions, the token sessions issued so far,
    and any number of webhooks, consents and token hooks in progress at once. Every
    interleaving is a sequence of steps; a step is one access to a store, one call, or an
    edit of Kratos from outside. */
module TokenSystem {
  import opened Wrappers
  import opened Text
  import opened UuidText
  import opened Identity
  import opened Challenge
  import opened LoginSessions
  import opened ConsentTheorems
  import opened TokenHook
  import opened Refresh
  import opened ActorLookup
  import Webhook
  import IdentityResolver

  /** The actor of each identity: the "user" table, which never changes. */
  type Directory = map<Uuid, Uuid>

  /** `actorId` spells the directory entry of identity `id`. */
  predicate Names(dir: Directory, id: string, actorId: string) {
    KeyOf(id).Some? && KeyOf(id).value in dir && Parse(actorId) == Some(dir[KeyOf(id).value])
  }

  /** An actor id in these claims is the right one. */
  predicate CleanClaims(dir: Directory, id: string, claims: Claims) {
    ActorIdKey in claims ==> claims[ActorIdKey].Str? && Names(dir, id, claims[ActorIdKey].text)
  }

  /** One lookup: the database's answer, if there is a database, and the API's. */
  datatype Lookup = Lookup(database: Option<QueryReply>, api: Result<string, IdentityResolver.ResolveError>)

  function ActorOf(id: string, lookup: Lookup): Result<string, IdentityResolver.ResolveError> {
    CompositeResolve(
      if lookup.database.Some? then Some(DatabaseResolve((_: Uuid) => lookup.database.value, id)) else None,
      lookup.api)
  }

  /** Database and API answer with directory entries or fail. */
  predicate HonestLookup(dir: Directory, id: string, lookup: Lookup) {
    && (lookup.database.Some? && lookup.database.value.Row? && lookup.database.value.valid && KeyOf(id).Some? ==>
          KeyOf(id).value in dir && lookup.database.value.bytes == dir[KeyOf(id).value])
    && (lookup.api.Ok? ==> Names(dir, id, lookup.api.value) && Trimmed(lookup.api.value))
  }

  lemma HonestLookupsNameActor(dir: Directory, id: string, lookup: Lookup)
    requires HonestLookup(dir, id, lookup)
    ensures ActorOf(id, lookup).Ok? ==> Names(dir, id, ActorOf(id, lookup).value) && Trimmed(ActorOf(id, lookup).value)
  {
    if lookup.database.Some? {
      ValidRowAlwaysResolves((_: Uuid) => lookup.database.value, id);
      var r := DatabaseResolve((_: Uuid) => lookup.database.value, id);
      if r.Ok? {
        ParsePrint(lookup.database.value.bytes);
      }
    }
  }

  /** A token session: whom Hydra issued it for, what was granted, and its claims. */
  datatype TokenSession = TokenSession(subject: string, scope: seq<string>, tokens: Tokens)

  /** A request in progress, at the point it has reached. */
  datatype Task =
    | WebhookResolved(id: string, actorId: string)
    | ConsentFetched(subject: string, scope: seq<string>, profile: Profile)
    | ConsentReady(subject: string, scope: seq<string>, profile: Profile)
    | HookRunning(session: nat, subject: string, scope: seq<string>, echoed: Tokens, phase: Phase)
    | Ended

  datatype State = State(
    kratos: map<string, KratosIdentity>, logins: seq<HydraSession>, sessions: seq<TokenSession>, tasks: seq<Task>)

  /** What never changes during a run. */
  datatype Setting = Setting(dir: Directory, platform: Platform, config: Config)

  datatype Step =
    | EditIdentity(id: string, identity: KratosIdentity)
    | DeleteIdentity(id: string)
    | StandardLogin(id: string)
    | SkipLogin(login: nat, visit: Visit)
    | WebhookResolves(posted: Option<string>, lookup: Lookup)
    | WebhookPatches(task: nat)
    | ConsentFetches(login: nat, request: ConsentRequest)
    | ConsentAttaches(task: nat, lookup: Lookup)
    | ConsentIssues(task: nat)
    | HookBegins(session: nat)
    | HookReads(task: nat, fails: bool)
    | HookStamps(task: nat, ok: bool, written: Option<Claims>)
    | HookAnswers(task: nat)

  function KratosView(kratos: map<string, KratosIdentity>): string -> KratosReply {
    (id: string) => if id in kratos then KratosAnswered(Some(kratos[id])) else KratosFailed(Some(404))
  }

  /** What a read of the public metadata finds. */
  function Held(kratos: map<string, KratosIdentity>, id: string): string {
    if id in kratos && kratos[id].metadataPublic.Some? then
      var meta := kratos[id].metadataPublic.value;
      if ActorIdKey in meta && meta[ActorIdKey].Str? then meta[ActorIdKey].text else ""
    else ""
  }

  function WithMetadata(
    kratos: map<string, KratosIdentity>, id: string, metadata: Claims): map<string, KratosIdentity> {
    if id in kratos then kratos[id := kratos[id].(metadataPublic := Some(metadata))] else kratos
  }

  /** Kratos ids are UUIDs and answer to themselves. Whoever else edits an identity writes the
      right actor id or none. */
  predicate GoodIdentity(dir: Directory, id: string, identity: KratosIdentity) {
    && identity.id == id && IsUuid(id) && Trimmed(id)
    && (identity.metadataPublic.Some? ==> CleanClaims(dir, id, identity.metadataPublic.value))
  }

  /** The consent request Hydra makes for a login session. */
  function RequestOf(s: HydraSession, request: ConsentRequest): ConsentRequest {
    request.(subject := s.subject, context := Some(Object(s.context, "")))
  }

  function Spawn(s: State, task: Task): State {
    s.(tasks := s.tasks + [task])
  }

  /** One step; a step that is not possible, or that a dishonest party would make, changes
      nothing. */
  function Apply(k: Setting, s: State, step: Step): State {
    match step
    case EditIdentity(id, identity) =>
      if GoodIdentity(k.dir, id, identity) then s.(kratos := s.kratos[id := identity]) else s
    case DeleteIdentity(id) => s.(kratos := s.kratos - {id})
    case StandardLogin(id) =>
      var profile := Fetch(k.platform, KratosView(s.kratos), id);
      if profile.Ok? then s.(logins := s.logins + [SessionOfLogin(StandardPayload(k.config, profile.value))]) else s
    case SkipLogin(login, visit) =>
      if login < |s.logins| then s.(logins := s.logins[login := AfterVisit(k.config, s.logins[login], visit)]) else s
    case WebhookResolves(posted, lookup) =>
      var resolved := Webhook.ResolveIdentity(posted, id => ActorOf(id, lookup));
      if resolved.Ok? && HonestLookup(k.dir, resolved.value.0, lookup)
      then Spawn(s, WebhookResolved(resolved.value.0, resolved.value.1)) else s
    case ConsentFetches(login, request) =>
      if login >= |s.logins| then s
      else
        var id := ExtractIdentityId(RequestOf(s.logins[login], request));
        var profile := Fetch(k.platform, KratosView(s.kratos), id);
        if profile.Ok? then Spawn(s, ConsentFetched(s.logins[login].subject, request.requestedScope, profile.value))
        else s
    case HookBegins(session) =>
      if session >= |s.sessions| then s
      else
        var t := s.sessions[session];
        Spawn(s, HookRunning(session, t.subject, t.scope, t.tokens, Begin(t.scope)))
    case _ =>
      if step.task < |s.tasks| then Continue(k, s, step, s.tasks[step.task]) else s
  }

  predicate OfTask(step: Step) {
    step.WebhookPatches? || step.ConsentAttaches? || step.ConsentIssues? ||
    step.HookReads? || step.HookStamps? || step.HookAnswers?
  }

  predicate Reading(phase: Phase) {
    phase.FirstRead? || phase.SecondRead?
  }

  function AfterRead(phase: Phase, answer: ReadAnswer): Phase {
    if phase.FirstRead? then AfterFirstRead(answer) else AfterSecondRead(answer)
  }

  /** Where a read takes the hook `task`. */
  function TaskAfterRead(kratos: map<string, KratosIdentity>, task: Task, fails: bool): Task {
    if task.HookRunning? && Reading(task.phase) then
      task.(phase := AfterRead(task.phase, if fails then ReadFailed else ReadGave(Held(kratos, task.subject))))
    else task
  }

  /** Where attaching the actor id, if it is wanted, takes a consent. */
  function TaskAfterAttach(dir: Directory, task: Task, lookup: Lookup): Task
    requires task.ConsentFetched?
  {
    if "alkemio" !in task.scope then ConsentReady(task.subject, task.scope, task.profile)
    else if !HonestLookup(dir, task.profile.id, lookup) then task
    else
      var attached := AttachActor("", task.profile, ActorOf(task.profile.id, lookup));
      if attached.Ok? then ConsentReady(task.subject, task.scope, attached.value) else Ended
  }

  /** The next step of a task. */
  function Continue(k: Setting, s: State, step: Step, task: Task): State
    requires OfTask(step) && step.task < |s.tasks|
  {
    match (step, task)
    case (WebhookPatches(t), WebhookResolved(id, actorId)) =>
      s.(kratos := WithMetadata(s.kratos, id, Webhook.PatchedMetadata(actorId)), tasks := s.tasks[t := Ended])
    case (ConsentAttaches(t, lookup), ConsentFetched(_, _, _)) =>
      s.(tasks := s.tasks[t := TaskAfterAttach(k.dir, task, lookup)])
    case (ConsentIssues(t), ConsentReady(subject, scope, profile)) =>
      var sent := SessionOf(profile);
      s.(sessions := s.sessions + [TokenSession(subject, scope, Tokens(sent.accessToken, sent.idToken))],
         tasks := s.tasks[t := Ended])
    case (HookReads(t, fails), _) => s.(tasks := s.tasks[t := TaskAfterRead(s.kratos, task, fails)])
    case (HookStamps(t, ok, written), HookRunning(_, subject, _, _, phase)) =>
      if phase != Stamping || (written.Some? && !CleanClaims(k.dir, subject, written.value)) then s
      else s.(kratos := if written.Some? then WithMetadata(s.kratos, subject, written.value) else s.kratos,
              tasks := s.tasks[t := task.(phase := AfterStamp(ok))])
    case (HookAnswers(t), HookRunning(session, _, _, echoed, phase)) =>
      if !phase.Finished? || session >= |s.sessions| then s
      else
        var body := HookBody(echoed, FromRefresh(phase.answer));
        var current := s.sessions[session];
        var tokens := if body.Some? then ApplyBody(current.tokens, body.value) else current.tokens;
        s.(sessions := s.sessions[session := current.(tokens := tokens)], tasks := s.tasks[t := Ended])
    case _ => s
  }

  const START := State(map[], [], [], [])

  function Run(k: Setting, steps: seq<Step>): State {
    if steps == [] then START else Apply(k, Run(k, steps[..|steps| - 1]), steps[|steps| - 1])
  }

  // ---------------------------------------------------------------------------------------
  // The invariant
  // ---------------------------------------------------------------------------------------

  /** Both tokens carry the same actor id, they carry one exactly when `alkemio` was granted,
      and it is the subject's. */
  predicate GoodTokens(dir: Directory, subject: string, scope: seq<string>, tokens: Tokens) {
    && ActorClaim(tokens.access) == ActorClaim(tokens.id)
    && (ActorIdKey in tokens.access <==> "alkemio" in scope)
    && CleanClaims(dir, subject, tokens.access)
  }

  predicate GoodPhase(dir: Directory, subject: string, scope: seq<string>, phase: Phase) {
    match phase
    case Finished(Resolved(actorId)) => actorId != "" ==> "alkemio" in scope && Names(dir, subject, actorId)
    case Finished(Unavailable) => true
    case _ => "alkemio" in scope
  }

  function ProfileActor(profile: Profile): Option<string> {
    if profile.tokenClaims.Some? then profile.tokenClaims.value.actorId else None
  }

  predicate GoodTask(dir: Directory, sessions: seq<TokenSession>, task: Task) {
    match task
    case WebhookResolved(id, actorId) => Names(dir, id, actorId)
    case ConsentFetched(subject, _, profile) => profile.id == subject && ProfileActor(profile) == None
    case ConsentReady(subject, scope, profile) =>
      && profile.id == subject
      && (ProfileActor(profile).Some? <==> "alkemio" in scope)
      && (ProfileActor(profile).Some? ==> Names(dir, subject, ProfileActor(profile).value))
    case HookRunning(session, subject, scope, echoed, phase) =>
      && session < |sessions| && sessions[session].subject == subject && sessions[session].scope == scope
      && GoodTokens(dir, subject, scope, echoed) && GoodPhase(dir, subject, scope, phase)
    case Ended => true
  }

  ghost predicate GoodKratos(dir: Directory, kratos: map<string, KratosIdentity>) {
    forall id | id in kratos :: GoodIdentity(dir, id, kratos[id])
  }

  ghost predicate GoodLogins(logins: seq<HydraSession>) {
    forall i | 0 <= i < |logins| :: Settled(logins[i])
  }

  ghost predicate GoodSessions(dir: Directory, sessions: seq<TokenSession>) {
    forall i | 0 <= i < |sessions| :: GoodTokens(dir, sessions[i].subject, sessions[i].scope, sessions[i].tokens)
  }

  ghost predicate GoodTasks(dir: Directory, s: State) {
    forall t | 0 <= t < |s.tasks| :: GoodTask(dir, s.sessions, s.tasks[t])
  }

  ghost predicate Invariant(dir: Directory, s: State) {
    GoodKratos(dir, s.kratos) && GoodLogins(s.logins) && GoodSessions(dir, s.sessions) && GoodTasks(dir, s)
  }

  // ---------------------------------------------------------------------------------------
  // Every step keeps it
  // ---------------------------------------------------------------------------------------

  lemma FetchedProfileIsGood(k: Setting, kratos: map<string, KratosIdentity>, id: string)
    requires GoodKratos(k.dir, kratos)
    ensures var profile := Fetch(k.platform, KratosView(kratos), id);
            profile.Ok? ==>
              && profile.value.id == TrimSpace(id) && IsUuid(profile.value.id) && Trimmed(profile.value.id)
              && ProfileActor(profile.value) == None
  {
    FetchedProfilesHaveNoActor(k.platform, KratosView(kratos), id);
  }

  lemma HeldActorIsRight(dir: Directory, kratos: map<string, KratosIdentity>, id: string)
    requires GoodKratos(dir, kratos)
    ensures Held(kratos, id) != "" ==> Names(dir, id, Held(kratos, id))
  {
  }

  lemma CleanMetadataKeepsKratosGood(dir: Directory, kratos: map<string, KratosIdentity>, id: string, metadata: Claims)
    requires GoodKratos(dir, kratos) && CleanClaims(dir, id, metadata)
    ensures GoodKratos(dir, WithMetadata(kratos, id, metadata))
  {
  }

  lemma AttachedProfileIsGood(dir: Directory, profile: Profile, scope: seq<string>, lookup: Lookup)
    requires "alkemio" in scope && HonestLookup(dir, profile.id, lookup)
    ensures var attached := AttachActor("", profile, ActorOf(profile.id, lookup));
            attached.Ok? ==> GoodTask(dir, [], ConsentReady(profile.id, scope, attached.value))
  {
    HonestLookupsNameActor(dir, profile.id, lookup);
  }

  lemma IssuedTokensAreGood(dir: Directory, subject: string, scope: seq<string>, profile: Profile)
    requires GoodTask(dir, [], ConsentReady(subject, scope, profile))
    ensures GoodTokens(dir, subject, scope, Tokens(AccessTokenClaims(profile), IDTokenClaims(profile)))
  {
    ActorIdInBothTokens(profile);
  }

  lemma RefreshedTokensAreGood(
    dir: Directory, subject: string, scope: seq<string>, current: Tokens, echoed: Tokens, answer: Answer)
    requires GoodTokens(dir, subject, scope, current) && GoodTokens(dir, subject, scope, echoed)
    requires GoodPhase(dir, subject, scope, Finished(answer))
    ensures var body := HookBody(echoed, FromRefresh(answer));
            body.Some? ==> GoodTokens(dir, subject, scope, ApplyBody(current, body.value))
  {
    if answer.Resolved? {
      var next := WithActor(echoed, answer.actorId);
      assert GoodTokens(dir, subject, scope, next);
      assert next.access == map[] ==> ActorIdKey !in next.access;
      assert next.id == map[] ==> ActorIdKey !in next.id;
    }
  }

  lemma EditsKeepInvariant(k: Setting, s: State, step: Step)
    requires Invariant(k.dir, s) && (step.EditIdentity? || step.DeleteIdentity?)
    ensures Invariant(k.dir, Apply(k, s, step))
  {
  }

  lemma LoginsKeepInvariant(k: Setting, s: State, step: Step)
    requires Invariant(k.dir, s) && (step.StandardLogin? || step.SkipLogin?)
    ensures Invariant(k.dir, Apply(k, s, step))
  {
    match step
    case StandardLogin(id) =>
      FetchedProfileIsGood(k, s.kratos, id);
      var profile := Fetch(k.platform, KratosView(s.kratos), id);
      if profile.Ok? { StandardLoginSettles(k.config, profile.value); }
    case SkipLogin(login, visit) =>
      if login < |s.logins| { SettledSkipKeepsIdentity(k.config, s.logins[login], visit); }
  }

  lemma SpawnKeepsInvariant(dir: Directory, s: State, task: Task)
    requires Invariant(dir, s) && GoodTask(dir, s.sessions, task)
    ensures Invariant(dir, Spawn(s, task))
  {
  }

  lemma WebhookKeepsInvariant(k: Setting, s: State, posted: Option<string>, lookup: Lookup)
    requires Invariant(k.dir, s)
    ensures Invariant(k.dir, Apply(k, s, WebhookResolves(posted, lookup)))
  {
    var resolved := Webhook.ResolveIdentity(posted, id => ActorOf(id, lookup));
    if resolved.Ok? && HonestLookup(k.dir, resolved.value.0, lookup) {
      HonestLookupsNameActor(k.dir, resolved.value.0, lookup);
      SpawnKeepsInvariant(k.dir, s, WebhookResolved(resolved.value.0, resolved.value.1));
    }
  }

  lemma ConsentFetchKeepsInvariant(k: Setting, s: State, login: nat, request: ConsentRequest)
    requires Invariant(k.dir, s)
    ensures Invariant(k.dir, Apply(k, s, ConsentFetches(login, request)))
  {
    if login < |s.logins| {
      var subject := s.logins[login].subject;
      assert Settled(s.logins[login]);
      var id := ExtractIdentityId(RequestOf(s.logins[login], request));
      assert id == subject && TrimSpace(id) == id;
      FetchedProfileIsGood(k, s.kratos, id);
      var profile := Fetch(k.platform, KratosView(s.kratos), id);
      if profile.Ok? {
        SpawnKeepsInvariant(k.dir, s, ConsentFetched(subject, request.requestedScope, profile.value));
      }
    }
  }

  lemma HookBeginKeepsInvariant(k: Setting, s: State, session: nat)
    requires Invariant(k.dir, s)
    ensures Invariant(k.dir, Apply(k, s, HookBegins(session)))
  {
    if session < |s.sessions| {
      var t := s.sessions[session];
      assert GoodTokens(k.dir, t.subject, t.scope, t.tokens);
      SpawnKeepsInvariant(k.dir, s, HookRunning(session, t.subject, t.scope, t.tokens, Begin(t.scope)));
    }
  }

  lemma WebhookPatchKeepsInvariant(k: Setting, s: State, t: nat)
    requires Invariant(k.dir, s) && t < |s.tasks|
    ensures Invariant(k.dir, Apply(k, s, WebhookPatches(t)))
  {
    assert GoodTask(k.dir, s.sessions, s.tasks[t]);
    if s.tasks[t].WebhookResolved? {
      CleanMetadataKeepsKratosGood(k.dir, s.kratos, s.tasks[t].id, Webhook.PatchedMetadata(s.tasks[t].actorId));
    }
  }

  lemma AdvanceKeepsInvariant(dir: Directory, s: State, t: nat, task: Task)
    requires Invariant(dir, s) && t < |s.tasks| && GoodTask(dir, s.sessions, task)
    ensures Invariant(dir, s.(tasks := s.tasks[t := task]))
  {
  }

  lemma ConsentAttachKeepsInvariant(k: Setting, s: State, t: nat, lookup: Lookup)
    requires Invariant(k.dir, s) && t < |s.tasks|
    ensures Invariant(k.dir, Apply(k, s, ConsentAttaches(t, lookup)))
  {
    var task := s.tasks[t];
    assert GoodTask(k.dir, s.sessions, task);
    if task.ConsentFetched? {
      if "alkemio" in task.scope && HonestLookup(k.dir, task.profile.id, lookup) {
        AttachedProfileIsGood(k.dir, task.profile, task.scope, lookup);
      }
      AdvanceKeepsInvariant(k.dir, s, t, TaskAfterAttach(k.dir, task, lookup));
    }
  }

  lemma ConsentIssueKeepsInvariant(k: Setting, s: State, t: nat)
    requires Invariant(k.dir, s) && t < |s.tasks|
    ensures Invariant(k.dir, Apply(k, s, ConsentIssues(t)))
  {
    var task := s.tasks[t];
    assert GoodTask(k.dir, s.sessions, task);
    if task.ConsentReady? {
      IssuedTokensAreGood(k.dir, task.subject, task.scope, task.profile);
      AdvanceKeepsInvariant(k.dir, s, t, Ended);
    }
  }

  /** What a read finds, or that it fails, leaves the hook with a right answer or none. */
  lemma ReadKeepsPhaseGood(
    dir: Directory, kratos: map<string, KratosIdentity>, subject: string, scope: seq<string>, phase: Phase, fails: bool)
    requires GoodKratos(dir, kratos) && Reading(phase) && GoodPhase(dir, subject, scope, phase)
    ensures var answer := if fails then ReadFailed else ReadGave(Held(kratos, subject));
            GoodPhase(dir, subject, scope, AfterRead(phase, answer))
  {
    HeldActorIsRight(dir, kratos, subject);
  }

  lemma HookReadKeepsInvariant(k: Setting, s: State, t: nat, fails: bool)
    requires Invariant(k.dir, s) && t < |s.tasks|
    ensures Invariant(k.dir, Apply(k, s, HookReads(t, fails)))
  {
    var task := s.tasks[t];
    assert GoodTask(k.dir, s.sessions, task);
    if task.HookRunning? && Reading(task.phase) {
      ReadKeepsPhaseGood(k.dir, s.kratos, task.subject, task.scope, task.phase, fails);
    }
    AdvanceKeepsInvariant(k.dir, s, t, TaskAfterRead(s.kratos, task, fails));
  }

  lemma HookStampKeepsInvariant(k: Setting, s: State, t: nat, ok: bool, written: Option<Claims>)
    requires Invariant(k.dir, s) && t < |s.tasks|
    ensures Invariant(k.dir, Apply(k, s, HookStamps(t, ok, written)))
  {
    var task := s.tasks[t];
    assert GoodTask(k.dir, s.sessions, task);
    if task.HookRunning? && task.phase.Stamping? {
      AdvanceKeepsInvariant(k.dir, s, t, task.(phase := AfterStamp(ok)));
      if written.Some? && CleanClaims(k.dir, task.subject, written.value) {
        CleanMetadataKeepsKratosGood(k.dir, s.kratos, task.subject, written.value);
      }
    }
  }

  lemma HookAnswerKeepsInvariant(k: Setting, s: State, t: nat)
    requires Invariant(k.dir, s) && t < |s.tasks|
    ensures Invariant(k.dir, Apply(k, s, HookAnswers(t)))
  {
    var task := s.tasks[t];
    assert GoodTask(k.dir, s.sessions, task);
    if task.HookRunning? && task.phase.Finished? {
      RefreshedTokensAreGood(k.dir, task.subject, task.scope, s.sessions[task.session].tokens,
                             task.echoed, task.phase.answer);
    }
  }

  lemma TaskStepKeepsInvariant(k: Setting, s: State, step: Step)
    requires Invariant(k.dir, s) && OfTask(step) && step.task < |s.tasks|
    ensures Invariant(k.dir, Apply(k, s, step))
  {
    match step
    case WebhookPatches(t) => WebhookPatchKeepsInvariant(k, s, t);
    case ConsentAttaches(t, lookup) => ConsentAttachKeepsInvariant(k, s, t, lookup);
    case ConsentIssues(t) => ConsentIssueKeepsInvariant(k, s, t);
    case HookReads(t, fails) => HookReadKeepsInvariant(k, s, t, fails);
    case HookStamps(t, ok, written) => HookStampKeepsInvariant(k, s, t, ok, written);
    case HookAnswers(t) => HookAnswerKeepsInvariant(k, s, t);
  }

  lemma StepKeepsInvariant(k: Setting, s: State, step: Step)
    requires Invariant(k.dir, s)
    ensures Invariant(k.dir, Apply(k, s, step))
  {
    match step
    case EditIdentity(_, _) => EditsKeepInvariant(k, s, step);
    case DeleteIdentity(_) => EditsKeepInvariant(k, s, step);
    case StandardLogin(_) => LoginsKeepInvariant(k, s, step);
    case SkipLogin(_, _) => LoginsKeepInvariant(k, s, step);
    case WebhookResolves(posted, lookup) => WebhookKeepsInvariant(k, s, posted, lookup);
    case ConsentFetches(login, request) => ConsentFetchKeepsInvariant(k, s, login, request);
    case HookBegins(session) => HookBeginKeepsInvariant(k, s, session);
    case _ => if step.task < |s.tasks| { TaskStepKeepsInvariant(k, s, step); }
  }

  lemma {:induction false} RunKeepsInvariant(k: Setting, steps: seq<Step>)
    ensures Invariant(k.dir, Run(k, steps))
  {
    if steps != [] {
      RunKeepsInvariant(k, steps[..|steps| - 1]);
      StepKeepsInvariant(k, Run(k, steps[..|steps| - 1]), steps[|steps| - 1]);
    }
  }

  // ---------------------------------------------------------------------------------------
  // What it means
  // ---------------------------------------------------------------------------------------

  /** In every run, whatever is interleaved, the actor id Kratos holds for an identity is its
      entry in the directory. */
  lemma KratosHoldsDirectoryActors(k: Setting, steps: seq<Step>, id: string)
    requires Held(Run(k, steps).kratos, id) != ""
    ensures KeyOf(id).Some? && KeyOf(id).value in k.dir
            && Parse(Held(Run(k, steps).kratos, id)) == Some(k.dir[KeyOf(id).value])
  {
    RunKeepsInvariant(k, steps);
    HeldActorIsRight(k.dir, Run(k, steps).kratos, id);
  }

  /** In every run every token session carries an actor id in both tokens, the same one, when
      `alkemio` was granted, and in neither otherwise; and it is the directory entry of the
      session's subject. */
  lemma TokensCarryDirectoryActors(k: Setting, steps: seq<Step>, i: nat)
    requires i < |Run(k, steps).sessions|
    ensures var t := Run(k, steps).sessions[i];
            && ActorClaim(t.tokens.access) == ActorClaim(t.tokens.id)
            && (ActorClaim(t.tokens.access).Some? <==> "alkemio" in t.scope)
            && ("alkemio" in t.scope ==>
                  && KeyOf(t.subject).Some? && KeyOf(t.subject).value in k.dir
                  && t.tokens.access[ActorIdKey].Str?
                  && Parse(t.tokens.access[ActorIdKey].text) == Some(k.dir[KeyOf(t.subject).value]))
  {
    RunKeepsInvariant(k, steps);
    var t := Run(k, steps).sessions[i];
    assert GoodTokens(k.dir, t.subject, t.scope, t.tokens);
  }

  function AttachThenIssue(k: Setting, s: State, t: nat, lookup: Lookup): State {
    Apply(k, Apply(k, s, ConsentAttaches(t, lookup)), ConsentIssues(t))
  }

  /** The three steps of a consent taken one after the other. */
  function ConsentInOneGo(k: Setting, s: State, login: nat, request: ConsentRequest, lookup: Lookup): State {
    AttachThenIssue(k, Apply(k, s, ConsentFetches(login, request)), |s.tasks|, lookup)
  }

  /** The session issued for this profile, if there is one. */
  function Issued(subject: string, scope: seq<string>, profile: Option<Profile>): seq<TokenSession> {
    if profile.None? then []
    else [TokenSession(subject, scope, Tokens(AccessTokenClaims(profile.value), IDTokenClaims(profile.value)))]
  }

  function ReadyOrEnded(subject: string, scope: seq<string>, profile: Option<Profile>): Task {
    if profile.Some? then ConsentReady(subject, scope, profile.value) else Ended
  }

  /** Attaching makes of the fetched profile what the resolution makes of it. */
  lemma AttachMatchesResolution(
    dir: Directory, task: Task, lookup: Lookup, challengeId: string, req: ConsentRequest, world: World)
    requires task.ConsentFetched? && task.scope == req.requestedScope && HonestLookup(dir, task.profile.id, lookup)
    requires world.actor(task.profile.id) == ActorOf(task.profile.id, lookup)
    ensures var attached := ConsentProfile(challengeId, req, task.profile, world);
            TaskAfterAttach(dir, task, lookup)
            == ReadyOrEnded(task.subject, task.scope, if attached.Ok? then Some(attached.value) else None)
  {
  }

  lemma IssueAddsSession(k: Setting, s: State, t: nat, subject: string, scope: seq<string>, profile: Option<Profile>)
    requires t < |s.tasks| && s.tasks[t] == ReadyOrEnded(subject, scope, profile)
    ensures Apply(k, s, ConsentIssues(t)).sessions == s.sessions + Issued(subject, scope, profile)
  {
  }

  lemma AttachAndIssue(
    k: Setting, s: State, t: nat, lookup: Lookup, challengeId: string, req: ConsentRequest, world: World)
    requires t < |s.tasks| && s.tasks[t].ConsentFetched?
    requires s.tasks[t].scope == req.requestedScope && HonestLookup(k.dir, s.tasks[t].profile.id, lookup)
    requires world.actor(s.tasks[t].profile.id) == ActorOf(s.tasks[t].profile.id, lookup)
    ensures var attached := ConsentProfile(challengeId, req, s.tasks[t].profile, world);
            AttachThenIssue(k, s, t, lookup).sessions
            == s.sessions + Issued(s.tasks[t].subject, req.requestedScope,
                                   if attached.Ok? then Some(attached.value) else None)
  {
    var task := s.tasks[t];
    var attached := ConsentProfile(challengeId, req, task.profile, world);
    var profile := if attached.Ok? then Some(attached.value) else None;
    var next := s.(tasks := s.tasks[t := TaskAfterAttach(k.dir, task, lookup)]);
    assert Apply(k, s, ConsentAttaches(t, lookup)) == next;
    AttachMatchesResolution(k.dir, task, lookup, challengeId, req, world);
    IssueAddsSession(k, next, t, task.subject, task.scope, profile);
  }

  lemma NoTaskNoSession(k: Setting, s: State, t: nat, lookup: Lookup)
    requires t >= |s.tasks|
    ensures AttachThenIssue(k, s, t, lookup) == s
  {
  }

  /** In a settled session the first consent step looks up the session's subject. */
  lemma FetchSpawnsConsent(k: Setting, s: State, login: nat, request: ConsentRequest)
    requires login < |s.logins| && Settled(s.logins[login])
    ensures var subject := s.logins[login].subject;
            var fetched := Fetch(k.platform, KratosView(s.kratos), subject);
            && ExtractIdentityId(RequestOf(s.logins[login], request)) == subject
            && Apply(k, s, ConsentFetches(login, request))
               == if fetched.Ok? then Spawn(s, ConsentFetched(subject, request.requestedScope, fetched.value)) else s
  {
    assert s.logins[login].subject != "";
  }

  /** Without anything in between, the steps of a consent issue the session that resolving the
      consent challenge hands to Hydra, and none when it hands over none. (The path without the
      consent screen hands over the same one: ConsentTheorems.ConsentTokensCarryActor.) */
  lemma ConsentStepsFollowResolution(
    k: Setting, s: State, login: nat, request: ConsentRequest, lookup: Lookup, challengeId: string, world: World)
    requires Invariant(k.dir, s) && login < |s.logins| && HonestLookup(k.dir, s.logins[login].subject, lookup)
    requires world.platform == k.platform && world.kratos == KratosView(s.kratos)
    requires world.actor(s.logins[login].subject) == ActorOf(s.logins[login].subject, lookup)
    ensures var req := RequestOf(s.logins[login], request);
            var sent := SessionSent(ConsentStandard(k.config, challengeId, req, world).calls);
            ConsentInOneGo(k, s, login, request, lookup).sessions
            == s.sessions
               + if sent.None? then []
                 else [TokenSession(req.subject, req.requestedScope,
                                    Tokens(sent.value.accessToken, sent.value.idToken))]
  {
    var req := RequestOf(s.logins[login], request);
    var subject := req.subject;
    assert Settled(s.logins[login]) && TrimSpace(subject) == subject;
    FetchSpawnsConsent(k, s, login, request);
    FetchedProfileIsGood(k, s.kratos, subject);
    ConsentGrantsWhatWasAsked(k.config, challengeId, req, world);
    var fetched := Fetch(k.platform, world.kratos, subject);
    if fetched.Ok? {
      var next := Spawn(s, ConsentFetched(subject, request.requestedScope, fetched.value));
      assert next.tasks[|s.tasks|] == ConsentFetched(subject, request.requestedScope, fetched.value);
      AttachAndIssue(k, next, |s.tasks|, lookup, challengeId, req, world);
    } else {
      NoTaskNoSession(k, s, |s.tasks|, lookup);
    }
  }
}
