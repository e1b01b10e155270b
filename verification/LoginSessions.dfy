/** The identity a Hydra session carries from a first login through later ones to consent.
    Hydra hands back the subject and the context of the last accepted login. */
module LoginSessions {
  import opened Wrappers
  import opened Text
  import opened UuidText
  import opened Identity
  import opened Challenge

  /** What Hydra remembers of a login. */
  datatype HydraSession = HydraSession(subject: string, context: Claims)

  function SessionOfLogin(payload: AcceptLogin): HydraSession {
    HydraSession(payload.subject, if payload.context.Some? then payload.context.value else map[])
  }

  function SkipRequest(s: HydraSession): LoginRequest {
    LoginRequest(true, s.subject, Some(Object(s.context, "")))
  }

  /** The session names one identity, a UUID, in both places. */
  predicate Settled(s: HydraSession) {
    IsUuid(s.subject) && ReadIdentityId(Some(Object(s.context, ""))) == s.subject
  }

  /** One later login: the challenge and what the outside answers during it. */
  datatype Visit = Visit(challengeId: string, world: World)

  /** The session after a skip login: what it accepts, if it accepts. */
  function AfterVisit(config: Config, s: HydraSession, v: Visit): HydraSession {
    var (_, subject) := SkipSubject(v.challengeId, SkipRequest(s), v.world.hint);
    if subject.Ok? && v.world.redirect.HydraAnswered?
    then SessionOfLogin(SkipPayload(config, SkipRequest(s), subject.value)) else s
  }

  function AfterVisits(config: Config, s: HydraSession, visits: seq<Visit>): HydraSession {
    if visits == [] then s else AfterVisit(config, AfterVisits(config, s, visits[..|visits| - 1]), visits[|visits| - 1])
  }

  /** Reading back the context of an accepted login gives its subject: always after a skip
      login; after a standard login exactly when Kratos gave an id without white space at its
      ends. */
  lemma AcceptedContextNamesSubject(
    config: Config, req: LoginRequest, profile: Profile, challengeId: string, hint: Option<HintReply>)
    ensures var (_, subject) := SkipSubject(challengeId, req, hint);
            subject.Ok? ==>
              var p := SkipPayload(config, req, subject.value);
              Trimmed(p.subject) && IsUuid(p.subject) && Settled(SessionOfLogin(p))
    ensures var p := StandardPayload(config, profile);
            ReadIdentityId(Some(Object(p.context.value, ""))) == TrimSpace(p.subject)
    ensures var p := StandardPayload(config, profile);
            ReadIdentityId(Some(Object(p.context.value, ""))) == p.subject <==> Trimmed(profile.id)
  {
    var (_, subject) := SkipSubject(challengeId, req, hint);
    if subject.Ok? {
      EnsuredIdentityReadsBack(req.context, subject.value);
    }
    var context := StandardPayload(config, profile).context.value;
    assert context[IdentityIdKey] == Str(profile.id);
  }

  lemma EnsuredIdentityReadsBack(context: Option<Any>, id: string)
    requires Trimmed(id) && id != ""
    ensures ReadIdentityId(Some(Object(EnsureIdentity(context, id), ""))) == id
  {
    assert TrimSpace(id) == id;
  }

  /** A skip login of a settled session accepts the same subject and sends the same context,
      whatever the hint would say, and does not ask for it. */
  lemma SettledSkipKeepsIdentity(config: Config, s: HydraSession, v: Visit)
    requires Settled(s)
    ensures SkipSubject(v.challengeId, SkipRequest(s), v.world.hint) == (false, Ok(s.subject))
    ensures LoginSkip(config, v.challengeId, SkipRequest(s), v.world).calls
         == [AcceptLoginRequest(v.challengeId, AcceptLogin(s.subject, true, config.rememberFor, Some(s.context)))]
    ensures AfterVisit(config, s, v) == s
  {
    assert s.subject != "";
  }

  /** However many skip logins follow a settled one, and whatever is answered during them,
      the next still accepts the first subject without the hint, and a consent given at that
      point fetches that identity. */
  lemma {:induction false} SettledSessionsStaySettled(
    config: Config, s: HydraSession, visits: seq<Visit>, next: Visit, req: ConsentRequest)
    requires Settled(s)
    ensures AfterVisits(config, s, visits) == s
    ensures LoginSkip(config, next.challengeId, SkipRequest(AfterVisits(config, s, visits)), next.world).calls
         == [AcceptLoginRequest(next.challengeId, AcceptLogin(s.subject, true, config.rememberFor, Some(s.context)))]
    ensures ExtractIdentityId(req.(subject := AfterVisits(config, s, visits).subject,
                                   context := Some(Object(AfterVisits(config, s, visits).context, "")))) == s.subject
  {
    if visits != [] {
      SettledSessionsStaySettled(config, s, visits[..|visits| - 1], next, req);
      SettledSkipKeepsIdentity(config, s, visits[|visits| - 1]);
    }
    SettledSkipKeepsIdentity(config, s, next);
    assert s.subject != "";
  }

  /** A standard login starts a settled session exactly when Kratos gave a UUID without white
      space at its ends. */
  lemma StandardLoginSettles(config: Config, profile: Profile)
    ensures Settled(SessionOfLogin(StandardPayload(config, profile))) <==> IsUuid(profile.id) && Trimmed(profile.id)
  {
    AcceptedContextNamesSubject(config, LoginRequest(false, "", None), profile, "", None);
  }

  /** A session whose identity is no UUID cannot be skipped without a hint, and an accepted
      skip moves it to another identity: the hinted one. */
  lemma UnsettledSkipChangesIdentity(s: HydraSession, v: Visit)
    requires ReadIdentityId(Some(Object(s.context, ""))) == s.subject && s.subject != "" && !IsUuid(s.subject)
    ensures var (asks, subject) := SkipSubject(v.challengeId, SkipRequest(s), v.world.hint);
            && asks == v.world.hint.Some?
            && (subject.Ok? ==> subject.value != s.subject && v.world.hint.value.Hint?
                                && subject.value == TrimSpace(v.world.hint.value.identityId))
  {
  }

  lemma FetchedLoginIsAuthorized(config: Config, challengeId: string, id: string, world: World)
    ensures var r := LoginFetched(config, challengeId, id, world).result; r.Err? ==> r.error.status != 401
  {
  }

  /** A login without a session to skip is refused with 401 exactly when neither Hydra's
      subject nor the hint names an identity and the hint did not fail for another reason. */
  lemma UnauthorizedMeansNoIdentity(config: Config, challengeId: string, req: LoginRequest, world: World)
    ensures var r := LoginStandard(config, challengeId, req, world).result;
            (r.Err? && r.error.status == 401) <==>
              && TrimSpace(req.subject) == ""
              && (world.hint.None? || world.hint.value.HintSessionRequired? || world.hint.value.HintSessionInvalid?
                  || (world.hint.value.Hint? && TrimSpace(world.hint.value.identityId) == ""))
  {
    var (_, identity) := StandardIdentity(challengeId, req, world.hint);
    if identity.Ok? {
      FetchedLoginIsAuthorized(config, challengeId, identity.value, world);
    }
  }

  lemma FailedHintIsServerError(config: Config, challengeId: string, req: LoginRequest, world: World)
    requires TrimSpace(req.subject) == "" && world.hint == Some(HintFailed)
    ensures LoginStandard(config, challengeId, req, world).result == Err(KratosFailure(challengeId))
  {
  }
}
