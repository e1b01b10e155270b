/** Resolving Hydra's login, consent and logout challenges (internal/challenge/service.go).
    A resolution is its calls to the outside, in order, and its result; what the outside
    answers is given by a world. Redirect URLs are strings; error messages are left out. */
module Challenge {
  import opened Wrappers
  import opened Text
  import opened UuidText
  import opened Identity
  import IdentityResolver

  datatype Error = Error(status: int, code: string, challengeId: string, traits: seq<string>)

  /** A call that fails may still have an HTTP status; one that succeeds may have no body. */
  datatype HydraReply<+T> = HydraFailed(status: Option<int>) | HydraAnswered(body: Option<T>)

  datatype LoginRequest = LoginRequest(skip: bool, subject: string, context: Option<Any>)

  datatype ConsentRequest = ConsentRequest(
    subject: string, context: Option<Any>, requestedScope: seq<string>, requestedAudience: seq<string>,
    clientId: string)

  datatype AcceptLogin = AcceptLogin(subject: string, remember: bool, rememberFor: int, context: Option<Claims>)

  datatype Session = Session(idToken: Claims, accessToken: Claims)

  datatype AcceptConsent = AcceptConsent(
    grantScope: Option<seq<string>>, grantAudience: Option<seq<string>>, remember: Option<bool>,
    rememberFor: Option<int>,
    context: Option<Claims>, session: Option<Session>)

  const NEW_ACCEPT_CONSENT := AcceptConsent(None, None, None, None, None, None)

  datatype HintReply = Hint(identityId: string) | HintSessionRequired | HintSessionInvalid | HintFailed

  datatype Call =
    | GetLogin(challengeId: string)
    | AskHint
    | FetchIdentity(identityId: string)
    | ResolveActor(identityId: string)
    | AcceptLoginRequest(challengeId: string, login: AcceptLogin)
    | GetConsent(challengeId: string)
    | AcceptConsentRequest(challengeId: string, consent: AcceptConsent)
    | GetLogout(challengeId: string)
    | AcceptLogoutRequest(challengeId: string)
    | AuditAutoAccept(subject: string, clientId: string, scope: seq<string>)

  datatype Outcome = Outcome(calls: seq<Call>, result: Result<string, Error>)

  function Fail(e: Error): Outcome {
    Outcome([], Err(e))
  }

  /** The call, then the rest of the resolution. */
  function After(c: Call, rest: Outcome): Outcome {
    Outcome([c] + rest.calls, rest.result)
  }

  /** The answers of Hydra, of the identity hint (None when the request carries no provider),
      of Kratos by identity id, and of the actor lookup by identity id. */
  datatype World = World(
    platform: Platform,
    login: HydraReply<LoginRequest>,
    consent: HydraReply<ConsentRequest>,
    logout: HydraReply<()>,
    hint: Option<HintReply>,
    kratos: string -> KratosReply,
    actor: string -> Result<string, IdentityResolver.ResolveError>,
    redirect: HydraReply<string>)

  datatype Config = Config(rememberFor: int, preConsentClientIds: seq<string>)

  datatype Flow = Login | Consent | Logout

  // ---------------------------------------------------------------------------------------
  // Errors
  // ---------------------------------------------------------------------------------------

  function MissingChallenge(): Error { Error(400, "missing_challenge", "", []) }

  function HydraFailure(challengeId: string): Error { Error(500, "hydra_failure", challengeId, []) }

  function SessionRequired(challengeId: string): Error { Error(401, "session_required", challengeId, []) }

  function SessionInvalid(challengeId: string): Error { Error(401, "session_invalid", challengeId, []) }

  function KratosFailure(challengeId: string): Error { Error(500, "kratos_failure", challengeId, []) }

  function AlkemioFailure(challengeId: string): Error { Error(502, "alkemio_resolution_failed", challengeId, []) }

  /** mapHydraError. */
  function HydraError(challengeId: string, status: Option<int>): Error {
    if status == Some(404) || status == Some(410) then Error(404, "invalid_challenge", challengeId, [])
    else if status == Some(400) then Error(400, "invalid_challenge", challengeId, [])
    else HydraFailure(challengeId)
  }

  /** mapIdentityError. */
  function IdentityError(challengeId: string, e: FetchError): Error {
    if e.MissingTraits? then Error(400, "missing_traits", challengeId, e.traits) else KratosFailure(challengeId)
  }

  /** mapIdentityHintError. */
  function HintError(challengeId: string, reply: HintReply): Error
    requires !reply.Hint?
  {
    match reply
    case HintSessionRequired => SessionRequired(challengeId)
    case HintSessionInvalid => SessionInvalid(challengeId)
    case HintFailed => KratosFailure(challengeId)
  }

  /** mapAlkemioError. */
  function ActorError(challengeId: string, e: IdentityResolver.ResolveError): Error {
    if e.NotFound? then Error(403, "alkemio_identity_missing", challengeId, []) else AlkemioFailure(challengeId)
  }

  // ---------------------------------------------------------------------------------------
  // Contexts
  // ---------------------------------------------------------------------------------------

  /** readIdentityID. */
  function ReadIdentityId(context: Option<Any>): (id: string)
    ensures Trimmed(id)
  {
    if context.Some? && context.value.Object? && IdentityIdKey in context.value.fields then
      TrimSpace(Sprint(context.value.fields[IdentityIdKey]))
    else ""
  }

  /** buildLoginContext. */
  function LoginContext(profile: Profile): Claims {
    map[IdentityIdKey := Str(profile.id), EmailKey := Str(profile.email), DisplayNameKey := Str(profile.displayName)]
    + Present({MatrixUserIdKey, TraitsKey}, k => Base(profile, k))
  }

  /** buildConsentContext. */
  function ConsentContext(profile: Profile): Claims {
    map[IdentityIdKey := Str(profile.id)] + Present({MatrixUserIdKey}, k => Base(profile, k))
  }

  /** ensureLoginContextIdentity, for an identity that is not empty: a context that is no map
      is replaced, and one that names another identity is copied and corrected. */
  function EnsureIdentity(context: Option<Any>, identityId: string): Claims {
    if context.Some? && context.value.Object? then
      if ReadIdentityId(context) == identityId && IdentityIdKey in context.value.fields then context.value.fields
      else context.value.fields[IdentityIdKey := Str(identityId)]
    else map[IdentityIdKey := Str(identityId)]
  }

  /** The map case of ensureLoginContextIdentity, with its copying loop. */
  method EnsureIdentityInMap(context: Claims, identityId: string) returns (ensured: Claims)
    requires identityId != "" && Trimmed(identityId)
    ensures ensured == EnsureIdentity(Some(Object(context, "")), identityId)
  {
    if IdentityIdKey in context {
      var existing := TrimSpace(Sprint(context[IdentityIdKey]));
      if existing == identityId {
        return context;
      }
    }
    var clone: Claims := map[];
    var keys := context.Keys;
    while keys != {}
      invariant keys <= context.Keys
      invariant clone == map k | k in context && k !in keys :: context[k]
      decreases keys
    {
      var key :| key in keys;
      clone := clone[key := context[key]];
      keys := keys - {key};
    }
    assert clone == context;
    ensured := clone[IdentityIdKey := Str(identityId)];
  }

  /** extractIdentityID. */
  function ExtractIdentityId(req: ConsentRequest): (id: string)
    ensures Trimmed(id)
  {
    var id := ReadIdentityId(req.context);
    if id != "" then id else TrimSpace(req.subject)
  }

  // ---------------------------------------------------------------------------------------
  // Accept calls
  // ---------------------------------------------------------------------------------------

  /** resolutionFromRedirect, and the Hydra error before it. */
  function Redirected(challengeId: string, reply: HydraReply<string>): (r: Result<string, Error>)
    ensures r.Ok? <==> reply.HydraAnswered? && reply.body.Some? && TrimSpace(reply.body.value) != ""
    ensures r.Ok? ==> r.value == TrimSpace(reply.body.value)
  {
    match reply
    case HydraFailed(status) => Err(HydraError(challengeId, status))
    case HydraAnswered(body) =>
      if body.None? then Err(HydraFailure(challengeId))
      else if TrimSpace(body.value) == "" then Err(HydraFailure(challengeId))
      else Ok(TrimSpace(body.value))
  }

  // ---------------------------------------------------------------------------------------
  // Login
  // ---------------------------------------------------------------------------------------

  /** determineSkipSubject, and whether it asks for the hint. */
  function SkipSubject(challengeId: string, req: LoginRequest, hint: Option<HintReply>): (bool, Result<string, Error>) {
    var contextId := ReadIdentityId(req.context);
    var subject := if contextId != "" then contextId else TrimSpace(req.subject);
    if subject == "" then (false, Err(HydraFailure(challengeId)))
    else if IsUuid(subject) then (false, Ok(subject))
    else if hint.None? then (false, Err(SessionInvalid(challengeId)))
    else if !hint.value.Hint? then (true, Err(HintError(challengeId, hint.value)))
    else
      var identityId := TrimSpace(hint.value.identityId);
      if identityId == "" || !IsUuid(identityId) then (true, Err(SessionInvalid(challengeId)))
      else (true, Ok(identityId))
  }

  function AcceptedLogin(challengeId: string, payload: AcceptLogin, world: World): Outcome {
    Outcome([AcceptLoginRequest(challengeId, payload)], Redirected(challengeId, world.redirect))
  }

  function SkipPayload(config: Config, req: LoginRequest, subject: string): AcceptLogin {
    AcceptLogin(subject, true, config.rememberFor, Some(EnsureIdentity(req.context, subject)))
  }

  function LoginSkip(config: Config, challengeId: string, req: LoginRequest, world: World): Outcome {
    var (asks, subject) := SkipSubject(challengeId, req, world.hint);
    var rest := if subject.Err? then Fail(subject.error)
                else AcceptedLogin(challengeId, SkipPayload(config, req, subject.value), world);
    if asks then After(AskHint, rest) else rest
  }

  /** The identity a login without a session starts from: Hydra's subject, or the hint. */
  function StandardIdentity(challengeId: string, req: LoginRequest, hint: Option<HintReply>)
    : (bool, Result<string, Error>) {
    var subject := TrimSpace(req.subject);
    if subject != "" then (false, Ok(subject))
    else if hint.None? then (false, Err(SessionRequired(challengeId)))
    else if !hint.value.Hint? then (true, Err(HintError(challengeId, hint.value)))
    else if TrimSpace(hint.value.identityId) == "" then (true, Err(SessionInvalid(challengeId)))
    else (true, Ok(TrimSpace(hint.value.identityId)))
  }

  function StandardPayload(config: Config, profile: Profile): AcceptLogin {
    AcceptLogin(profile.id, true, config.rememberFor, Some(LoginContext(profile)))
  }

  function LoginFetched(config: Config, challengeId: string, identityId: string, world: World): Outcome {
    var profile := Fetch(world.platform, world.kratos, identityId);
    After(FetchIdentity(identityId),
          if profile.Err? then Fail(IdentityError(challengeId, profile.error))
          else AcceptedLogin(challengeId, StandardPayload(config, profile.value), world))
  }

  function LoginStandard(config: Config, challengeId: string, req: LoginRequest, world: World): Outcome {
    var (asks, identity) := StandardIdentity(challengeId, req, world.hint);
    var rest := if identity.Err? then Fail(identity.error)
                else LoginFetched(config, challengeId, identity.value, world);
    if asks then After(AskHint, rest) else rest
  }

  function ResolveLogin(config: Config, challenge: string, world: World): Outcome {
    var challengeId := TrimSpace(challenge);
    if challengeId == "" then Fail(MissingChallenge())
    else
      After(GetLogin(challengeId),
        match world.login
        case HydraFailed(status) => Fail(HydraError(challengeId, status))
        case HydraAnswered(None) => Fail(HydraFailure(challengeId))
        case HydraAnswered(Some(req)) =>
          if req.skip then LoginSkip(config, challengeId, req, world)
          else LoginStandard(config, challengeId, req, world))
  }

  // ---------------------------------------------------------------------------------------
  // Consent
  // ---------------------------------------------------------------------------------------

  /** attachAlkemioClaim. */
  function AttachActor(challengeId: string, profile: Profile, answer: Result<string, IdentityResolver.ResolveError>)
    : Result<Profile, Error>
  {
    if answer.Err? then Err(ActorError(challengeId, answer.error))
    else
      var validated := ValidateMapping(Some(answer.value));
      if validated.Err? then Err(AlkemioFailure(challengeId)) else Ok(WithActorId(profile, validated.value))
  }

  /** Scope and audience are set only when Hydra asks for some. */
  function WithGrants(payload: AcceptConsent, req: ConsentRequest): AcceptConsent {
    var scoped := if |req.requestedScope| > 0 then payload.(grantScope := Some(req.requestedScope)) else payload;
    if |req.requestedAudience| > 0 then scoped.(grantAudience := Some(req.requestedAudience)) else scoped
  }

  function WithRemember(payload: AcceptConsent, rememberFor: int): AcceptConsent {
    payload.(remember := Some(true), rememberFor := Some(rememberFor))
  }

  function SessionOf(profile: Profile): Session {
    Session(IDTokenClaims(profile), AccessTokenClaims(profile))
  }

  /** Fetching the profile and, when wanted, attaching the actor id to it. */
  function ConsentProfile(challengeId: string, req: ConsentRequest, profile: Profile, world: World)
    : Result<Profile, Error> {
    if "alkemio" in req.requestedScope then AttachActor(challengeId, profile, world.actor(profile.id)) else Ok(profile)
  }

  /** The part of ResolveConsent for clients that are not on the allow-list. */
  function ConsentStandard(config: Config, challengeId: string, req: ConsentRequest, world: World): Outcome {
    var identityId := ExtractIdentityId(req);
    if identityId == "" then Fail(HydraFailure(challengeId))
    else
      var fetched := Fetch(world.platform, world.kratos, identityId);
      After(FetchIdentity(identityId),
        if fetched.Err? then Fail(IdentityError(challengeId, fetched.error))
        else
          var profile := ConsentProfile(challengeId, req, fetched.value, world);
          var rest := if profile.Err? then Fail(profile.error)
                      else StandardAccepted(config, challengeId, req, profile.value, world);
          if "alkemio" in req.requestedScope then After(ResolveActor(fetched.value.id), rest) else rest)
  }

  function StandardAccepted(config: Config, challengeId: string, req: ConsentRequest, profile: Profile, world: World)
    : Outcome {
    var granted := WithRemember(WithGrants(NEW_ACCEPT_CONSENT, req), config.rememberFor);
    var payload := granted.(context := Some(ConsentContext(profile))).(session := Some(SessionOf(profile)));
    Outcome([AcceptConsentRequest(challengeId, payload)], Redirected(challengeId, world.redirect))
  }

  /** resolveConsentAutoAccept: the accept call, then the audit event unless Hydra failed. */
  function AutoAccepted(challengeId: string, req: ConsentRequest, payload: AcceptConsent, world: World): Outcome {
    var accepted := [AcceptConsentRequest(challengeId, payload)];
    var audit := AuditAutoAccept(TrimSpace(req.subject), TrimSpace(req.clientId), req.requestedScope);
    Outcome(if world.redirect.HydraFailed? then accepted else accepted + [audit],
            Redirected(challengeId, world.redirect))
  }

  function ConsentAutoAccept(config: Config, challengeId: string, req: ConsentRequest, world: World): Outcome {
    var granted := WithRemember(WithGrants(NEW_ACCEPT_CONSENT, req), config.rememberFor);
    var identityId := ExtractIdentityId(req);
    if identityId == "" then AutoAccepted(challengeId, req, granted, world)
    else
      var fetched := Fetch(world.platform, world.kratos, identityId);
      After(FetchIdentity(identityId),
        if fetched.Err? then Fail(IdentityError(challengeId, fetched.error))
        else
          var profile := ConsentProfile(challengeId, req, fetched.value, world);
          var rest := if profile.Err? then Fail(profile.error)
                      else
                        var payload := granted.(session := Some(SessionOf(profile.value)))
                                       .(context := Some(ConsentContext(profile.value)));
                        AutoAccepted(challengeId, req, payload, world);
          if "alkemio" in req.requestedScope then After(ResolveActor(fetched.value.id), rest) else rest)
  }

  predicate IsPreConsentClient(config: Config, req: ConsentRequest) {
    var clientId := TrimSpace(req.clientId);
    clientId != "" && clientId in config.preConsentClientIds
  }

  function ResolveConsent(config: Config, challenge: string, world: World): Outcome {
    var challengeId := TrimSpace(challenge);
    if challengeId == "" then Fail(MissingChallenge())
    else
      After(GetConsent(challengeId),
        match world.consent
        case HydraFailed(status) => Fail(HydraError(challengeId, status))
        case HydraAnswered(None) => Fail(HydraFailure(challengeId))
        case HydraAnswered(Some(req)) =>
          if IsPreConsentClient(config, req) then ConsentAutoAccept(config, challengeId, req, world)
          else ConsentStandard(config, challengeId, req, world))
  }

  // ---------------------------------------------------------------------------------------
  // Logout
  // ---------------------------------------------------------------------------------------

  function ResolveLogout(challenge: string, world: World): Outcome {
    var challengeId := TrimSpace(challenge);
    if challengeId == "" then Fail(MissingChallenge())
    else
      After(GetLogout(challengeId),
        if world.logout.HydraFailed? then Fail(HydraError(challengeId, world.logout.status))
        else Outcome([AcceptLogoutRequest(challengeId)], Redirected(challengeId, world.redirect)))
  }

  function Resolve(flow: Flow, config: Config, challenge: string, world: World): Outcome {
    match flow
    case Login => ResolveLogin(config, challenge, world)
    case Consent => ResolveConsent(config, challenge, world)
    case Logout => ResolveLogout(challenge, world)
  }
}
