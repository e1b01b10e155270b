/** Which path a resolution takes, and what it sends on it. */
module ResolutionTheorems {
  import opened Wrappers
  import opened Text
  import opened UuidText
  import opened Identity
  import opened Challenge
  import opened ChallengeTheorems
  import opened ConsentTheorems
  import opened ClaimsTheorems
  import opened LoginSessions
  import IdentityResolver

  // ---------------------------------------------------------------------------------------
  // Identities in requests
  // ---------------------------------------------------------------------------------------

  /** The context names this identity. */
  ghost predicate Named(context: Option<Any>, id: string) {
    && context.Some? && context.value.Object? && IdentityIdKey in context.value.fields
    && id == TrimSpace(Sprint(context.value.fields[IdentityIdKey])) && id != ""
  }

  /** The identity a request knows of: the one its context names, else its subject. */
  ghost predicate Known(context: Option<Any>, subject: string, id: string) {
    if exists named :: Named(context, named) then Named(context, id) else id == TrimSpace(subject)
  }

  lemma ContextNames(context: Option<Any>)
    ensures forall id :: Named(context, id) <==> id == ReadIdentityId(context) && id != ""
  {
  }

  /** A consent is for the identity its request knows of. */
  lemma ConsentIdentityIsKnown(req: ConsentRequest)
    ensures forall id :: Known(req.context, req.subject, id) <==> id == ExtractIdentityId(req)
  {
    ContextNames(req.context);
    var read := ReadIdentityId(req.context);
    assert read != "" ==> Named(req.context, read);
  }

  // ---------------------------------------------------------------------------------------
  // Logins
  // ---------------------------------------------------------------------------------------

  /** What a login accepts with. */
  function LoginSent(calls: seq<Call>): Option<AcceptLogin> {
    if calls == [] then None
    else if calls[0].AcceptLoginRequest? then Some(calls[0].login)
    else LoginSent(calls[1..])
  }

  lemma LoginSentAfter(c: Call, rest: Outcome)
    requires !c.AcceptLoginRequest?
    ensures LoginSent(After(c, rest).calls) == LoginSent(rest.calls)
  {
    assert ([c] + rest.calls)[1..] == rest.calls;
  }

  /** The request reaches a login with this body. */
  ghost predicate AsksLogin(challenge: string, world: World, req: LoginRequest) {
    TrimSpace(challenge) != "" && world.login == HydraAnswered(Some(req))
  }

  /** Without a session to skip: Hydra's subject, else the identity of the hint. */
  ghost predicate Starts(req: LoginRequest, hint: Option<HintReply>, id: string) {
    && id != ""
    && if TrimSpace(req.subject) != "" then id == TrimSpace(req.subject)
       else hint.Some? && hint.value.Hint? && id == TrimSpace(hint.value.identityId)
  }

  /** A login without a session to skip is accepted for the identity Kratos answers with, once
      it has a profile, and its context says what Kratos says of it. */
  lemma StandardLoginSends(
    config: Config, challenge: string, world: World, req: LoginRequest, id: string, identity: KratosIdentity)
    requires AsksLogin(challenge, world, req) && !req.skip && Starts(req, world.hint, id)
    requires world.kratos(id) == KratosAnswered(Some(identity))
    ensures var sent := LoginSent(ResolveLogin(config, challenge, world).calls);
            && (sent.Some? <==> HasProfile(world.platform, identity))
            && (sent.Some? ==>
                  && sent.value.subject == identity.id && sent.value.remember
                  && sent.value.rememberFor == config.rememberFor
                  && sent.value.context.Some? && LoginContextShows(identity, sent.value.context.value))
  {
    var challengeId := TrimSpace(challenge);
    var standard := LoginStandard(config, challengeId, req, world);
    LoginSentAfter(GetLogin(challengeId), standard);
    var fetched := LoginFetched(config, challengeId, id, world);
    LoginSentAfter(AskHint, fetched);
    FetchedLoginSends(config, challengeId, world, id, identity);
  }

  lemma FetchedLoginSends(config: Config, challengeId: string, world: World, id: string, identity: KratosIdentity)
    requires Trimmed(id) && id != "" && world.kratos(id) == KratosAnswered(Some(identity))
    ensures var sent := LoginSent(LoginFetched(config, challengeId, id, world).calls);
            && (sent.Some? <==> HasProfile(world.platform, identity))
            && (sent.Some? ==>
                  && sent.value.subject == identity.id && sent.value.remember
                  && sent.value.rememberFor == config.rememberFor
                  && sent.value.context.Some? && LoginContextShows(identity, sent.value.context.value))
  {
    assert TrimSpace(id) == id;
    ProfileNeeds(world.platform, identity);
    var profile := Fetch(world.platform, world.kratos, id);
    if profile.Ok? {
      assert IsProfileOf(world.platform, identity, profile.value);
      LoginContextShowsIdentity(world.platform, identity, profile.value);
      LoginSentAfter(FetchIdentity(id),
                     AcceptedLogin(challengeId, StandardPayload(config, profile.value), world));
    } else {
      LoginSentAfter(FetchIdentity(id), Fail(IdentityError(challengeId, profile.error)));
    }
  }

  /** A skipped login is for the identity the request knows of when that is a UUID, and for the
      one of the hint when it is something else. */
  ghost predicate Skips(req: LoginRequest, hint: Option<HintReply>, id: string) {
    && IsUuid(id)
    && (Known(req.context, req.subject, id)
        || ((exists known :: Known(req.context, req.subject, known) && known != "" && !IsUuid(known))
            && hint.Some? && hint.value.Hint? && id == TrimSpace(hint.value.identityId)))
  }

  /** The context that is sent names the identity and for the rest is what came. */
  ghost predicate ContextKept(before: Option<Any>, after: Claims, id: string) {
    && Named(Some(Object(after, "")), id)
    && if before.Some? && before.value.Object? then
         && after - {IdentityIdKey} == before.value.fields - {IdentityIdKey}
         && (Named(before, id) ==> after == before.value.fields)
       else after.Keys == {IdentityIdKey}
  }

  lemma SkipSubjectSkips(challengeId: string, req: LoginRequest, hint: Option<HintReply>)
    ensures forall id :: Skips(req, hint, id) <==> SkipSubject(challengeId, req, hint).1 == Ok(id)
  {
    ContextNames(req.context);
    var read := ReadIdentityId(req.context);
    assert read != "" ==> Named(req.context, read);
    var known := if read != "" then read else TrimSpace(req.subject);
    assert forall id :: Known(req.context, req.subject, id) <==> id == known;
  }

  lemma EnsuredContextIsKept(context: Option<Any>, id: string)
    requires id != "" && Trimmed(id)
    ensures ContextKept(context, EnsureIdentity(context, id), id)
  {
    assert TrimSpace(id) == id;
    var after := EnsureIdentity(context, id);
    if context.Some? && context.value.Object? {
      assert after - {IdentityIdKey} == context.value.fields - {IdentityIdKey};
    }
  }

  /** A login with a session to skip is accepted exactly when it names an identity that way, for
      that identity, in the context that came with it. */
  lemma SkipLoginSends(config: Config, challenge: string, world: World, req: LoginRequest)
    requires AsksLogin(challenge, world, req) && req.skip
    ensures var sent := LoginSent(ResolveLogin(config, challenge, world).calls);
            && (sent.Some? <==> exists id :: Skips(req, world.hint, id))
            && (sent.Some? ==>
                  && Skips(req, world.hint, sent.value.subject) && sent.value.remember
                  && sent.value.rememberFor == config.rememberFor
                  && sent.value.context.Some?
                  && ContextKept(req.context, sent.value.context.value, sent.value.subject))
  {
    var challengeId := TrimSpace(challenge);
    LoginSentAfter(GetLogin(challengeId), LoginSkip(config, challengeId, req, world));
    SkipSubjectSkips(challengeId, req, world.hint);
    var subject := SkipSubject(challengeId, req, world.hint).1;
    if subject.Ok? {
      assert Skips(req, world.hint, subject.value);
      EnsuredContextIsKept(req.context, subject.value);
      LoginSentAfter(AskHint, AcceptedLogin(challengeId, SkipPayload(config, req, subject.value), world));
    } else {
      LoginSentAfter(AskHint, Fail(subject.error));
    }
  }

  /** What Hydra remembers after a later login is what that login sent, if Hydra took it. */
  lemma VisitKeepsWhatWasSent(config: Config, s: HydraSession, v: Visit)
    requires AsksLogin(v.challengeId, v.world, SkipRequest(s)) && TrimSpace(v.challengeId) == v.challengeId
    ensures var sent := LoginSent(ResolveLogin(config, v.challengeId, v.world).calls);
            AfterVisit(config, s, v)
            == if sent.Some? && v.world.redirect.HydraAnswered? then SessionOfLogin(sent.value) else s
  {
    var req := SkipRequest(s);
    LoginSentAfter(GetLogin(v.challengeId), LoginSkip(config, v.challengeId, req, v.world));
    var subject := SkipSubject(v.challengeId, req, v.world.hint).1;
    if subject.Ok? {
      LoginSentAfter(AskHint, AcceptedLogin(v.challengeId, SkipPayload(config, req, subject.value), v.world));
    } else {
      LoginSentAfter(AskHint, Fail(subject.error));
    }
  }

  // ---------------------------------------------------------------------------------------
  // Consents
  // ---------------------------------------------------------------------------------------

  /** The client of the request is on the allow-list. */
  ghost predicate Listed(config: Config, req: ConsentRequest) {
    && TrimSpace(req.clientId) != ""
    && exists i :: 0 <= i < |config.preConsentClientIds| && config.preConsentClientIds[i] == TrimSpace(req.clientId)
  }

  lemma StandardNeverAudits(config: Config, challengeId: string, req: ConsentRequest, world: World)
    ensures CountAudits(ConsentStandard(config, challengeId, req, world).calls) == 0
  {
    var id := ExtractIdentityId(req);
    if id != "" {
      var fetched := Fetch(world.platform, world.kratos, id);
      if fetched.Err? {
        CountAuditsAfter(FetchIdentity(id), Fail(IdentityError(challengeId, fetched.error)));
      } else {
        var profile := ConsentProfile(challengeId, req, fetched.value, world);
        var rest := if profile.Err? then Fail(profile.error)
                    else StandardAccepted(config, challengeId, req, profile.value, world);
        assert CountAudits(rest.calls) == 0;
        CountAuditsThroughLookups(id, fetched.value.id, rest);
      }
    }
  }

  /** Only listed clients are accepted without a session, which then happens exactly when the
      request knows no identity, and only their acceptances are audited. */
  lemma ListDecidesConsentPath(config: Config, challenge: string, world: World, req: ConsentRequest)
    requires TrimSpace(challenge) != "" && world.consent == HydraAnswered(Some(req))
    ensures var calls := ResolveConsent(config, challenge, world).calls;
            var sent := PayloadSent(calls);
            var known := !Known(req.context, req.subject, "");
            && (sent.Some? && sent.value.session.None? <==> Listed(config, req) && !known)
            && CountAudits(calls)
               == (if Listed(config, req) && sent.Some? && world.redirect.HydraAnswered? then 1 else 0)
  {
    var challengeId := TrimSpace(challenge);
    ConsentIdentityIsKnown(req);
    ConsentGrantsWhatWasAsked(config, challengeId, req, world);
    AuditFollowsAcceptNotResolution(config, challengeId, req, world);
    StandardNeverAudits(config, challengeId, req, world);
    assert IsPreConsentClient(config, req) <==> Listed(config, req);
    var path := if IsPreConsentClient(config, req) then ConsentAutoAccept(config, challengeId, req, world)
                else ConsentStandard(config, challengeId, req, world);
    PayloadSentAfter(GetConsent(challengeId), path);
    CountAuditsAfter(GetConsent(challengeId), path);
  }

  /** The audit event says for whom, for which client and for which scope. */
  lemma AuditSays(challengeId: string, req: ConsentRequest, payload: AcceptConsent, world: World)
    ensures var calls := AutoAccepted(challengeId, req, payload, world).calls;
            && calls[0] == AcceptConsentRequest(challengeId, payload)
            && (world.redirect.HydraAnswered? ==>
                  && |calls| == 2
                  && calls[1] == AuditAutoAccept(TrimSpace(req.subject), TrimSpace(req.clientId), req.requestedScope))
  {
  }

  /** Whoever the client is, what a consent sends for an identity says what Kratos says of it,
      grants what was asked for and is remembered. */
  lemma ConsentSends(config: Config, challenge: string, world: World, req: ConsentRequest, id: string,
                     identity: KratosIdentity)
    requires TrimSpace(challenge) != "" && world.consent == HydraAnswered(Some(req))
    requires id != "" && Known(req.context, req.subject, id) && world.kratos(id) == KratosAnswered(Some(identity))
    ensures var sent := PayloadSent(ResolveConsent(config, challenge, world).calls);
            && (sent.Some? <==>
                  && HasProfile(world.platform, identity)
                  && ("alkemio" in req.requestedScope ==>
                        world.actor(identity.id).Ok? && IsUuid(TrimSpace(world.actor(identity.id).value))))
            && (sent.Some? ==>
                  && PayloadShows(world.platform, identity, sent.value)
                  && sent.value.grantScope == (if req.requestedScope == [] then None else Some(req.requestedScope))
                  && sent.value.grantAudience
                     == (if req.requestedAudience == [] then None else Some(req.requestedAudience))
                  && sent.value.remember == Some(true) && sent.value.rememberFor == Some(config.rememberFor))
  {
    var challengeId := TrimSpace(challenge);
    ConsentIdentityIsKnown(req);
    ConsentGrantsWhatWasAsked(config, challengeId, req, world);
    ConsentShowsIdentity(config, challengeId, req, world, identity);
    var path := if IsPreConsentClient(config, req) then ConsentAutoAccept(config, challengeId, req, world)
                else ConsentStandard(config, challengeId, req, world);
    PayloadSentAfter(GetConsent(challengeId), path);
  }

  // ---------------------------------------------------------------------------------------
  // Statuses
  // ---------------------------------------------------------------------------------------

  /** The status Hydra's own failure turns into: a challenge it does not know or has done with
      is 404, one it rejects 400, anything else 500. */
  ghost predicate StatusOfHydra(failure: Option<int>, status: int) {
    if failure == Some(404) || failure == Some(410) then status == 404
    else if failure == Some(400) then status == 400
    else status == 500
  }

  /** A blank challenge is refused without asking anyone, and one that Hydra does not give a
      request for with the status of Hydra's failure, after that one call. */
  lemma ChallengeRefused(flow: Flow, config: Config, challenge: string, world: World)
    ensures var o := Resolve(flow, config, challenge, world);
            var asked := match flow
                         case Login => GetLogin(TrimSpace(challenge))
                         case Consent => GetConsent(TrimSpace(challenge))
                         case Logout => GetLogout(TrimSpace(challenge));
            var failure := match flow
                           case Login => if world.login.HydraFailed? then Some(world.login.status) else None
                           case Consent => if world.consent.HydraFailed? then Some(world.consent.status) else None
                           case Logout => if world.logout.HydraFailed? then Some(world.logout.status) else None;
            && (TrimSpace(challenge) == "" <==> o.calls == [])
            && (TrimSpace(challenge) == "" ==> o.result.Err? && o.result.error.status == 400)
            && (TrimSpace(challenge) != "" ==> o.calls[0] == asked)
            && (TrimSpace(challenge) != "" && failure.Some? ==>
                  o.calls == [asked] && o.result.Err? && StatusOfHydra(failure.value, o.result.error.status))
  {
  }

  /** Why the part of a consent after the fetch fails, by status. */
  ghost predicate StatusAfterFetch(
    req: ConsentRequest, actor: Result<string, IdentityResolver.ResolveError>, redirect: HydraReply<string>,
    status: int)
  {
    if "alkemio" in req.requestedScope && actor == Err(IdentityResolver.NotFound) then status == 403
    else if "alkemio" in req.requestedScope && (actor.Err? || !IsUuid(TrimSpace(actor.value))) then status == 502
    else if redirect.HydraFailed? then StatusOfHydra(redirect.status, status)
    else (redirect.body.None? || TrimSpace(redirect.body.value) == "") && status == 500
  }

  lemma StatusOfAccept(challengeId: string, req: ConsentRequest, fetched: Profile, world: World)
    ensures var profile := ConsentProfile(challengeId, req, fetched, world);
            var r := if profile.Err? then Err(profile.error) else Redirected(challengeId, world.redirect);
            r.Err? ==> StatusAfterFetch(req, world.actor(fetched.id), world.redirect, r.error.status)
  {
  }

  /** A consent for an identity fails with 400 when the identity has no profile, and otherwise
      with the status of the first thing that goes wrong, on both paths. */
  lemma ConsentFailure(
    config: Config, challengeId: string, req: ConsentRequest, world: World, identity: KratosIdentity)
    requires ExtractIdentityId(req) != "" && world.kratos(ExtractIdentityId(req)) == KratosAnswered(Some(identity))
    ensures var standard := ConsentStandard(config, challengeId, req, world).result;
            && ConsentAutoAccept(config, challengeId, req, world).result == standard
            && (standard.Err? ==>
                  if !HasProfile(world.platform, identity) then standard.error.status == 400
                  else StatusAfterFetch(req, world.actor(identity.id), world.redirect, standard.error.status))
  {
    var id := ExtractIdentityId(req);
    AutoAcceptMatchesStandard(config, challengeId, req, world);
    assert TrimSpace(id) == id;
    ProfileNeeds(world.platform, identity);
    var fetched := Fetch(world.platform, world.kratos, id);
    if fetched.Ok? {
      StatusOfAccept(challengeId, req, fetched.value, world);
    } else {
      MissingTraitsNamed(world.platform, identity);
    }
  }

  /** Once the accept call is made, only Hydra's answer to it can make a resolution fail. */
  lemma AcceptFailure(flow: Flow, config: Config, challenge: string, world: World)
    ensures var o := Resolve(flow, config, challenge, world);
            CountAccepts(o.calls) > 0 && o.result.Err? ==>
              if world.redirect.HydraFailed? then StatusOfHydra(world.redirect.status, o.result.error.status)
              else o.result.error.status == 500
  {
    AcceptsOnceAndLast(flow, config, challenge, world);
  }

  /** When Kratos does not give the identity, consent and login fail with 500 and accept nothing. */
  lemma KratosFailure(config: Config, challengeId: string, consent: ConsentRequest, world: World, id: string)
    requires id != "" && Trimmed(id) && (world.kratos(id).KratosFailed? || world.kratos(id).identity.None?)
    ensures var login := LoginFetched(config, challengeId, id, world);
            login.calls == [FetchIdentity(id)] && login.result.Err? && login.result.error.status == 500
    ensures ExtractIdentityId(consent) == id ==>
              var standard := ConsentStandard(config, challengeId, consent, world);
              && standard.calls == [FetchIdentity(id)] && standard.result.Err? && standard.result.error.status == 500
              && ConsentAutoAccept(config, challengeId, consent, world) == standard
  {
    assert TrimSpace(id) == id;
  }

  /** Every error goes by a code of its status, and says which challenge it is about. */
  ghost predicate Fits(challengeId: string, e: Error) {
    && e.challengeId == challengeId
    && match e.status
       case 400 => e.code == "missing_challenge" || e.code == "invalid_challenge" || e.code == "missing_traits"
       case 401 => e.code == "session_required" || e.code == "session_invalid"
       case 403 => e.code == "alkemio_identity_missing"
       case 404 => e.code == "invalid_challenge"
       case 500 => e.code == "hydra_failure" || e.code == "kratos_failure"
       case _ => e.status == 502 && e.code == "alkemio_resolution_failed"
  }

  ghost predicate ResultFits(challengeId: string, o: Outcome) {
    o.result.Err? ==> Fits(challengeId, o.result.error)
  }

  lemma RedirectErrorFits(challengeId: string, reply: HydraReply<string>)
    ensures Redirected(challengeId, reply).Err? ==> Fits(challengeId, Redirected(challengeId, reply).error)
  {
  }

  lemma SkipErrorFits(config: Config, challengeId: string, req: LoginRequest, world: World)
    ensures ResultFits(challengeId, LoginSkip(config, challengeId, req, world))
  {
    var subject := SkipSubject(challengeId, req, world.hint).1;
    var result := LoginSkip(config, challengeId, req, world).result;
    if subject.Ok? {
      assert result == Redirected(challengeId, world.redirect);
      RedirectErrorFits(challengeId, world.redirect);
    } else {
      assert result == Err(subject.error);
    }
  }

  lemma FetchedErrorFits(config: Config, challengeId: string, id: string, world: World)
    ensures ResultFits(challengeId, LoginFetched(config, challengeId, id, world))
  {
    RedirectErrorFits(challengeId, world.redirect);
  }

  lemma StandardErrorFits(config: Config, challengeId: string, req: LoginRequest, world: World)
    ensures ResultFits(challengeId, LoginStandard(config, challengeId, req, world))
  {
    var identity := StandardIdentity(challengeId, req, world.hint).1;
    if identity.Ok? {
      FetchedErrorFits(config, challengeId, identity.value, world);
    }
  }

  lemma HydraErrorsFit(challengeId: string, status: Option<int>)
    ensures Fits(challengeId, HydraError(challengeId, status)) && Fits(challengeId, HydraFailure(challengeId))
  {
  }

  lemma LoginErrorFits(config: Config, challenge: string, world: World)
    ensures ResultFits(TrimSpace(challenge), ResolveLogin(config, challenge, world))
  {
    var challengeId := TrimSpace(challenge);
    var result := ResolveLogin(config, challenge, world).result;
    if challengeId != "" {
      match world.login
      case HydraFailed(status) =>
        assert result == Err(HydraError(challengeId, status));
        HydraErrorsFit(challengeId, status);
      case HydraAnswered(None) =>
        assert result == Err(HydraFailure(challengeId));
        HydraErrorsFit(challengeId, None);
      case HydraAnswered(Some(req)) =>
        if req.skip {
          assert result == LoginSkip(config, challengeId, req, world).result;
          SkipErrorFits(config, challengeId, req, world);
        } else {
          assert result == LoginStandard(config, challengeId, req, world).result;
          StandardErrorFits(config, challengeId, req, world);
        }
    }
  }

  lemma AcceptErrorsFit(challengeId: string, req: ConsentRequest, fetched: Profile, world: World)
    ensures var profile := ConsentProfile(challengeId, req, fetched, world);
            && (profile.Err? ==> Fits(challengeId, profile.error))
            && (Redirected(challengeId, world.redirect).Err? ==>
                  Fits(challengeId, Redirected(challengeId, world.redirect).error))
  {
  }

  lemma PathErrorsFit(config: Config, challengeId: string, req: ConsentRequest, world: World)
    ensures ResultFits(challengeId, ConsentStandard(config, challengeId, req, world))
    ensures ResultFits(challengeId, ConsentAutoAccept(config, challengeId, req, world))
  {
    var fetched := Fetch(world.platform, world.kratos, ExtractIdentityId(req));
    if ExtractIdentityId(req) == "" {
      RedirectErrorFits(challengeId, world.redirect);
    } else {
      AutoAcceptMatchesStandard(config, challengeId, req, world);
      if fetched.Ok? { AcceptErrorsFit(challengeId, req, fetched.value, world); }
    }
  }

  lemma ConsentErrorFits(config: Config, challenge: string, world: World)
    ensures ResultFits(TrimSpace(challenge), ResolveConsent(config, challenge, world))
  {
    var challengeId := TrimSpace(challenge);
    var result := ResolveConsent(config, challenge, world).result;
    if challengeId != "" {
      match world.consent
      case HydraFailed(status) =>
        assert result == Err(HydraError(challengeId, status));
        HydraErrorsFit(challengeId, status);
      case HydraAnswered(None) =>
        assert result == Err(HydraFailure(challengeId));
        HydraErrorsFit(challengeId, None);
      case HydraAnswered(Some(req)) =>
        if IsPreConsentClient(config, req) {
          assert result == ConsentAutoAccept(config, challengeId, req, world).result;
        } else {
          assert result == ConsentStandard(config, challengeId, req, world).result;
        }
        PathErrorsFit(config, challengeId, req, world);
    }
  }

  /** Whatever fails in any of the three flows, the error fits: its code, its status and the
      challenge it names. */
  lemma ErrorsFit(flow: Flow, config: Config, challenge: string, world: World)
    ensures ResultFits(TrimSpace(challenge), Resolve(flow, config, challenge, world))
  {
    match flow
    case Login => LoginErrorFits(config, challenge, world);
    case Consent => ConsentErrorFits(config, challenge, world);
    case Logout => RedirectErrorFits(TrimSpace(challenge), world.redirect);
  }
}
