/** What consents put into tokens, and how the two consent paths compare. */
module ConsentTheorems {
  import opened Wrappers
  import opened Text
  import opened UuidText
  import opened Identity
  import opened Challenge

  // ---------------------------------------------------------------------------------------
  // The two consent paths
  // ---------------------------------------------------------------------------------------

  function WithoutAudit(calls: seq<Call>): seq<Call> {
    if calls == [] then [] else (if calls[0].AuditAutoAccept? then [] else [calls[0]]) + WithoutAudit(calls[1..])
  }

  /** The same calls with the same payloads, audit aside, and the same result. */
  ghost predicate SameButForAudit(a: Outcome, b: Outcome) {
    WithoutAudit(a.calls) == b.calls && a.result == b.result
  }

  lemma SameAfter(c: Call, a: Outcome, b: Outcome)
    requires SameButForAudit(a, b) && !c.AuditAutoAccept?
    ensures SameButForAudit(After(c, a), After(c, b))
  {
    assert ([c] + a.calls)[1..] == a.calls;
  }

  lemma SameAccepted(config: Config, challengeId: string, req: ConsentRequest, profile: Profile, world: World)
    ensures var granted := WithRemember(WithGrants(NEW_ACCEPT_CONSENT, req), config.rememberFor);
            var payload := granted.(session := Some(SessionOf(profile))).(context := Some(ConsentContext(profile)));
            SameButForAudit(AutoAccepted(challengeId, req, payload, world),
                            StandardAccepted(config, challengeId, req, profile, world))
  {
    var granted := WithRemember(WithGrants(NEW_ACCEPT_CONSENT, req), config.rememberFor);
    var payload := granted.(session := Some(SessionOf(profile))).(context := Some(ConsentContext(profile)));
    var auto := AutoAccepted(challengeId, req, payload, world);
    var accept := AcceptConsentRequest(challengeId, payload);
    var after := auto.calls[1..];
    assert WithoutAudit(after) == [] by {
      assert after != [] ==> after[0].AuditAutoAccept? && after[1..] == [];
    }
    assert auto.calls[0] == accept;
  }

  /** The path without the consent screen does what the standard path does, the audit event
      aside, exactly when the request names an identity. Without one the standard path fails
      before any accept call while this one accepts, without a session. */
  lemma AutoAcceptMatchesStandard(config: Config, challengeId: string, req: ConsentRequest, world: World)
    ensures SameButForAudit(ConsentAutoAccept(config, challengeId, req, world),
                            ConsentStandard(config, challengeId, req, world))
            <==> ExtractIdentityId(req) != ""
  {
    var id := ExtractIdentityId(req);
    if id == "" {
      var auto := ConsentAutoAccept(config, challengeId, req, world);
      assert auto.calls[0].AcceptConsentRequest?;
      assert WithoutAudit(auto.calls) != [];
    } else {
      var fetched := Fetch(world.platform, world.kratos, id);
      if fetched.Ok? {
        var profile := ConsentProfile(challengeId, req, fetched.value, world);
        if profile.Ok? {
          SameAccepted(config, challengeId, req, profile.value, world);
          var granted := WithRemember(WithGrants(NEW_ACCEPT_CONSENT, req), config.rememberFor);
          var payload := granted.(session := Some(SessionOf(profile.value)))
                         .(context := Some(ConsentContext(profile.value)));
          var auto := AutoAccepted(challengeId, req, payload, world);
          var standard := StandardAccepted(config, challengeId, req, profile.value, world);
          SameAfter(ResolveActor(fetched.value.id), auto, standard);
          SameAfter(FetchIdentity(id), After(ResolveActor(fetched.value.id), auto),
                    After(ResolveActor(fetched.value.id), standard));
          SameAfter(FetchIdentity(id), auto, standard);
        } else {
          SameAfter(ResolveActor(fetched.value.id), Fail(profile.error), Fail(profile.error));
          SameAfter(FetchIdentity(id), After(ResolveActor(fetched.value.id), Fail(profile.error)),
                    After(ResolveActor(fetched.value.id), Fail(profile.error)));
        }
      } else {
        var failed := Fail(IdentityError(challengeId, fetched.error));
        SameAfter(FetchIdentity(id), failed, failed);
      }
    }
  }

  // ---------------------------------------------------------------------------------------
  // The claims of an accepted consent
  // ---------------------------------------------------------------------------------------

  /** What a consent accepts with. */
  function PayloadSent(calls: seq<Call>): Option<AcceptConsent> {
    if calls == [] then None
    else if calls[0].AcceptConsentRequest? then Some(calls[0].consent)
    else PayloadSent(calls[1..])
  }

  /** The session a consent hands to Hydra. */
  function SessionSent(calls: seq<Call>): Option<Session> {
    if PayloadSent(calls).Some? then PayloadSent(calls).value.session else None
  }

  function ActorClaim(claims: Claims): Option<Any> {
    if ActorIdKey in claims then Some(claims[ActorIdKey]) else None
  }

  /** Kratos profiles come without an actor id. */
  lemma FetchedProfilesHaveNoActor(platform: Platform, kratos: string -> KratosReply, id: string)
    ensures var r := Fetch(platform, kratos, id);
            r.Ok? ==> r.value.tokenClaims.Some? && r.value.tokenClaims.value.actorId == None
  {
  }

  /** The profile behind a session: its actor id is the looked-up one, trimmed and checked,
      when `alkemio` is requested, and none otherwise. */
  lemma ConsentProfileActor(challengeId: string, req: ConsentRequest, world: World, id: string)
    requires var fetched := Fetch(world.platform, world.kratos, id);
             fetched.Ok? && ConsentProfile(challengeId, req, fetched.value, world).Ok?
    ensures var fetched := Fetch(world.platform, world.kratos, id).value;
            var profile := ConsentProfile(challengeId, req, fetched, world).value;
            && profile.id == fetched.id && profile.tokenClaims.Some?
            && if "alkemio" in req.requestedScope then
                 && world.actor(fetched.id).Ok?
                 && var actor := TrimSpace(world.actor(fetched.id).value);
                    IsUuid(actor) && profile.tokenClaims.value.actorId == Some(actor)
               else profile.tokenClaims.value.actorId == None
  {
    FetchedProfilesHaveNoActor(world.platform, world.kratos, id);
    var fetched := Fetch(world.platform, world.kratos, id).value;
    if "alkemio" in req.requestedScope {
      var actor := TrimSpace(world.actor(fetched.id).value);
      assert TrimSpace(actor) == actor;
    }
  }

  lemma PayloadSentAfter(c: Call, rest: Outcome)
    requires !c.AcceptConsentRequest?
    ensures PayloadSent(After(c, rest).calls) == PayloadSent(rest.calls)
  {
    assert ([c] + rest.calls)[1..] == rest.calls;
  }

  /** The payload of a consent for a profile, put together from scratch. */
  function ExpectedPayload(config: Config, req: ConsentRequest, profile: Option<Profile>): AcceptConsent {
    AcceptConsent(
      if req.requestedScope == [] then None else Some(req.requestedScope),
      if req.requestedAudience == [] then None else Some(req.requestedAudience),
      Some(true), Some(config.rememberFor),
      if profile.Some? then Some(ConsentContext(profile.value)) else None,
      if profile.Some? then Some(Session(IDTokenClaims(profile.value), AccessTokenClaims(profile.value))) else None)
  }

  /** The profile a consent can be given for, if every lookup it needs succeeds. */
  function ConsentableProfile(challengeId: string, req: ConsentRequest, world: World): Option<Profile> {
    var id := ExtractIdentityId(req);
    if id == "" then None
    else
      var fetched := Fetch(world.platform, world.kratos, id);
      if fetched.Err? then None
      else
        var profile := ConsentProfile(challengeId, req, fetched.value, world);
        if profile.Err? then None else Some(profile.value)
  }

  /** A consent grants exactly what was asked for, remembers it, and hands over the context and
      the claims of the one profile; only the path without the consent screen accepts without
      a profile, and only when the request names no identity. */
  lemma ConsentGrantsWhatWasAsked(config: Config, challengeId: string, req: ConsentRequest, world: World)
    ensures var profile := ConsentableProfile(challengeId, req, world);
            var expected := Some(ExpectedPayload(config, req, profile));
            && PayloadSent(ConsentStandard(config, challengeId, req, world).calls)
               == (if profile.Some? then expected else None)
            && PayloadSent(ConsentAutoAccept(config, challengeId, req, world).calls)
               == (if profile.Some? || ExtractIdentityId(req) == "" then expected else None)
  {
    var id := ExtractIdentityId(req);
    var fetched := Fetch(world.platform, world.kratos, id);
    if id != "" {
      if fetched.Err? {
        PayloadSentAfter(FetchIdentity(id), Fail(IdentityError(challengeId, fetched.error)));
      } else {
        var profile := ConsentProfile(challengeId, req, fetched.value, world);
        var granted := WithRemember(WithGrants(NEW_ACCEPT_CONSENT, req), config.rememberFor);
        var standard := if profile.Err? then Fail(profile.error)
                        else StandardAccepted(config, challengeId, req, profile.value, world);
        var auto := if profile.Err? then Fail(profile.error)
                    else
                      var payload := granted.(session := Some(SessionOf(profile.value)))
                                            .(context := Some(ConsentContext(profile.value)));
                      AutoAccepted(challengeId, req, payload, world);
        PayloadSentThroughLookups(id, fetched.value.id, standard);
        PayloadSentThroughLookups(id, fetched.value.id, auto);
      }
    }
  }

  lemma PayloadSentThroughLookups(id: string, profileId: string, rest: Outcome)
    ensures PayloadSent(After(FetchIdentity(id), rest).calls) == PayloadSent(rest.calls)
    ensures PayloadSent(After(FetchIdentity(id), After(ResolveActor(profileId), rest)).calls) == PayloadSent(rest.calls)
  {
    PayloadSentAfter(FetchIdentity(id), rest);
    PayloadSentAfter(ResolveActor(profileId), rest);
    PayloadSentAfter(FetchIdentity(id), After(ResolveActor(profileId), rest));
  }

  function CountAudits(calls: seq<Call>): nat {
    if calls == [] then 0 else (if calls[0].AuditAutoAccept? then 1 else 0) + CountAudits(calls[1..])
  }

  lemma CountAuditsAfter(c: Call, rest: Outcome)
    requires !c.AuditAutoAccept?
    ensures CountAudits(After(c, rest).calls) == CountAudits(rest.calls)
  {
    assert ([c] + rest.calls)[1..] == rest.calls;
  }

  lemma CountAuditsThroughLookups(id: string, profileId: string, rest: Outcome)
    ensures CountAudits(After(FetchIdentity(id), rest).calls) == CountAudits(rest.calls)
    ensures CountAudits(After(FetchIdentity(id), After(ResolveActor(profileId), rest)).calls) == CountAudits(rest.calls)
  {
    CountAuditsAfter(FetchIdentity(id), rest);
    CountAuditsAfter(ResolveActor(profileId), rest);
    CountAuditsAfter(FetchIdentity(id), After(ResolveActor(profileId), rest));
  }

  lemma AcceptIsAudited(challengeId: string, req: ConsentRequest, payload: AcceptConsent, world: World)
    ensures var o := AutoAccepted(challengeId, req, payload, world);
            CountAudits(o.calls) == if world.redirect.HydraAnswered? then 1 else 0
  {
    var o := AutoAccepted(challengeId, req, payload, world);
    var rest := o.calls[1..];
    assert CountAudits(rest) == |rest| by {
      assert rest != [] ==> rest[0].AuditAutoAccept? && rest[1..] == [];
    }
    assert !o.calls[0].AuditAutoAccept?;
  }

  /** The audit event appears exactly when a payload was sent and Hydra took it. It reports
      success at that point, also when the resolution then fails for want of a redirect. */
  lemma AuditFollowsAcceptNotResolution(config: Config, challengeId: string, req: ConsentRequest, world: World)
    ensures var o := ConsentAutoAccept(config, challengeId, req, world);
            var audited := PayloadSent(o.calls).Some? && world.redirect.HydraAnswered?;
            && CountAudits(o.calls) == (if audited then 1 else 0)
            && (audited && o.result.Err? <==>
                  audited && (world.redirect.body.None? || TrimSpace(world.redirect.body.value) == ""))
  {
    var id := ExtractIdentityId(req);
    var granted := WithRemember(WithGrants(NEW_ACCEPT_CONSENT, req), config.rememberFor);
    if id == "" {
      AcceptIsAudited(challengeId, req, granted, world);
    } else {
      var fetched := Fetch(world.platform, world.kratos, id);
      if fetched.Err? {
        CountAuditsAfter(FetchIdentity(id), Fail(IdentityError(challengeId, fetched.error)));
        PayloadSentAfter(FetchIdentity(id), Fail(IdentityError(challengeId, fetched.error)));
      } else {
        var profile := ConsentProfile(challengeId, req, fetched.value, world);
        var rest := Fail(HydraFailure(challengeId));
        if profile.Err? {
          rest := Fail(profile.error);
        } else {
          var payload := granted.(session := Some(SessionOf(profile.value)))
                         .(context := Some(ConsentContext(profile.value)));
          AcceptIsAudited(challengeId, req, payload, world);
          rest := AutoAccepted(challengeId, req, payload, world);
        }
        CountAuditsThroughLookups(id, fetched.value.id, rest);
        PayloadSentThroughLookups(id, fetched.value.id, rest);
      }
    }
  }

  /** Whatever a consent sends carries, in both tokens, one and the same checked actor id of
      the fetched identity when `alkemio` is requested, and none in either otherwise. */
  lemma ConsentTokensCarryActor(config: Config, challengeId: string, req: ConsentRequest, world: World)
    ensures var sent := SessionSent(ConsentStandard(config, challengeId, req, world).calls);
            sent.Some? ==>
              var fetched := Fetch(world.platform, world.kratos, ExtractIdentityId(req));
              && fetched.Ok?
              && ActorClaim(sent.value.idToken) == ActorClaim(sent.value.accessToken)
              && if "alkemio" in req.requestedScope then
                   && world.actor(fetched.value.id).Ok?
                   && IsUuid(TrimSpace(world.actor(fetched.value.id).value))
                   && ActorClaim(sent.value.accessToken) == Some(Str(TrimSpace(world.actor(fetched.value.id).value)))
                 else ActorClaim(sent.value.accessToken) == None
    ensures SessionSent(ConsentAutoAccept(config, challengeId, req, world).calls)
         == SessionSent(ConsentStandard(config, challengeId, req, world).calls)
  {
    ConsentGrantsWhatWasAsked(config, challengeId, req, world);
    if ConsentableProfile(challengeId, req, world).Some? {
      var id := ExtractIdentityId(req);
      var fetched := Fetch(world.platform, world.kratos, id);
      ConsentProfileActor(challengeId, req, world, id);
      ActorIdInBothTokens(ConsentProfile(challengeId, req, fetched.value, world).value);
    }
  }

  /** Only a missing actor makes the part after the fetch answer 403. */
  lemma ForbiddenAfterFetch(challengeId: string, req: ConsentRequest, fetched: Profile, world: World)
    ensures var profile := ConsentProfile(challengeId, req, fetched, world);
            var r := if profile.Err? then Err(profile.error) else Redirected(challengeId, world.redirect);
            (r.Err? && r.error.status == 403) <==>
              "alkemio" in req.requestedScope && world.actor(fetched.id).Err? && world.actor(fetched.id).error.NotFound?
  {
    assert Redirected(challengeId, world.redirect).Err? ==> Redirected(challengeId, world.redirect).error.status != 403;
  }

  /** A consent is refused with 403 exactly when `alkemio` is asked for and the fetched
      identity has no actor, on both paths. */
  lemma ForbiddenMeansNoActor(config: Config, challengeId: string, req: ConsentRequest, world: World)
    ensures var standard := ConsentStandard(config, challengeId, req, world).result;
            var auto := ConsentAutoAccept(config, challengeId, req, world).result;
            var noActor :=
              && ExtractIdentityId(req) != ""
              && var fetched := Fetch(world.platform, world.kratos, ExtractIdentityId(req));
                 fetched.Ok? && "alkemio" in req.requestedScope
                 && world.actor(fetched.value.id).Err? && world.actor(fetched.value.id).error.NotFound?;
            && (standard.Err? && standard.error.status == 403 <==> noActor)
            && (auto.Err? && auto.error.status == 403 <==> noActor)
  {
    StandardForbidden(config, challengeId, req, world);
    if ExtractIdentityId(req) != "" {
      AutoAcceptMatchesStandard(config, challengeId, req, world);
    } else {
      assert ConsentAutoAccept(config, challengeId, req, world).result == Redirected(challengeId, world.redirect);
    }
  }

  lemma StandardForbidden(config: Config, challengeId: string, req: ConsentRequest, world: World)
    ensures var r := ConsentStandard(config, challengeId, req, world).result;
            (r.Err? && r.error.status == 403) <==>
              && ExtractIdentityId(req) != ""
              && var fetched := Fetch(world.platform, world.kratos, ExtractIdentityId(req));
                 fetched.Ok? && "alkemio" in req.requestedScope
                 && world.actor(fetched.value.id).Err? && world.actor(fetched.value.id).error.NotFound?
  {
    var fetched := Fetch(world.platform, world.kratos, ExtractIdentityId(req));
    if fetched.Ok? {
      ForbiddenAfterFetch(challengeId, req, fetched.value, world);
    }
  }
}
