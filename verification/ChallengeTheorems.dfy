/** What holds of challenge resolutions whatever Hydra, Kratos, the identity hint and the
    actor lookup answer. */
module ChallengeTheorems {
  import opened Wrappers
  import opened Text
  import opened Identity
  import opened Challenge

  // ---------------------------------------------------------------------------------------
  // One accept call, and only at the end
  // ---------------------------------------------------------------------------------------

  predicate IsAccept(c: Call) {
    c.AcceptLoginRequest? || c.AcceptConsentRequest? || c.AcceptLogoutRequest?
  }

  function CountAccepts(calls: seq<Call>): nat {
    if calls == [] then 0 else (if IsAccept(calls[0]) then 1 else 0) + CountAccepts(calls[1..])
  }

  /** The call succeeded with the answer the world gives it. */
  predicate Succeeded(world: World, c: Call) {
    match c
    case GetLogin(_) => world.login.HydraAnswered? && world.login.body.Some?
    case GetConsent(_) => world.consent.HydraAnswered? && world.consent.body.Some?
    case GetLogout(_) => world.logout.HydraAnswered?
    case AskHint => world.hint.Some? && world.hint.value.Hint? && TrimSpace(world.hint.value.identityId) != ""
    case FetchIdentity(id) => Fetch(world.platform, world.kratos, id).Ok?
    case ResolveActor(id) => world.actor(id).Ok? && ValidateMapping(Some(world.actor(id).value)).Ok?
    case _ => true
  }

  /** Every call before the accept call succeeded; after it comes at most the audit event. */
  predicate AcceptsLast(world: World, calls: seq<Call>) {
    && calls != []
    && if IsAccept(calls[0]) then |calls| == 1 || (|calls| == 2 && calls[1].AuditAutoAccept?)
       else Succeeded(world, calls[0]) && AcceptsLast(world, calls[1..])
  }

  /** The resolution accepts nothing and fails, or accepts once, last, and answers with the
      redirect of that call. */
  ghost predicate Disciplined(challengeId: string, world: World, o: Outcome) {
    if CountAccepts(o.calls) == 0 then o.result.Err?
    else CountAccepts(o.calls) == 1 && AcceptsLast(world, o.calls)
         && o.result == Redirected(challengeId, world.redirect)
  }

  lemma DisciplinedAfter(challengeId: string, world: World, c: Call, rest: Outcome)
    requires Disciplined(challengeId, world, rest)
    requires !IsAccept(c) && (CountAccepts(rest.calls) > 0 ==> Succeeded(world, c))
    ensures Disciplined(challengeId, world, After(c, rest))
    ensures CountAccepts(After(c, rest).calls) == CountAccepts(rest.calls)
  {
    assert ([c] + rest.calls)[1..] == rest.calls;
  }

  lemma DisciplinedAccept(challengeId: string, world: World, c: Call)
    requires IsAccept(c)
    ensures Disciplined(challengeId, world, Outcome([c], Redirected(challengeId, world.redirect)))
  {
  }

  lemma DisciplinedAutoAccept(challengeId: string, req: ConsentRequest, payload: AcceptConsent, world: World)
    ensures Disciplined(challengeId, world, AutoAccepted(challengeId, req, payload, world))
  {
    var o := AutoAccepted(challengeId, req, payload, world);
    assert CountAccepts(o.calls[1..]) == 0;
  }

  lemma DisciplinedSkip(config: Config, challengeId: string, req: LoginRequest, world: World)
    ensures Disciplined(challengeId, world, LoginSkip(config, challengeId, req, world))
  {
    var (asks, subject) := SkipSubject(challengeId, req, world.hint);
    if subject.Ok? {
      var accepted := AcceptedLogin(challengeId, SkipPayload(config, req, subject.value), world);
      DisciplinedAccept(challengeId, world, accepted.calls[0]);
      if asks {
        DisciplinedAfter(challengeId, world, AskHint, accepted);
      }
    }
  }

  lemma DisciplinedFetched(config: Config, challengeId: string, identityId: string, world: World)
    ensures Disciplined(challengeId, world, LoginFetched(config, challengeId, identityId, world))
  {
    var profile := Fetch(world.platform, world.kratos, identityId);
    if profile.Ok? {
      var accepted := AcceptedLogin(challengeId, StandardPayload(config, profile.value), world);
      DisciplinedAccept(challengeId, world, accepted.calls[0]);
      DisciplinedAfter(challengeId, world, FetchIdentity(identityId), accepted);
    }
  }

  lemma DisciplinedStandard(config: Config, challengeId: string, req: LoginRequest, world: World)
    ensures Disciplined(challengeId, world, LoginStandard(config, challengeId, req, world))
  {
    var (asks, identity) := StandardIdentity(challengeId, req, world.hint);
    if identity.Ok? {
      DisciplinedFetched(config, challengeId, identity.value, world);
      if asks {
        DisciplinedAfter(challengeId, world, AskHint, LoginFetched(config, challengeId, identity.value, world));
      }
    }
  }

  lemma DisciplinedLogin(config: Config, challenge: string, world: World)
    ensures Disciplined(TrimSpace(challenge), world, ResolveLogin(config, challenge, world))
  {
    var id := TrimSpace(challenge);
    if id != "" && world.login.HydraAnswered? && world.login.body.Some? {
      var req := world.login.body.value;
      DisciplinedSkip(config, id, req, world);
      DisciplinedStandard(config, id, req, world);
      DisciplinedAfter(id, world, GetLogin(id),
                       if req.skip then LoginSkip(config, id, req, world) else LoginStandard(config, id, req, world));
    }
  }

  lemma DisciplinedProfile(challengeId: string, req: ConsentRequest, world: World, rest: Outcome)
    requires Disciplined(challengeId, world, rest) && ExtractIdentityId(req) != ""
    requires var fetched := Fetch(world.platform, world.kratos, ExtractIdentityId(req));
             fetched.Ok? &&
             (ConsentProfile(challengeId, req, fetched.value, world).Err? ==> CountAccepts(rest.calls) == 0)
    ensures var id := ExtractIdentityId(req);
            var fetched := Fetch(world.platform, world.kratos, id).value;
            Disciplined(challengeId, world,
              After(FetchIdentity(id),
                    if "alkemio" in req.requestedScope then After(ResolveActor(fetched.id), rest) else rest))
  {
    var id := ExtractIdentityId(req);
    var fetched := Fetch(world.platform, world.kratos, id).value;
    if "alkemio" in req.requestedScope {
      DisciplinedAfter(challengeId, world, ResolveActor(fetched.id), rest);
      DisciplinedAfter(challengeId, world, FetchIdentity(id), After(ResolveActor(fetched.id), rest));
    } else {
      DisciplinedAfter(challengeId, world, FetchIdentity(id), rest);
    }
  }

  lemma DisciplinedStandardConsent(config: Config, challengeId: string, req: ConsentRequest, world: World)
    ensures Disciplined(challengeId, world, ConsentStandard(config, challengeId, req, world))
  {
    var fetched := Fetch(world.platform, world.kratos, ExtractIdentityId(req));
    if ExtractIdentityId(req) != "" && fetched.Ok? {
      var profile := ConsentProfile(challengeId, req, fetched.value, world);
      var rest := if profile.Err? then Fail(profile.error)
                  else StandardAccepted(config, challengeId, req, profile.value, world);
      if profile.Ok? { DisciplinedAccept(challengeId, world, rest.calls[0]); }
      DisciplinedProfile(challengeId, req, world, rest);
    }
  }

  lemma DisciplinedPreConsent(config: Config, challengeId: string, req: ConsentRequest, world: World)
    ensures Disciplined(challengeId, world, ConsentAutoAccept(config, challengeId, req, world))
  {
    var granted := WithRemember(WithGrants(NEW_ACCEPT_CONSENT, req), config.rememberFor);
    var fetched := Fetch(world.platform, world.kratos, ExtractIdentityId(req));
    if ExtractIdentityId(req) == "" {
      DisciplinedAutoAccept(challengeId, req, granted, world);
    } else if fetched.Ok? {
      var profile := ConsentProfile(challengeId, req, fetched.value, world);
      if profile.Ok? {
        var payload := granted.(session := Some(SessionOf(profile.value)))
                       .(context := Some(ConsentContext(profile.value)));
        DisciplinedAutoAccept(challengeId, req, payload, world);
        DisciplinedProfile(challengeId, req, world, AutoAccepted(challengeId, req, payload, world));
      } else {
        DisciplinedProfile(challengeId, req, world, Fail(profile.error));
      }
    }
  }

  lemma DisciplinedConsent(config: Config, challenge: string, world: World)
    ensures Disciplined(TrimSpace(challenge), world, ResolveConsent(config, challenge, world))
  {
    var id := TrimSpace(challenge);
    if id != "" && world.consent.HydraAnswered? && world.consent.body.Some? {
      var req := world.consent.body.value;
      DisciplinedStandardConsent(config, id, req, world);
      DisciplinedPreConsent(config, id, req, world);
      DisciplinedAfter(id, world, GetConsent(id),
                       if IsPreConsentClient(config, req) then ConsentAutoAccept(config, id, req, world)
                       else ConsentStandard(config, id, req, world));
    }
  }

  lemma DisciplinedLogout(challenge: string, world: World)
    ensures Disciplined(TrimSpace(challenge), world, ResolveLogout(challenge, world))
  {
    var id := TrimSpace(challenge);
    if id != "" && world.logout.HydraAnswered? {
      DisciplinedAccept(id, world, AcceptLogoutRequest(id));
      DisciplinedAfter(id, world, GetLogout(id), Outcome([AcceptLogoutRequest(id)], Redirected(id, world.redirect)));
    }
  }

  /** No resolution accepts a challenge more than once, or before every other call it makes
      has succeeded; without the accept call the resolution fails, and with it the result is
      the redirect Hydra answers with, trimmed, provided there is one. */
  lemma AcceptsOnceAndLast(flow: Flow, config: Config, challenge: string, world: World)
    ensures Disciplined(TrimSpace(challenge), world, Resolve(flow, config, challenge, world))
  {
    match flow
    case Login => DisciplinedLogin(config, challenge, world);
    case Consent => DisciplinedConsent(config, challenge, world);
    case Logout => DisciplinedLogout(challenge, world);
  }
}
