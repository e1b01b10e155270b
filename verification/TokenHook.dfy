/** Hydra's token hook (internal/server/token_hook_handler.go): the claims of the session are
    echoed, with the freshly resolved actor id put into both tokens. */
module TokenHook {
  import opened Wrappers
  import opened Identity
  import opened Refresh

  /** A decoded claims map; a field missing from the request is a nil map. */
  class ClaimsMap {
    var entries: Claims

    constructor ()
      ensures entries == map[]
    {
      entries := map[];
    }
  }

  function Entries(m: ClaimsMap?): Claims
    reads m
  {
    if m == null then map[] else m.entries
  }

  datatype HookRequest = HookRequest(
    accessToken: ClaimsMap?, idToken: ClaimsMap?, subject: string, grantedScopes: seq<string>)

  /** What the resolver comes back with; the handler allows for errors it does not know. */
  datatype ResolverAnswer = Found(actorId: string) | TemporarilyUnavailable | UnexpectedError

  function FromRefresh(answer: Answer): ResolverAnswer {
    if answer.Resolved? then Found(answer.actorId) else TemporarilyUnavailable
  }

  datatype HookReply =
    | Refused(status: int, error: string)
    | Issued(accessToken: ClaimsMap, idToken: ClaimsMap)

  /** cloneClaims: a new map with the same entries, also for a nil map. */
  method CloneClaims(src: ClaimsMap?) returns (out: ClaimsMap)
    ensures fresh(out) && out.entries == Entries(src)
  {
    out := new ClaimsMap();
    if src == null {
      return;
    }
    var keys := src.entries.Keys;
    while keys != {}
      invariant keys <= src.entries.Keys
      invariant fresh(out) && out.entries == map k | k in src.entries && k !in keys :: src.entries[k]
      decreases keys
    {
      var key :| key in keys;
      out.entries := out.entries[key := src.entries[key]];
      keys := keys - {key};
    }
    assert out.entries == src.entries;
  }

  /** The claims of the session's two tokens. */
  datatype Tokens = Tokens(access: Claims, id: Claims)

  function WithActor(tokens: Tokens, actorId: string): Tokens {
    if actorId == "" then tokens
    else Tokens(tokens.access[ActorIdKey := Str(actorId)], tokens.id[ActorIdKey := Str(actorId)])
  }

  /** `after` holds this actor id, and for the rest what `before` holds. */
  ghost predicate OnlyActorSet(before: Claims, after: Claims, actorId: string) {
    && ActorIdKey in after && after[ActorIdKey] == Str(actorId)
    && (forall k | k != ActorIdKey :: k in after <==> k in before)
    && (forall k | k in before && k != ActorIdKey :: after[k] == before[k])
  }

  /** Both tokens hold this actor id and for the rest what they held; without an actor id they
      are what they were. */
  ghost predicate Refreshed(before: Tokens, after: Tokens, actorId: string) {
    if actorId == "" then after == before
    else OnlyActorSet(before.access, after.access, actorId) && OnlyActorSet(before.id, after.id, actorId)
  }

  lemma WithActorRefreshes(tokens: Tokens, actorId: string)
    ensures Refreshed(tokens, WithActor(tokens, actorId), actorId)
  {
  }

  /** The resolver is asked for the session's subject and the granted scopes. The maps of the
      request are only read: what comes out are other maps. */
  method ServeHTTP(isPost: bool, decoded: Option<HookRequest>, resolve: (string, seq<string>) -> ResolverAnswer)
    returns (reply: HookReply)
    ensures !isPost ==> reply == Refused(405, "method not allowed")
    ensures isPost && decoded.None? ==> reply == Refused(400, "invalid_request")
    ensures isPost && decoded.Some? ==>
      match resolve(decoded.value.subject, decoded.value.grantedScopes)
      case TemporarilyUnavailable => reply == Refused(403, "temporarily_unavailable")
      case UnexpectedError => reply == Refused(500, "internal_error")
      case Found(actorId) =>
        && reply.Issued? && fresh(reply.accessToken) && fresh(reply.idToken) && reply.accessToken != reply.idToken
        && Refreshed(Tokens(Entries(decoded.value.accessToken), Entries(decoded.value.idToken)),
                     Tokens(reply.accessToken.entries, reply.idToken.entries), actorId)
  {
    if !isPost {
      return Refused(405, "method not allowed");
    }
    if decoded.None? {
      return Refused(400, "invalid_request");
    }
    var accessTokenClaims := CloneClaims(decoded.value.accessToken);
    var idTokenClaims := CloneClaims(decoded.value.idToken);
    match resolve(decoded.value.subject, decoded.value.grantedScopes) {
      case TemporarilyUnavailable => return Refused(403, "temporarily_unavailable");
      case UnexpectedError => return Refused(500, "internal_error");
      case Found(actorId) =>
        if actorId != "" {
          accessTokenClaims.entries := accessTokenClaims.entries[ActorIdKey := Str(actorId)];
          idTokenClaims.entries := idTokenClaims.entries[ActorIdKey := Str(actorId)];
        }
        reply := Issued(accessTokenClaims, idTokenClaims);
    }
  }

  // ---------------------------------------------------------------------------------------
  // The reply on the wire, and what Hydra makes of it
  // ---------------------------------------------------------------------------------------

  /** The encoded session: an empty map is left out. */
  datatype Body = Body(access: Option<Claims>, id: Option<Claims>)

  function OmitEmpty(claims: Claims): Option<Claims> {
    if claims == map[] then None else Some(claims)
  }

  function Encode(tokens: Tokens): Body {
    Body(OmitEmpty(tokens.access), OmitEmpty(tokens.id))
  }

  /** Hydra replaces what the reply has and keeps what it leaves out. */
  function ApplyBody(session: Tokens, body: Body): Tokens {
    Tokens(if body.access.Some? then body.access.value else session.access,
           if body.id.Some? then body.id.value else session.id)
  }

  /** The body a call for `echoed` is answered with; None when it is refused. */
  function HookBody(echoed: Tokens, answer: ResolverAnswer): Option<Body> {
    if answer.Found? then Some(Encode(WithActor(echoed, answer.actorId))) else None
  }

  function AfterHook(session: Tokens, answer: ResolverAnswer): Tokens {
    var body := HookBody(session, answer);
    if body.Some? then ApplyBody(session, body.value) else session
  }

  function AfterHooks(session: Tokens, answers: seq<ResolverAnswer>): Tokens {
    if answers == [] then session else AfterHook(AfterHooks(session, answers[..|answers| - 1]), answers[|answers| - 1])
  }

  /** The actor id an answer gives; empty when it gives none. */
  function Given(answer: ResolverAnswer): string {
    if answer.Found? then answer.actorId else ""
  }

  /** The newest actor id among the answers; empty when there is none. */
  function LatestActor(answers: seq<ResolverAnswer>): (actorId: string)
    ensures actorId == "" ==> forall i | 0 <= i < |answers| :: Given(answers[i]) == ""
    ensures actorId != "" ==>
              exists n | 0 <= n < |answers| ::
                Given(answers[n]) == actorId && forall i | n < i < |answers| :: Given(answers[i]) == ""
  {
    if answers == [] then ""
    else
      var init, last := answers[..|answers| - 1], answers[|answers| - 1];
      if Given(last) != "" then last.actorId else LatestActor(init)
  }

  /** After any number of token issuances a session is what consent made it, save that both
      tokens hold the newest resolved actor id: the echo loses nothing, failed and empty
      resolutions change nothing. */
  lemma {:induction false} HooksOnlyRefreshActor(session: Tokens, answers: seq<ResolverAnswer>)
    ensures Refreshed(session, AfterHooks(session, answers), LatestActor(answers))
  {
    if answers != [] {
      var init, last := answers[..|answers| - 1], answers[|answers| - 1];
      HooksOnlyRefreshActor(session, init);
      HookRefreshes(AfterHooks(session, init), last);
    }
  }

  /** What one answered call leaves of a session it echoes. */
  lemma HookRefreshes(session: Tokens, answer: ResolverAnswer)
    ensures Refreshed(session, AfterHook(session, answer), Given(answer))
  {
    if answer.Found? {
      WithActorRefreshes(session, answer.actorId);
      OmissionIsHarmless(session, WithActor(session, answer.actorId));
    }
  }

  /** Leaving an empty token out of the reply is harmless exactly while Hydra's own is empty
      too, as it is when the session is the one the request echoed. */
  lemma OmissionIsHarmless(session: Tokens, echoed: Tokens)
    ensures ApplyBody(session, Encode(echoed)) == echoed <==>
            (echoed.access != map[] || session.access == map[]) && (echoed.id != map[] || session.id == map[])
  {
  }
}
