/** The webhook Kratos calls after a login: resolve the actor, write it into the identity's
    public metadata (internal/webhook/handler.go). */
module Webhook {
  import opened Wrappers
  import opened Text
  import opened UuidText
  import opened Identity
  import IdentityResolver

  datatype WebhookError = WebhookError(status: int, code: string)

  /** validateMapping; unlike the consent path it does not trim first. */
  predicate IsValidMapping(actorId: string) {
    Parse(actorId).Some?
  }

  /** The webhook and the consent path accept the same actor ids as long as they come without
      white space at their ends, and the consent path then uses them as they are. */
  lemma ValidatorsAgree(actorId: string)
    requires Trimmed(actorId)
    ensures IsValidMapping(actorId) <==> ValidateMapping(Some(actorId)) == Ok(actorId)
    ensures !IsValidMapping(actorId) <==> ValidateMapping(Some(actorId)).Err?
  {
    assert TrimSpace(actorId) == actorId;
  }

  /** The canonical text the database lookup gives passes every later check unchanged. */
  lemma CanonicalIdPassesValidators(u: Uuid)
    ensures IsValidMapping(Print(u)) && ValidateMapping(Some(Print(u))) == Ok(Print(u))
    ensures StringPointer(Print(u)) == Some(Print(u))
  {
    ParsePrint(u);
    ValidatorsAgree(Print(u));
    assert TrimSpace(Print(u)) == Print(u);
  }

  /** resolveIdentity: the identity to patch and the actor id to write. `identityId` is None
      when the request does not decode. */
  function ResolveIdentity(identityId: Option<string>, actor: string -> Result<string, IdentityResolver.ResolveError>)
    : Result<(string, string), WebhookError>
  {
    if identityId.None? then Err(WebhookError(400, "bad_request"))
    else
      var id := TrimSpace(identityId.value);
      if id == "" then Err(WebhookError(400, "bad_request"))
      else
        match actor(id)
        case Err(NotFound) => Err(WebhookError(404, "identity_not_found"))
        case Err(_) => Err(WebhookError(500, "resolution_failed"))
        case Ok(actorId) =>
          if !IsValidMapping(actorId) then Err(WebhookError(500, "resolution_failed")) else Ok((id, actorId))
  }

  /** The value the JSON Patch "add" puts in the place of all public metadata (section 4.1 of
      RFC 6902). */
  function PatchedMetadata(actorId: string): Claims {
    map[ActorIdKey := Str(actorId), UserIdKey := Str(actorId)]
  }

  /** `after` is `before` with public metadata that holds the actor id under both keys and
      nothing else. */
  ghost predicate Patched(before: KratosIdentity, after: KratosIdentity, actorId: string) {
    && after.id == before.id && after.traits == before.traits && after.addresses == before.addresses
    && after.metadataPublic.Some?
    && var metadata := after.metadataPublic.value;
       && metadata.Keys == {ActorIdKey, UserIdKey}
       && metadata[ActorIdKey] == Str(actorId) && metadata[UserIdKey] == Str(actorId)
  }

  /** The problem with a request, before anything is patched. */
  ghost predicate RefusedAs(
    identityId: Option<string>, actor: string -> Result<string, IdentityResolver.ResolveError>, problem: WebhookError)
  {
    if identityId.None? || TrimSpace(identityId.value) == "" then problem == WebhookError(400, "bad_request")
    else
      var answer := actor(TrimSpace(identityId.value));
      if answer == Err(IdentityResolver.NotFound) then problem == WebhookError(404, "identity_not_found")
      else (answer.Err? || Parse(answer.value).None?) && problem == WebhookError(500, "resolution_failed")
  }

  /** What Kratos makes of a patch: it may refuse it, or apply it and fail to say so. */
  datatype PatchReply = Refused | AppliedUnheard | Applied

  /** Identities as Kratos stores them. */
  class KratosAdmin {
    var identities: map<string, KratosIdentity>

    constructor (identities: map<string, KratosIdentity>)
      ensures this.identities == identities
    {
      this.identities := identities;
    }

    /** The patch is applied when the identity exists and Kratos does not refuse it. */
    method PatchIdentity(id: string, metadata: Claims, reply: PatchReply) returns (ok: bool)
      modifies this
      ensures ok <==> id in old(identities) && reply.Applied?
      ensures identities == if id !in old(identities) || reply.Refused? then old(identities)
                            else old(identities)[id := old(identities)[id].(metadataPublic := Some(metadata))]
    {
      if id !in identities || reply.Refused? {
        return false;
      }
      identities := identities[id := identities[id].(metadataPublic := Some(metadata))];
      ok := reply.Applied?;
    }

    /** PostLogin: the problem it answers with, None standing for status 200. */
    method PostLogin(
      identityId: Option<string>, actor: string -> Result<string, IdentityResolver.ResolveError>, reply: PatchReply)
      returns (problem: Option<WebhookError>)
      modifies this
      ensures identities.Keys == old(identities).Keys
      ensures problem.Some? && problem.value.code != "patch_failed" ==>
                RefusedAs(identityId, actor, problem.value) && identities == old(identities)
      ensures problem.None? || problem.value.code == "patch_failed" ==>
                && identityId.Some? && TrimSpace(identityId.value) != ""
                && var id := TrimSpace(identityId.value);
                   && actor(id).Ok? && Parse(actor(id).value).Some?
                   && (problem.None? <==> id in identities && reply.Applied?)
                   && (problem.Some? ==> problem.value.status == 500)
                   && (forall other | other in identities && (other != id || reply.Refused?) ::
                         identities[other] == old(identities)[other])
                   && (id in identities && !reply.Refused? ==>
                         Patched(old(identities)[id], identities[id], actor(id).value))
    {
      var resolved := ResolveIdentity(identityId, actor);
      if resolved.Err? {
        return Some(resolved.error);
      }
      var (id, actorId) := resolved.value;
      var ok := PatchIdentity(id, PatchedMetadata(actorId), reply);
      if !ok {
        return Some(WebhookError(500, "patch_failed"));
      }
      problem := None;
    }
  }

  /** The patch wipes the rest of the public metadata: an identity that logs in loses its
      Matrix user id, and with it every later profile and token. */
  lemma PatchDropsMatrixUser(platform: Platform, identity: KratosIdentity, actorId: string)
    ensures var profile := BuildProfile(platform, Some(identity.(metadataPublic := Some(PatchedMetadata(actorId)))));
            profile.Ok? ==>
              && profile.value.matrixUserId == ""
              && MatrixUserIdKey !in IDTokenClaims(profile.value)
              && MatrixUserIdKey !in AccessTokenClaims(profile.value)
    ensures var before := BuildProfile(platform, Some(identity));
            var after := BuildProfile(platform, Some(identity.(metadataPublic := Some(PatchedMetadata(actorId)))));
            && (before.Ok? <==> after.Ok?)
            && (before.Ok? ==> (after == before <==> before.value.matrixUserId == ""))
  {
  }
}
