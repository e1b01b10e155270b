/** Kratos identities, the profiles made from them, and the enhanced claims a profile carries
    into tokens (internal/challenge/identity_mapper.go and internal/challenge/model.go). */
module Identity {
  import opened Wrappers
  import opened Text
  import opened UuidText

  /** The object keys the program reads or writes, and any other key. */
  datatype Key =
    | EmailKey | DisplayNameKey | MatrixUserIdKey | IdentityIdKey | TraitsKey | NameKey | FirstKey | LastKey
    | GivenNameKey | FamilyNameKey | EmailVerifiedKey | AcceptedTermsKey | ActorIdKey | UserIdKey
    | OtherKey(text: string)

  /** A Go `any` holding decoded JSON. `printed` is what fmt.Sprint makes of a value that is
      neither a string nor a boolean. */
  datatype Any =
    | Str(text: string)
    | Flag(flag: bool)
    | Object(fields: map<Key, Any>, printed: string)
    | Other(printed: string)

  type Claims = map<Key, Any>

  /** fmt.Sprint. */
  function Sprint(v: Any): string {
    match v
    case Str(text) => text
    case Flag(flag) => if flag then "true" else "false"
    case Object(_, printed) => printed
    case Other(printed) => printed
  }

  datatype Address = Address(via: string, verified: bool)

  /** `traits` need not be an object. */
  datatype KratosIdentity = KratosIdentity(
    id: string, traits: Any, metadataPublic: Option<Claims>, addresses: seq<Address>)

  datatype TokenClaims = TokenClaims(
    givenName: Option<string>, familyName: Option<string>, emailVerified: Option<bool>, acceptedTerms: Option<bool>,
    actorId: Option<string>)
  {
    predicate IsEmpty() {
      givenName.None? && familyName.None? && emailVerified.None? && acceptedTerms.None? && actorId.None?
    }
  }

  const NO_CLAIMS := TokenClaims(None, None, None, None, None)

  datatype Profile = Profile(
    id: string, email: string, displayName: string, matrixUserId: string, traits: Claims,
    tokenClaims: Option<TokenClaims>)

  datatype FetchError = IdRequired | IdentityNotFound(id: string) | LookupFailed | MissingTraits(traits: seq<string>)

  /** Judgements of the Go library: mail addresses and Unicode letters. */
  datatype Platform = Platform(isValidEmail: string -> bool, isLetter: char -> bool)

  // ---------------------------------------------------------------------------------------
  // From an identity to a profile
  // ---------------------------------------------------------------------------------------

  /** extractString of a map entry; a missing entry is a nil value. */
  function StringAt(fields: Claims, key: Key): (s: string)
    ensures Trimmed(s)
  {
    if key in fields && fields[key].Str? then TrimSpace(fields[key].text) else ""
  }

  function DisplayName(traits: Claims): (s: string)
    ensures Trimmed(s)
  {
    var given := StringAt(traits, DisplayNameKey);
    if given != "" then given
    else if NameKey in traits && traits[NameKey].Object? then
      TrimSpace(StringAt(traits[NameKey].fields, FirstKey) + " " + StringAt(traits[NameKey].fields, LastKey))
    else ""
  }

  /** Bytes of the UTF-8 form. */
  function ByteLength(s: string): nat {
    if s == "" then 0
    else
      var c := s[0] as int;
      (if c < 0x80 then 1 else if c < 0x800 then 2 else if c < 0x1_0000 then 3 else 4) + ByteLength(s[1..])
  }

  predicate IsAllowedRune(platform: Platform, r: char) {
    platform.isLetter(r) || '0' <= r <= '9' || r == ' ' || r == '-' || r == '\'' || r == '.'
  }

  /** extractNameFromTraits: a name that is too long or has other characters is left out. */
  function NamePart(platform: Platform, traits: Claims, field: Key): Option<string> {
    if NameKey in traits && traits[NameKey].Object? then
      var name := StringAt(traits[NameKey].fields, field);
      if name == "" || (exists c | c in name :: !IsAllowedRune(platform, c)) || ByteLength(name) > 255 then None
      else Some(name)
    else None
  }

  predicate HasEmail(addresses: seq<Address>) {
    exists a | a in addresses :: a.via == "email"
  }

  predicate HasVerifiedEmail(addresses: seq<Address>) {
    exists a | a in addresses :: a.via == "email" && a.verified
  }

  /** The claim is left out without an e-mail address, and true if any of them is verified. */
  function EmailVerified(addresses: seq<Address>): Option<bool> {
    if HasEmail(addresses) then Some(HasVerifiedEmail(addresses)) else None
  }

  method ExtractEmailVerifiedClaim(addresses: seq<Address>) returns (claim: Option<bool>)
    ensures claim == EmailVerified(addresses)
  {
    if |addresses| == 0 {
      return None;
    }
    var hasEmailAddresses := false;
    for i := 0 to |addresses|
      invariant hasEmailAddresses <==> HasEmail(addresses[..i])
      invariant !HasVerifiedEmail(addresses[..i])
    {
      var addr := addresses[i];
      assert addresses[..i + 1] == addresses[..i] + [addr];
      if addr.via == "email" {
        hasEmailAddresses := true;
        if addr.verified {
          assert addr in addresses;
          return Some(true);
        }
      }
    }
    assert addresses[..|addresses|] == addresses;
    if !hasEmailAddresses {
      return None;
    }
    claim := Some(false);
  }

  function AcceptedTerms(traits: Claims): Option<bool> {
    if AcceptedTermsKey !in traits then None
    else
      match traits[AcceptedTermsKey]
      case Flag(flag) => Some(flag)
      case Str(text) =>
        var lower := LowerText(TrimSpace(text));
        if lower == "true" || lower == "1" || lower == "yes" then Some(true)
        else if lower == "false" || lower == "0" || lower == "no" then Some(false)
        else None
      case _ => None
  }

  /** extractTokenClaims: everything but the actor id, which Kratos traits do not hold. */
  function ExtractTokenClaims(platform: Platform, identity: KratosIdentity): TokenClaims {
    if !identity.traits.Object? then NO_CLAIMS
    else
      var traits := identity.traits.fields;
      TokenClaims(NamePart(platform, traits, FirstKey), NamePart(platform, traits, LastKey),
                  EmailVerified(identity.addresses), AcceptedTerms(traits), None)
  }

  function MissingTraitNames(platform: Platform, traits: Claims): seq<string> {
    var email := StringAt(traits, EmailKey);
    (if email == "" || !platform.isValidEmail(email) then ["traits.email"] else [])
    + (if DisplayName(traits) == "" then ["traits.display_name"] else [])
  }

  /** buildIdentityProfile. */
  function BuildProfile(platform: Platform, identity: Option<KratosIdentity>): Result<Profile, FetchError> {
    if identity.None? then Err(LookupFailed)
    else if !identity.value.traits.Object? then Err(MissingTraits(["traits.email", "traits.display_name"]))
    else
      var traits, meta := identity.value.traits.fields, identity.value.metadataPublic;
      var missing := MissingTraitNames(platform, traits);
      if missing != [] then Err(MissingTraits(missing))
      else Ok(Profile(identity.value.id, StringAt(traits, EmailKey), DisplayName(traits),
                      if meta.Some? then StringAt(meta.value, MatrixUserIdKey) else "",
                      traits, Some(ExtractTokenClaims(platform, identity.value))))
  }

  /** What the Kratos admin API answers. */
  datatype KratosReply = KratosFailed(status: Option<int>) | KratosAnswered(identity: Option<KratosIdentity>)

  function FetchedId(identityId: string): string {
    TrimSpace(identityId)
  }

  /** IdentityMapper.Fetch, with `kratos` answering by identity id. */
  function Fetch(platform: Platform, kratos: string -> KratosReply, identityId: string): Result<Profile, FetchError> {
    var id := FetchedId(identityId);
    if id == "" then Err(IdRequired)
    else
      match kratos(id)
      case KratosFailed(status) => if status == Some(404) then Err(IdentityNotFound(id)) else Err(LookupFailed)
      case KratosAnswered(identity) => BuildProfile(platform, identity)
  }

  ghost predicate Distinct<T>(s: seq<T>) {
    forall i, j | 0 <= i < j < |s| :: s[i] != s[j]
  }

  /** Where `v` first stands in the list. */
  function FirstIndex(values: seq<string>, v: string): (i: nat)
    requires v in values
    ensures i < |values| && values[i] == v && v !in values[..i]
  {
    if values[0] == v then 0
    else
      assert v in values[1..];
      1 + FirstIndex(values[1..], v)
  }

  lemma FirstIndexOfNew(values: seq<string>, i: nat)
    requires i < |values| && values[i] !in values[..i]
    ensures FirstIndex(values, values[i]) == i
  {
  }

  /** The missing traits of an identity are different ones: deduplicating them changes nothing. */
  lemma MissingTraitsAreDistinct(platform: Platform, traits: Claims)
    ensures Distinct(MissingTraitNames(platform, traits))
  {
    assert "traits.email"[7] != "traits.display_name"[7];
  }

  /** dedupe: each element once, in the order of their first occurrences; so a list without
      repeats comes back as it was. */
  method Dedupe(values: seq<string>) returns (result: seq<string>)
    ensures Distinct(result)
    ensures forall v :: v in result <==> v in values
    ensures forall i, j | 0 <= i < j < |result| :: FirstIndex(values, result[i]) < FirstIndex(values, result[j])
    ensures Distinct(values) ==> result == values
  {
    if |values| <= 1 {
      return values;
    }
    var seen: set<string> := {};
    result := [];
    for i := 0 to |values|
      invariant Distinct(result)
      invariant forall v :: v in seen <==> v in result
      invariant forall v :: v in result <==> v in values[..i]
      invariant forall v | v in result :: v in values
      invariant forall j | 0 <= j < |result| :: FirstIndex(values, result[j]) < i
      invariant forall j, k | 0 <= j < k < |result| :: FirstIndex(values, result[j]) < FirstIndex(values, result[k])
      invariant Distinct(values) ==> result == values[..i]
    {
      assert values[..i + 1] == values[..i] + [values[i]];
      if values[i] in seen {
        continue;
      }
      FirstIndexOfNew(values, i);
      seen := seen + {values[i]};
      result := result + [values[i]];
    }
    assert values[..|values|] == values;
  }

  // ---------------------------------------------------------------------------------------
  // Enhanced claims
  // ---------------------------------------------------------------------------------------

  function StrClaim(value: Option<string>): Option<Any> {
    if value.Some? then Some(Str(value.value)) else None
  }

  function FlagClaim(value: Option<bool>): Option<Any> {
    if value.Some? then Some(Flag(value.value)) else None
  }

  /** The map of those `keys` that have a value. */
  function Present(keys: set<Key>, value: Key -> Option<Any>): Claims {
    map k | k in keys && value(k).Some? :: value(k).value
  }

  function Extra(tc: TokenClaims, k: Key): Option<Any> {
    match k
    case GivenNameKey => StrClaim(tc.givenName)
    case FamilyNameKey => StrClaim(tc.familyName)
    case EmailVerifiedKey => FlagClaim(tc.emailVerified)
    case AcceptedTermsKey => FlagClaim(tc.acceptedTerms)
    case ActorIdKey => StrClaim(tc.actorId)
    case _ => None
  }

  function AccessTokenExtras(tc: TokenClaims): Claims {
    Present({GivenNameKey, FamilyNameKey, ActorIdKey}, k => Extra(tc, k))
  }

  function IDTokenExtras(tc: TokenClaims): Claims {
    Present({GivenNameKey, FamilyNameKey, EmailVerifiedKey, AcceptedTermsKey, ActorIdKey}, k => Extra(tc, k))
  }

  /** `claims` holds those of `keys` that have a value, and nothing else. */
  ghost predicate Filled(tc: TokenClaims, keys: set<Key>, claims: Claims) {
    && (forall k :: k in claims <==> k in keys && Extra(tc, k).Some?)
    && (forall k | k in claims :: claims[k] == Extra(tc, k).value)
  }

  lemma FilledIDToken(tc: TokenClaims, claims: Claims)
    requires Filled(tc, {GivenNameKey, FamilyNameKey, EmailVerifiedKey, AcceptedTermsKey, ActorIdKey}, claims)
    ensures claims == IDTokenExtras(tc)
  {
  }

  method ToAccessTokenMap(tc: TokenClaims) returns (claims: Claims)
    ensures claims == AccessTokenExtras(tc)
  {
    claims := map[];
    if tc.givenName.Some? {
      claims := claims[GivenNameKey := Str(tc.givenName.value)];
    }
    if tc.familyName.Some? {
      claims := claims[FamilyNameKey := Str(tc.familyName.value)];
    }
    if tc.actorId.Some? {
      claims := claims[ActorIdKey := Str(tc.actorId.value)];
    }
  }

  method ToIDTokenMap(tc: TokenClaims) returns (claims: Claims)
    ensures claims == IDTokenExtras(tc)
  {
    claims := map[];
    if tc.givenName.Some? {
      claims := claims[GivenNameKey := Str(tc.givenName.value)];
    }
    assert Filled(tc, {GivenNameKey}, claims);
    if tc.familyName.Some? {
      claims := claims[FamilyNameKey := Str(tc.familyName.value)];
    }
    assert Filled(tc, {GivenNameKey, FamilyNameKey}, claims);
    if tc.emailVerified.Some? {
      claims := claims[EmailVerifiedKey := Flag(tc.emailVerified.value)];
    }
    assert Filled(tc, {GivenNameKey, FamilyNameKey, EmailVerifiedKey}, claims);
    if tc.acceptedTerms.Some? {
      claims := claims[AcceptedTermsKey := Flag(tc.acceptedTerms.value)];
    }
    assert Filled(tc, {GivenNameKey, FamilyNameKey, EmailVerifiedKey, AcceptedTermsKey}, claims);
    if tc.actorId.Some? {
      claims := claims[ActorIdKey := Str(tc.actorId.value)];
    }
    assert Filled(tc, {GivenNameKey, FamilyNameKey, EmailVerifiedKey, AcceptedTermsKey, ActorIdKey}, claims);
    FilledIDToken(tc, claims);
  }

  /** appendEnhancedClaims: whatever order the loop meets the keys in, the result is the same
      map, with `extra` winning where both have a key. */
  method AppendEnhancedClaims(claims: Claims, extra: Claims) returns (merged: Claims)
    ensures merged == claims + extra
  {
    merged := claims;
    var keys := extra.Keys;
    while keys != {}
      invariant keys <= extra.Keys
      invariant merged.Keys == claims.Keys + (extra.Keys - keys)
      invariant forall k | k in merged :: merged[k] == if k in extra && k !in keys then extra[k] else claims[k]
      decreases keys
    {
      var key :| key in keys;
      merged := merged[key := extra[key]];
      keys := keys - {key};
    }
  }

  /** A claim a token has whatever the enhanced claims are. */
  function Base(profile: Profile, k: Key): Option<Any> {
    match k
    case EmailKey => Some(Str(profile.email))
    case DisplayNameKey => Some(Str(profile.displayName))
    case IdentityIdKey => Some(Str(profile.id))
    case MatrixUserIdKey => if profile.matrixUserId != "" then Some(Str(profile.matrixUserId)) else None
    case TraitsKey => if profile.traits != map[] then Some(Object(profile.traits, "")) else None
    case _ => None
  }

  function IDTokenBase(profile: Profile): Claims {
    Present({EmailKey, DisplayNameKey, MatrixUserIdKey}, k => Base(profile, k))
  }

  function AccessTokenBase(profile: Profile): Claims {
    Present({EmailKey, DisplayNameKey, IdentityIdKey, MatrixUserIdKey, TraitsKey}, k => Base(profile, k))
  }

  predicate HasExtras(profile: Profile) {
    profile.tokenClaims.Some? && !profile.tokenClaims.value.IsEmpty()
  }

  function IDTokenClaims(profile: Profile): Claims {
    IDTokenBase(profile) + (if HasExtras(profile) then IDTokenExtras(profile.tokenClaims.value) else map[])
  }

  function AccessTokenClaims(profile: Profile): Claims {
    AccessTokenBase(profile) + (if HasExtras(profile) then AccessTokenExtras(profile.tokenClaims.value) else map[])
  }

  /** The enhanced claims never overwrite a claim the token had already. */
  lemma ExtrasNeverOverwrite(profile: Profile)
    ensures forall k | k in IDTokenBase(profile) ::
              k in IDTokenClaims(profile) && IDTokenClaims(profile)[k] == IDTokenBase(profile)[k]
    ensures forall k | k in AccessTokenBase(profile) ::
              k in AccessTokenClaims(profile) && AccessTokenClaims(profile)[k] == AccessTokenBase(profile)[k]
  {
  }

  /** The compliance flags go into ID tokens only. */
  lemma ComplianceFlagsStayOutOfAccessTokens(profile: Profile)
    ensures EmailVerifiedKey !in AccessTokenClaims(profile) && AcceptedTermsKey !in AccessTokenClaims(profile)
  {
  }

  /** Both tokens carry the same actor id or neither does. */
  lemma ActorIdInBothTokens(profile: Profile)
    ensures var id, access := IDTokenClaims(profile), AccessTokenClaims(profile);
            var actor := if profile.tokenClaims.Some? then profile.tokenClaims.value.actorId else None;
            && (ActorIdKey in id <==> actor.Some?) && (ActorIdKey in access <==> actor.Some?)
            && (actor.Some? ==> id[ActorIdKey] == access[ActorIdKey] == Str(actor.value))
  {
  }

  // ---------------------------------------------------------------------------------------
  // Attaching the actor id to a profile in place
  // ---------------------------------------------------------------------------------------

  datatype MappingError = MappingMissing | ActorIdMissing | ActorIdNotUuid

  /** validateAlkemioMapping: the trimmed actor id of a mapping. */
  function ValidateMapping(mapping: Option<string>): Result<string, MappingError> {
    if mapping.None? then Err(MappingMissing)
    else
      var actorId := TrimSpace(mapping.value);
      if actorId == "" then Err(ActorIdMissing)
      else if Parse(actorId).None? then Err(ActorIdNotUuid)
      else Ok(actorId)
  }

  /** stringPointer. */
  function StringPointer(value: string): Option<string> {
    var trimmed := TrimSpace(value);
    if trimmed == "" then None else Some(trimmed)
  }

  function WithActorId(profile: Profile, actorId: string): Profile {
    var claims := if profile.tokenClaims.Some? then profile.tokenClaims.value else NO_CLAIMS;
    profile.(tokenClaims := Some(claims.(actorId := StringPointer(actorId))))
  }

  /** The record behind a *TokenClaims. */
  class TokenClaimsRecord {
    var claims: TokenClaims

    constructor (claims: TokenClaims)
      ensures this.claims == claims
    {
      this.claims := claims;
    }
  }

  class IdentityProfile {
    const facts: Profile
    var tokenClaims: TokenClaimsRecord?

    constructor (facts: Profile, tokenClaims: TokenClaimsRecord?)
      ensures this.facts == facts && this.tokenClaims == tokenClaims
    {
      this.facts := facts;
      this.tokenClaims := tokenClaims;
    }

    /** The profile as a value. */
    ghost function Value(): Profile
      reads this, tokenClaims
    {
      facts.(tokenClaims := if tokenClaims == null then None else Some(tokenClaims.claims))
    }

    /** The end of attachAlkemioClaim, once the resolver has answered with a mapping. The
        token claims record is created when there is none and otherwise written in place. */
    method AttachActorId(mapping: Option<string>) returns (problem: Option<MappingError>)
      modifies this, tokenClaims
      ensures problem == None <==> mapping.Some? && IsUuid(TrimSpace(mapping.value))
      ensures problem == Some(MappingMissing) <==> mapping.None?
      ensures problem == Some(ActorIdMissing) <==> mapping.Some? && TrimSpace(mapping.value) == ""
      ensures problem.Some? ==> Value() == old(Value())
      ensures problem.None? ==>
                && Value().tokenClaims.Some?
                && Value().tokenClaims.value.actorId == Some(TrimSpace(mapping.value))
                && Value().tokenClaims.value.(actorId := None)
                   == (if old(Value()).tokenClaims.None? then NO_CLAIMS
                       else old(Value()).tokenClaims.value.(actorId := None))
                && Value().(tokenClaims := None) == old(Value()).(tokenClaims := None)
                && Value() == WithActorId(old(Value()), TrimSpace(mapping.value))
      ensures old(tokenClaims) != null ==> tokenClaims == old(tokenClaims)
    {
      var validated := ValidateMapping(mapping);
      if validated.Err? {
        return Some(validated.error);
      }
      if tokenClaims == null {
        tokenClaims := new TokenClaimsRecord(NO_CLAIMS);
      }
      tokenClaims.claims := tokenClaims.claims.(actorId := StringPointer(validated.value));
      problem := None;
    }
  }
}
