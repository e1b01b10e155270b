/** What tokens and contexts say of the identity Kratos answered with. The statements read the
    identity itself: its traits, its verifiable addresses and its public metadata. */
module ClaimsTheorems {
  import opened Wrappers
  import opened Text
  import opened UuidText
  import opened Identity
  import opened Challenge
  import opened ConsentTheorems

  // ---------------------------------------------------------------------------------------
  // Reading an identity
  // ---------------------------------------------------------------------------------------

  /** There is no text at `key`, or only white space. */
  ghost predicate Blank(fields: Claims, key: Key) {
    key !in fields || !fields[key].Str? || forall c | c in fields[key].text :: IsSpace(c)
  }

  /** The text at `key`, white space at its ends cut off, is `s`. */
  ghost predicate Holds(fields: Claims, key: Key, s: string) {
    key in fields && fields[key].Str? && s != "" && s == TrimSpace(fields[key].text)
  }

  ghost predicate NameBlank(traits: Claims, part: Key) {
    NameKey !in traits || !traits[NameKey].Object? || Blank(traits[NameKey].fields, part)
  }

  ghost predicate NameHolds(traits: Claims, part: Key, s: string) {
    NameKey in traits && traits[NameKey].Object? && Holds(traits[NameKey].fields, part, s)
  }

  /** The display name: the trait of that name, else first and last name with a space between
      them, else the one there is. */
  ghost predicate IsDisplayName(traits: Claims, s: string) {
    if !Blank(traits, DisplayNameKey) then Holds(traits, DisplayNameKey, s)
    else if !NameBlank(traits, FirstKey) && !NameBlank(traits, LastKey) then
      exists first, last ::
        NameHolds(traits, FirstKey, first) && NameHolds(traits, LastKey, last) && s == first + " " + last
    else NameHolds(traits, FirstKey, s) || NameHolds(traits, LastKey, s)
  }

  /** Letters, digits, blank, hyphen, apostrophe and full stop, in at most 255 bytes. */
  ghost predicate IsAllowedName(platform: Platform, s: string) {
    && ByteLength(s) <= 255
    && forall c | c in s :: platform.isLetter(c) || '0' <= c <= '9' || c == ' ' || c == '-' || c == '\'' || c == '.'
  }

  /** A name part that goes into tokens. */
  ghost predicate IsNameClaim(platform: Platform, traits: Claims, part: Key, s: string) {
    NameHolds(traits, part, s) && IsAllowedName(platform, s)
  }

  /** `text` is `word` up to the case of its letters. */
  ghost predicate Spells(text: string, word: string) {
    |text| == |word| && forall i | 0 <= i < |word| ::
      text[i] == word[i] || ('A' <= text[i] <= 'Z' && text[i] as int + 32 == word[i] as int)
  }

  /** The trait says that terms are accepted, or that they are not. */
  ghost predicate SaysTerms(traits: Claims, accepted: bool) {
    && AcceptedTermsKey in traits
    && match traits[AcceptedTermsKey]
       case Flag(flag) => flag == accepted
       case Str(text) =>
         var t := TrimSpace(text);
         if accepted then Spells(t, "true") || Spells(t, "1") || Spells(t, "yes")
         else Spells(t, "false") || Spells(t, "0") || Spells(t, "no")
       case _ => false
  }

  // ---------------------------------------------------------------------------------------
  // What a token shows of an identity
  // ---------------------------------------------------------------------------------------

  /** The claim at `key` is a text with this property, or there is none and no text has it. */
  ghost predicate ShowsText(claims: Claims, key: Key, property: string -> bool) {
    if key in claims then claims[key].Str? && property(claims[key].text) else forall s :: !property(s)
  }

  ghost predicate ShowsMatrixUser(identity: KratosIdentity, claims: Claims) {
    ShowsText(claims, MatrixUserIdKey,
              s => identity.metadataPublic.Some? && Holds(identity.metadataPublic.value, MatrixUserIdKey, s))
  }

  /** E-mail address and display name, which are always there. */
  ghost predicate ShowsPerson(identity: KratosIdentity, claims: Claims) {
    && identity.traits.Object?
    && EmailKey in claims && claims[EmailKey].Str?
    && Holds(identity.traits.fields, EmailKey, claims[EmailKey].text)
    && DisplayNameKey in claims && claims[DisplayNameKey].Str?
    && IsDisplayName(identity.traits.fields, claims[DisplayNameKey].text)
  }

  ghost predicate ShowsNames(platform: Platform, identity: KratosIdentity, claims: Claims) {
    && identity.traits.Object?
    && ShowsText(claims, GivenNameKey, s => IsNameClaim(platform, identity.traits.fields, FirstKey, s))
    && ShowsText(claims, FamilyNameKey, s => IsNameClaim(platform, identity.traits.fields, LastKey, s))
  }

  ghost predicate ShowsIdAndTraits(identity: KratosIdentity, claims: Claims) {
    && IdentityIdKey in claims && claims[IdentityIdKey] == Str(identity.id)
    && identity.traits.Object?
    && TraitsKey in claims && claims[TraitsKey].Object? && claims[TraitsKey].fields == identity.traits.fields
  }

  /** The compliance claims: whether some e-mail address is verified, if there is any, and what
      the trait says of the terms, if it says anything. */
  ghost predicate ShowsCompliance(identity: KratosIdentity, claims: Claims) {
    && identity.traits.Object?
    && (EmailVerifiedKey in claims <==> exists a :: a in identity.addresses && a.via == "email")
    && (EmailVerifiedKey in claims ==>
          claims[EmailVerifiedKey] == Flag(exists a :: a in identity.addresses && a.via == "email" && a.verified))
    && (AcceptedTermsKey in claims <==>
          SaysTerms(identity.traits.fields, true) || SaysTerms(identity.traits.fields, false))
    && (AcceptedTermsKey in claims ==> claims[AcceptedTermsKey] == Flag(SaysTerms(identity.traits.fields, true)))
  }

  ghost predicate IDTokenShows(platform: Platform, identity: KratosIdentity, claims: Claims) {
    && ShowsPerson(identity, claims) && ShowsMatrixUser(identity, claims) && ShowsNames(platform, identity, claims)
    && ShowsCompliance(identity, claims)
    && claims.Keys <= {EmailKey, DisplayNameKey, MatrixUserIdKey, GivenNameKey, FamilyNameKey,
                       EmailVerifiedKey, AcceptedTermsKey, ActorIdKey}
  }

  ghost predicate AccessTokenShows(platform: Platform, identity: KratosIdentity, claims: Claims) {
    && ShowsPerson(identity, claims) && ShowsMatrixUser(identity, claims) && ShowsNames(platform, identity, claims)
    && ShowsIdAndTraits(identity, claims)
    && claims.Keys <= {EmailKey, DisplayNameKey, MatrixUserIdKey, GivenNameKey, FamilyNameKey,
                       IdentityIdKey, TraitsKey, ActorIdKey}
  }

  ghost predicate ConsentContextShows(identity: KratosIdentity, context: Claims) {
    && IdentityIdKey in context && context[IdentityIdKey] == Str(identity.id)
    && ShowsMatrixUser(identity, context)
    && context.Keys <= {IdentityIdKey, MatrixUserIdKey}
  }

  ghost predicate LoginContextShows(identity: KratosIdentity, context: Claims) {
    && ShowsPerson(identity, context) && ShowsMatrixUser(identity, context) && ShowsIdAndTraits(identity, context)
    && context.Keys <= {IdentityIdKey, EmailKey, DisplayNameKey, MatrixUserIdKey, TraitsKey}
  }

  // ---------------------------------------------------------------------------------------
  // From the identity to the profile
  // ---------------------------------------------------------------------------------------

  lemma BlankTrimsToNothing(s: string)
    ensures TrimSpace(s) == "" <==> forall c | c in s :: IsSpace(c)
  {
    TrimSpaceCuts(s);
    var left, right :| Cut(s, left, TrimSpace(s), right);
    var r := TrimSpace(s);
    if r != "" {
      assert s[|left|] == r[0] && !IsSpace(s[|left|]);
    } else {
      assert forall c | c in s :: c in left || c in right;
    }
  }

  /** What extractString of a field finds. */
  lemma StringAtReads(fields: Claims, key: Key)
    ensures StringAt(fields, key) == "" <==> Blank(fields, key)
    ensures forall s :: Holds(fields, key, s) <==> s == StringAt(fields, key) && s != ""
  {
    if key in fields && fields[key].Str? {
      BlankTrimsToNothing(fields[key].text);
    }
  }

  lemma TrimJoined(first: string, last: string)
    requires Trimmed(first) && Trimmed(last)
    ensures TrimSpace(first + " " + last)
         == if first == "" then last else if last == "" then first else first + " " + last
  {
    var joined := first + " " + last;
    if first != "" && last != "" {
      assert Trimmed(joined);
    } else if first != "" {
      assert TrimLeft(joined) == joined && joined[|joined| - 1] == ' ' && joined[..|joined| - 1] == first;
      assert TrimRight(joined) == TrimRight(first) == first;
    } else {
      assert joined[0] == ' ' && joined[1..] == last;
      assert TrimLeft(joined) == TrimLeft(last);
      assert TrimSpace(joined) == TrimSpace(last) == last;
    }
  }

  lemma DisplayNameReads(traits: Claims)
    ensures DisplayName(traits) != "" ==> IsDisplayName(traits, DisplayName(traits))
    ensures DisplayName(traits) == "" <==>
              Blank(traits, DisplayNameKey) && NameBlank(traits, FirstKey) && NameBlank(traits, LastKey)
  {
    StringAtReads(traits, DisplayNameKey);
    if NameKey in traits && traits[NameKey].Object? {
      var name := traits[NameKey].fields;
      var first, last := StringAt(name, FirstKey), StringAt(name, LastKey);
      StringAtReads(name, FirstKey);
      StringAtReads(name, LastKey);
      TrimJoined(first, last);
      assert first != "" ==> NameHolds(traits, FirstKey, first);
      assert last != "" ==> NameHolds(traits, LastKey, last);
    }
  }

  lemma NamePartReads(platform: Platform, traits: Claims, part: Key)
    ensures forall s :: IsNameClaim(platform, traits, part, s) <==> NamePart(platform, traits, part) == Some(s)
  {
    if NameKey in traits && traits[NameKey].Object? {
      StringAtReads(traits[NameKey].fields, part);
    }
  }

  lemma SpellsLower(text: string, word: string)
    requires forall c | c in word :: 'a' <= c <= 'z' || c == '0' || c == '1'
    ensures LowerText(text) == word <==> Spells(text, word)
  {
    if Spells(text, word) {
      forall i | 0 <= i < |word| ensures Lower(text[i]) == word[i] { assert word[i] in word; }
    } else if LowerText(text) == word {
      assert |text| == |word|;
      forall i | 0 <= i < |word|
        ensures text[i] == word[i] || ('A' <= text[i] <= 'Z' && text[i] as int + 32 == word[i] as int)
      {
        assert LowerText(text)[i] == word[i];
      }
    }
  }

  lemma TermsRead(traits: Claims)
    ensures AcceptedTerms(traits) == Some(true) <==> SaysTerms(traits, true)
    ensures AcceptedTerms(traits) == Some(false) <==> SaysTerms(traits, false)
  {
    if AcceptedTermsKey in traits && traits[AcceptedTermsKey].Str? {
      var t := TrimSpace(traits[AcceptedTermsKey].text);
      SpellsLower(t, "true");
      SpellsLower(t, "1");
      SpellsLower(t, "yes");
      SpellsLower(t, "false");
      SpellsLower(t, "0");
      SpellsLower(t, "no");
    }
  }

  /** The identity has what a profile needs: an object of traits with a valid e-mail address and
      something to make a display name of. */
  ghost predicate HasProfile(platform: Platform, identity: KratosIdentity) {
    && identity.traits.Object?
    && (exists email :: Holds(identity.traits.fields, EmailKey, email) && platform.isValidEmail(email))
    && !(Blank(identity.traits.fields, DisplayNameKey)
         && NameBlank(identity.traits.fields, FirstKey) && NameBlank(identity.traits.fields, LastKey))
  }

  lemma ProfileNeeds(platform: Platform, identity: KratosIdentity)
    ensures BuildProfile(platform, Some(identity)).Ok? <==> HasProfile(platform, identity)
  {
    if identity.traits.Object? {
      var traits := identity.traits.fields;
      var email := StringAt(traits, EmailKey);
      StringAtReads(traits, EmailKey);
      DisplayNameReads(traits);
      if email != "" {
        assert Holds(traits, EmailKey, email);
      }
    }
  }

  /** Which of the two required traits a rejected identity is told to be missing. */
  lemma MissingTraitsNamed(platform: Platform, identity: KratosIdentity)
    requires BuildProfile(platform, Some(identity)).Err?
    ensures var e := BuildProfile(platform, Some(identity)).error;
            && e.MissingTraits?
            && ("traits.email" in e.traits <==>
                  !identity.traits.Object?
                  || !exists email :: Holds(identity.traits.fields, EmailKey, email) && platform.isValidEmail(email))
            && ("traits.display_name" in e.traits <==>
                  !identity.traits.Object?
                  || (Blank(identity.traits.fields, DisplayNameKey)
                      && NameBlank(identity.traits.fields, FirstKey) && NameBlank(identity.traits.fields, LastKey)))
  {
    assert "traits.email"[7] != "traits.display_name"[7];
    if identity.traits.Object? {
      var traits := identity.traits.fields;
      StringAtReads(traits, EmailKey);
      DisplayNameReads(traits);
      if StringAt(traits, EmailKey) != "" {
        assert Holds(traits, EmailKey, StringAt(traits, EmailKey));
      }
    }
  }

  /** The length limit of names is one of UTF-8. */
  lemma {:induction false} ByteLengthIsUtf8(a: string, b: string, c: char)
    ensures ByteLength(a + b) == ByteLength(a) + ByteLength(b)
    ensures ByteLength([c]) == if c as int <= 0x7F then 1 else if c as int <= 0x7FF then 2
                               else if c as int <= 0xFFFF then 3 else 4
  {
    if a == [] {
      assert a + b == b;
    } else {
      assert (a + b)[1..] == a[1..] + b;
      ByteLengthIsUtf8(a[1..], b, c);
    }
  }

  // ---------------------------------------------------------------------------------------
  // From the profile to tokens and contexts
  // ---------------------------------------------------------------------------------------

  /** The profile of an identity, before or after an actor id is attached to it. */
  ghost predicate IsProfileOf(platform: Platform, identity: KratosIdentity, profile: Profile) {
    && BuildProfile(platform, Some(identity)).Ok?
    && var built := BuildProfile(platform, Some(identity)).value;
       profile == built || exists actorId :: profile == WithActorId(built, actorId)
  }

  lemma ProfileReads(platform: Platform, identity: KratosIdentity, profile: Profile)
    requires IsProfileOf(platform, identity, profile)
    ensures identity.traits.Object? && profile.traits == identity.traits.fields && profile.id == identity.id
    ensures Holds(identity.traits.fields, EmailKey, profile.email)
    ensures IsDisplayName(identity.traits.fields, profile.displayName)
    ensures forall s :: s == profile.matrixUserId && s != "" <==>
              identity.metadataPublic.Some? && Holds(identity.metadataPublic.value, MatrixUserIdKey, s)
    ensures profile.tokenClaims.Some?
    ensures var tc := profile.tokenClaims.value;
            tc.(actorId := None) == ExtractTokenClaims(platform, identity)
  {
    var traits := identity.traits.fields;
    StringAtReads(traits, EmailKey);
    DisplayNameReads(traits);
    if identity.metadataPublic.Some? {
      StringAtReads(identity.metadataPublic.value, MatrixUserIdKey);
    }
  }

  lemma NamesRead(platform: Platform, identity: KratosIdentity)
    requires identity.traits.Object?
    ensures var tc := ExtractTokenClaims(platform, identity);
            && (forall s :: tc.givenName == Some(s) <==> IsNameClaim(platform, identity.traits.fields, FirstKey, s))
            && (forall s :: tc.familyName == Some(s) <==> IsNameClaim(platform, identity.traits.fields, LastKey, s))
  {
    NamePartReads(platform, identity.traits.fields, FirstKey);
    NamePartReads(platform, identity.traits.fields, LastKey);
  }

  /** The claims for `value`, if there is one, and no other value. */
  ghost predicate Carries(claims: Claims, key: Key, value: Option<Any>) {
    (key in claims <==> value.Some?) && (value.Some? ==> claims[key] == value.value)
  }

  /** Which claims both tokens of a profile have. */
  ghost predicate CarriesProfile(profile: Profile, tc: TokenClaims, token: Claims) {
    && Carries(token, EmailKey, Some(Str(profile.email)))
    && Carries(token, DisplayNameKey, Some(Str(profile.displayName)))
    && Carries(token, MatrixUserIdKey, if profile.matrixUserId == "" then None else Some(Str(profile.matrixUserId)))
    && Carries(token, GivenNameKey, if tc.givenName.Some? then Some(Str(tc.givenName.value)) else None)
    && Carries(token, FamilyNameKey, if tc.familyName.Some? then Some(Str(tc.familyName.value)) else None)
  }

  lemma IDTokenCarries(profile: Profile, tc: TokenClaims)
    requires profile.tokenClaims == Some(tc)
    ensures CarriesProfile(profile, tc, IDTokenClaims(profile))
  {
  }

  lemma IDTokenCarriesCompliance(profile: Profile, tc: TokenClaims)
    requires profile.tokenClaims == Some(tc)
    ensures var token := IDTokenClaims(profile);
            && Carries(token, EmailVerifiedKey,
                       if tc.emailVerified.Some? then Some(Flag(tc.emailVerified.value)) else None)
            && Carries(token, AcceptedTermsKey,
                       if tc.acceptedTerms.Some? then Some(Flag(tc.acceptedTerms.value)) else None)
            && token.Keys <= {EmailKey, DisplayNameKey, MatrixUserIdKey, GivenNameKey, FamilyNameKey,
                              EmailVerifiedKey, AcceptedTermsKey, ActorIdKey}
  {
  }

  lemma AccessTokenCarries(profile: Profile, tc: TokenClaims)
    requires profile.tokenClaims == Some(tc)
    ensures CarriesProfile(profile, tc, AccessTokenClaims(profile))
  {
  }

  lemma AccessTokenCarriesTraits(profile: Profile, tc: TokenClaims)
    requires profile.tokenClaims == Some(tc) && profile.traits != map[]
    ensures var token := AccessTokenClaims(profile);
            && Carries(token, IdentityIdKey, Some(Str(profile.id)))
            && Carries(token, TraitsKey, Some(Object(profile.traits, "")))
            && token.Keys <= {EmailKey, DisplayNameKey, MatrixUserIdKey, GivenNameKey, FamilyNameKey,
                              IdentityIdKey, TraitsKey, ActorIdKey}
  {
  }

  lemma TokenShowsPerson(platform: Platform, identity: KratosIdentity, profile: Profile, token: Claims)
    requires IsProfileOf(platform, identity, profile)
    requires profile.tokenClaims.Some? && CarriesProfile(profile, profile.tokenClaims.value, token)
    ensures ShowsPerson(identity, token) && ShowsMatrixUser(identity, token)
  {
    ProfileReads(platform, identity, profile);
  }

  lemma TokenShowsNames(platform: Platform, identity: KratosIdentity, profile: Profile, token: Claims)
    requires IsProfileOf(platform, identity, profile)
    requires profile.tokenClaims.Some? && CarriesProfile(profile, profile.tokenClaims.value, token)
    ensures ShowsNames(platform, identity, token)
  {
    ProfileReads(platform, identity, profile);
    NamesRead(platform, identity);
  }

  lemma IDTokenShowsCompliance(platform: Platform, identity: KratosIdentity, profile: Profile)
    requires IsProfileOf(platform, identity, profile)
    ensures ShowsCompliance(identity, IDTokenClaims(profile))
  {
    ProfileReads(platform, identity, profile);
    IDTokenCarriesCompliance(profile, profile.tokenClaims.value);
    TermsRead(identity.traits.fields);
  }

  lemma IDTokenShowsIdentity(platform: Platform, identity: KratosIdentity, profile: Profile)
    requires IsProfileOf(platform, identity, profile)
    ensures IDTokenShows(platform, identity, IDTokenClaims(profile))
  {
    ProfileReads(platform, identity, profile);
    IDTokenCarries(profile, profile.tokenClaims.value);
    TokenShowsPerson(platform, identity, profile, IDTokenClaims(profile));
    TokenShowsNames(platform, identity, profile, IDTokenClaims(profile));
    IDTokenShowsCompliance(platform, identity, profile);
    IDTokenCarriesCompliance(profile, profile.tokenClaims.value);
  }

  lemma AccessTokenShowsIdentity(platform: Platform, identity: KratosIdentity, profile: Profile)
    requires IsProfileOf(platform, identity, profile)
    ensures AccessTokenShows(platform, identity, AccessTokenClaims(profile))
  {
    ProfileReads(platform, identity, profile);
    assert EmailKey in profile.traits;
    AccessTokenCarries(profile, profile.tokenClaims.value);
    AccessTokenCarriesTraits(profile, profile.tokenClaims.value);
    TokenShowsPerson(platform, identity, profile, AccessTokenClaims(profile));
    TokenShowsNames(platform, identity, profile, AccessTokenClaims(profile));
  }

  lemma ConsentContextShowsIdentity(platform: Platform, identity: KratosIdentity, profile: Profile)
    requires IsProfileOf(platform, identity, profile)
    ensures ConsentContextShows(identity, ConsentContext(profile))
  {
    ProfileReads(platform, identity, profile);
  }

  lemma LoginContextCarries(profile: Profile)
    requires profile.traits != map[]
    ensures var context := LoginContext(profile);
            && Carries(context, IdentityIdKey, Some(Str(profile.id)))
            && Carries(context, EmailKey, Some(Str(profile.email)))
            && Carries(context, DisplayNameKey, Some(Str(profile.displayName)))
            && Carries(context, MatrixUserIdKey,
                       if profile.matrixUserId == "" then None else Some(Str(profile.matrixUserId)))
            && Carries(context, TraitsKey, Some(Object(profile.traits, "")))
            && context.Keys <= {IdentityIdKey, EmailKey, DisplayNameKey, MatrixUserIdKey, TraitsKey}
  {
  }

  lemma LoginContextShowsIdentity(platform: Platform, identity: KratosIdentity, profile: Profile)
    requires IsProfileOf(platform, identity, profile)
    ensures LoginContextShows(identity, LoginContext(profile))
  {
    ProfileReads(platform, identity, profile);
    assert EmailKey in profile.traits;
    LoginContextCarries(profile);
  }

  // ---------------------------------------------------------------------------------------
  // What a consent hands over
  // ---------------------------------------------------------------------------------------

  /** The payload of a consent shows this identity, in both tokens and in the context. */
  ghost predicate PayloadShows(platform: Platform, identity: KratosIdentity, payload: AcceptConsent) {
    && payload.session.Some? && payload.context.Some?
    && IDTokenShows(platform, identity, payload.session.value.idToken)
    && AccessTokenShows(platform, identity, payload.session.value.accessToken)
    && ConsentContextShows(identity, payload.context.value)
  }

  /** Whatever a consent sends for an identity says what Kratos says of it, on both paths. */
  lemma ConsentShowsIdentity(
    config: Config, challengeId: string, req: ConsentRequest, world: World, identity: KratosIdentity)
    requires ExtractIdentityId(req) != "" && world.kratos(ExtractIdentityId(req)) == KratosAnswered(Some(identity))
    ensures var standard := PayloadSent(ConsentStandard(config, challengeId, req, world).calls);
            var auto := PayloadSent(ConsentAutoAccept(config, challengeId, req, world).calls);
            && standard == auto
            && (standard.Some? ==> PayloadShows(world.platform, identity, standard.value))
            && (standard.Some? <==>
                  && HasProfile(world.platform, identity)
                  && ("alkemio" in req.requestedScope ==>
                        world.actor(identity.id).Ok? && IsUuid(TrimSpace(world.actor(identity.id).value))))
  {
    ConsentGrantsWhatWasAsked(config, challengeId, req, world);
    ProfileNeeds(world.platform, identity);
    assert TrimSpace(ExtractIdentityId(req)) == ExtractIdentityId(req);
    var profile := ConsentableProfile(challengeId, req, world);
    if profile.Some? {
      assert IsProfileOf(world.platform, identity, profile.value);
      IDTokenShowsIdentity(world.platform, identity, profile.value);
      AccessTokenShowsIdentity(world.platform, identity, profile.value);
      ConsentContextShowsIdentity(world.platform, identity, profile.value);
    }
  }
}
