# Verified model of the OIDC service

The service sits between Ory Hydra and Ory Kratos. It resolves Hydra's login, consent and
logout challenges, puts the Alkemio actor id of an identity into tokens and keeps it there
when tokens are refreshed, answers readiness probes, and can be switched into maintenance.
The repository also holds a docstring coverage tool. This project models those parts in
Dafny and proves what they keep, over all inputs and, where requests run at once, over all
interleavings. `dafny verify dfyconfig.toml` checks everything.

How the parts are modelled:

- **Readiness** (`Readiness.dfy`, `ReadinessRuns.dfy`, `ReadinessTheorems.dfy`). The handler is
  a class. Any number of requests run as a step machine: one step is one critical section,
  one probe, one log line, a tick of a clock that never goes back, or a change of a
  dependency. A step that is not possible changes nothing, so every list of steps is a run.
- **Maintenance state** (`Maintenance.dfy`, `MaintenanceRuns.dfy`). A class with the pointer
  copies, and one writer against any readers at the level of single atomic stores and loads.
- **Trait trees** (`TraitTrees.dfy`). Go maps are objects, Go slices arrays. A tree is acyclic
  when it has a nesting depth and a finite set of maps and slices; sharing is allowed.
- **Identities and challenges** (`Identity.dfy`, `Challenge.dfy`, `ChallengeTheorems.dfy`,
  `ConsentTheorems.dfy`, `ClaimsTheorems.dfy`, `LoginSessions.dfy`, `ResolutionTheorems.dfy`).
  A resolution is the list of its outside calls and its result; a world gives every answer.
  JSON object keys the program uses are named constructors, all others `OtherKey`; a value that
  is neither a string nor a boolean is known by its fields and by what `fmt.Sprint` prints of it.
- **Refresh, token hook, webhook** (`Refresh.dfy`, `TokenHook.dfy`, `Webhook.dfy`), and the
  system of all of them with Kratos, Hydra sessions and consents (`TokenSystem.dfy`,
  `TokenSystemTheorems.dfy`). Kratos keeps a ghost history of every store it was in, so that
  what a read gives can be compared with what was held while it was under way.
  The theorems about it rest on this: the database, the API and whoever re-stamps or edits
  Kratos give the directory's actor id of an identity or none; a Kratos id is a UUID without
  space around it and answers to itself; Hydra carries subject and context of a session
  unchanged. A step in which someone would break this changes nothing in the model.
- **Actor lookup** (`ActorLookup.dfy`, `IdentityResolver.dfy`, `UuidText.dfy`). Time is in
  milliseconds and only passes in calls and waits. The UUID library is not part of the
  repository: its parser is modelled by the four layouts it accepts, its printer by section 4
  of RFC 9562.
- **Coverage tool** (`Coverage.dfy`, `Ordering.dfy`, `Analyzer.dfy`, `AnalyzerTheorems.dfy`,
  `Threshold.dfy`). Percentages are exact reals. `sort.Slice` may order ties as it likes:
  contracts promise an ordered rearrangement, no particular one.

Where the code and what is said about it differ, the model follows the code:

- No probe pair is *decided on* within two seconds of a store, but one can *start* then: a
  request may be overtaken between its cache miss and its probes. `EarlyProbesNeedTwoRequests`
  gives the exact condition; the rate bound holds all the same.
- With the stub transports an unknown identity is temporarily unavailable
  (`internal/challenge/refresh_resolver.go:115`), not an empty answer as the comments at
  `internal/server/token_hook_handler.go:34` and `:146` say.
- The webhook's JSON Patch `add` replaces all public metadata (section 4.1 of RFC 6902), so a
  login drops the Matrix user id (`PatchDropsMatrixUser`).
- The auto-accept audit event reports success before the redirect is looked at, so it also
  appears for resolutions that fail (`AuditFollowsAcceptNotResolution`).
- Rounded coverage reaches 100 with exports missing once at most one in 20000 is
  (`FullCoverage`).
- A login with an id that is no UUID cannot be skipped without a hint, and then changes the
  session's identity (`UnsettledSkipChangesIdentity`).

## Model

| member | source | states |
|---|---|---|
| ReadinessTheorems.ProbeRateBound | internal/server/health.go:140-173 | In every run with at most k requests in flight, every half-open two-second window has at most k probe-pair starts. |
| ReadinessTheorems.ProbeRateBoundIsReached | internal/server/health.go:149-155 | For every k some run starts k probe pairs at one instant, so the bound cannot be lowered. |
| ReadinessTheorems.EarlyProbesNeedTwoRequests | internal/server/health.go:140-155 | Some run starts a probe pair less than a TTL after an earlier store if and only if two requests can be in flight. |
| ReadinessTheorems.EarlyProbeWasDecidedBeforeStore | internal/server/health.go:141-147 | Any store that a probe pair starts too soon after was made after that pair's cache miss. |
| ReadinessTheorems.HitIsRecentProbe | internal/server/health.go:140-177 | A cache hit is the newest stored complete probe pair and strictly younger than two seconds. Unless a dependency changed since the pair began, each check tells of that dependency's own URL and reply, with the reason when it fails. |
| ReadinessTheorems.StoreTimesNeverDecrease | internal/server/health.go:166-173 | Store times are in order in every run. |
| ReadinessTheorems.LogConservation | internal/server/health.go:166-207 | For each dependency, unhealthy lines minus recovered lines, written or still owed, are 1 while the cache says unhealthy and 0 otherwise. |
| ReadinessTheorems.SettledLogTellsStatus | internal/server/health.go:180-207 | When no request owes a line the log alone gives the cached status. |
| ReadinessRuns.RunKeepsInvariant | internal/server/health.go:140-178 | Cache, store order, freshness of what probes know, spacing of starts and log balance hold after every run. |
| Readiness.HealthHandler.EvaluateReadiness | internal/server/health.go:140-178 | One uninterrupted call: a hit changes nothing; a miss returns, for each dependency, what its own URL and reply say, stores that and appends the transition lines. |
| Readiness.LinesTellChange | internal/server/health.go:184-199 | One line exactly when a dependency turns unhealthy, with its own error, or recovers. |
| Readiness.HealthHandler.StoreResult | internal/server/health.go:166-173 | The critical section returns the result it replaces and leaves the new one with its time. |
| Readiness.HealthHandler.LogReadinessTransitions | internal/server/health.go:184-207 | Appends, dependency by dependency, a line exactly on a change of status, none for a first healthy result. |
| Maintenance.State.Update | internal/maintenance/state.go:25-33 | The state becomes the given settings: a non-empty message as given, the default for an empty one, the duration copied into a new cell. |
| Maintenance.State.Snapshot | internal/maintenance/state.go:36-49 | Returns the current settings; the duration pointer is new and aliases nothing in the state. |
| MaintenanceRuns.ObservableVersions | internal/maintenance/state.go:25-49 | With one writer, a snapshot can show versions (e, m, r) if and only if they exist and m >= e-1, r >= e-1 and r >= m-1. |
| MaintenanceRuns.SnapshotTearsAtMostOnce | internal/maintenance/state.go:36-49 | In every run later fields of a snapshot are at most one version behind earlier ones. |
| MaintenanceRuns.SnapshotValues | internal/maintenance/state.go:25-49 | Each field of a snapshot is what one update wrote, whole. |
| MaintenanceRuns.UndisturbedSnapshotIsLatest | internal/maintenance/state.go:25-49 | A snapshot that overlaps no update is the newest finished update in all fields. |
| TraitTrees.CloneTraits | internal/challenge/service.go:845-850 | For every acyclic tree the copy shows the same tree, terminates, and all its maps and slices are new; nothing else is written. |
| TraitTrees.CloneTraitMap | internal/challenge/service.go:852-861 | The same for one map, nil included. |
| TraitTrees.CloneTraitSlice | internal/challenge/service.go:863-873 | The same for one slice, nil included. |
| TraitTrees.CloneTraitValue | internal/challenge/service.go:875-884 | The same for a value of any kind; scalars come back as they are. |
| TraitTrees.CloneSharesNothing | internal/challenge/service.go:845-884 | Source and copy have no map or slice in common at any depth. |
| TraitTrees.UntouchedTreeKeepsView | internal/challenge/service.go:845-884 | Writes outside a tree's own maps and slices never show in it. |
| TraitTrees.OverwriteAfterClone | internal/challenge/service.go:755-757 | Overwriting a field anywhere in the source after the copy leaves the copy showing the old tree. |
| TraitTrees.CloneMap | internal/challenge/identity_mapper.go:210-219 | A new map with the very same values. |
| TraitTrees.ShallowCopySharesNestedMaps | internal/challenge/identity_mapper.go:210-219 | The shallow copy has every nested map in common with its source. |
| UuidText.ParsePrint | internal/alkemio/db_resolver.go:140-145 | Parsing the printed text of any UUID gives its sixteen bytes; the text has 36 characters and no space around it. |
| UuidText.PrintParse | internal/alkemio/identity_resolver.go:293-299 | A hyphenated text that parses is, in lower case, the printed form of what it parses to. |
| UuidText.OtherLayoutsParse | internal/alkemio/identity_resolver.go:293-299 | The URN, the braced text and the bare digits of a UUID parse to the same bytes. |
| ActorLookup.ValidRowAlwaysResolves | internal/alkemio/db_resolver.go:44-138 | A database lookup succeeds exactly on a UUID with a valid row, with that row's canonical text; the invalid-format branch cannot be taken. |
| ActorLookup.SpellingDoesNotMatter | internal/alkemio/db_resolver.go:49-85 | All spellings of one UUID find the same actor. |
| ActorLookup.DatabaseDecidesFirst | internal/alkemio/composite_resolver.go:50-72 | A valid row decides; without one, or without a database, the answer is the API's. |
| Webhook.CanonicalIdPassesValidators | internal/webhook/handler.go:204-214 | The database's text passes the webhook's and the consent path's checks unchanged. |
| Webhook.ValidatorsAgree | internal/challenge/identity_mapper.go:238-252 | The trimming and the non-trimming check accept the same ids among those without space around them. |
| IdentityResolver.Resolve | internal/alkemio/identity_resolver.go:101-157 | No call for a malformed id; otherwise 1 to max(1, retries) calls, all but the last answered temporarily, 100 n (n-1) ms of completed waits for n calls. It succeeds exactly when the last answer names an actor, with that one; what follows the last error return is dead. |
| IdentityResolver.Retry | internal/alkemio/identity_resolver.go:117-156 | The loop on its own: what each further call presupposes, how long the waits take, and which result the last answer gives. |
| IdentityResolver.StopOfLastAttempt | internal/alkemio/identity_resolver.go:127-150 | Which of cancellation and deadline a stopped resolution reports, and when. |
| IdentityResolver.WaitsAddUp | internal/alkemio/identity_resolver.go:261-266 | The backoffs before call n are 100 n (n-1) ms in total. |
| IdentityResolver.Classify | internal/alkemio/identity_resolver.go:159-213 | Success exactly on a non-error status with a body whose actorID, or userId when that is blank, is a UUID: the trimmed one. 404 alone is not-found; transport failures without a context error, 5xx and undecodable bodies alone are temporary. |
| IdentityResolver.TimeoutBoundsCalls | internal/alkemio/identity_resolver.go:232-246 | The derived deadline bounds the waits by the timeout whatever the retry limit: at most seventeen calls for thirty seconds. |
| IdentityResolver.ConfiguredResolverIsBounded | internal/alkemio/identity_resolver.go:77-85 | So is every resolver made from a configuration, with the default timeout when none is given. |
| IdentityResolver.Deadline | internal/alkemio/identity_resolver.go:232-246 | The deadline is never later than the caller's nor than a timeout from now. |
| Identity.ExtractEmailVerifiedClaim | internal/challenge/identity_mapper.go:334-365 | Left out without an e-mail address, otherwise true exactly when one is verified. |
| Text.TrimSpaceCuts | internal/challenge/identity_mapper.go:238-252 | What the checks trim off is white space at the two ends and nothing else. |
| Identity.Dedupe | internal/challenge/identity_mapper.go:221-235 | Each element once, in the order of first occurrences; a list without repeats unchanged. |
| Identity.MissingTraitsAreDistinct | internal/challenge/identity_mapper.go:120-135 | The missing traits of an identity have no repeats, so deduplicating them changes nothing. |
| ClaimsTheorems.MissingTraitsNamed | internal/challenge/identity_mapper.go:119-135 | E-mail and display name are reported missing exactly when the traits have no valid address and nothing to make a name of. |
| ClaimsTheorems.ByteLengthIsUtf8 | internal/challenge/identity_mapper.go:305-331 | The length limit of names counts the bytes of UTF-8. |
| Identity.ToAccessTokenMap | internal/challenge/model.go:62-74 | Exactly the set ones of given name, family name and actor id. |
| Identity.ToIDTokenMap | internal/challenge/model.go:77-95 | Exactly the set ones of all five claims. |
| Identity.AppendEnhancedClaims | internal/challenge/service.go:811-828 | Whatever order the keys are met in, the merge is the one map in which the added claims win. |
| Identity.ExtrasNeverOverwrite | internal/challenge/service.go:771-809 | Enhanced claims never replace a claim a token had already. |
| Identity.ComplianceFlagsStayOutOfAccessTokens | internal/challenge/model.go:62-74 | email_verified and accepted_terms are never top-level keys of access tokens. |
| Identity.ActorIdInBothTokens | internal/challenge/service.go:771-809 | Both tokens carry the profile's actor id, or neither has one. |
| Identity.IdentityProfile.AttachActorId | internal/challenge/service.go:716-741 | Anything but a mapping to a UUID leaves the profile alone; a UUID is set, trimmed, in the same claims record, or in a new one when there was none, and nothing else changes. |
| Challenge.EnsureIdentityInMap | internal/challenge/service.go:915-929 | The context itself when it names the identity, otherwise a copy with only that key corrected. |
| ChallengeTheorems.AcceptsOnceAndLast | internal/challenge/service.go:203-434 | Every login, consent or logout resolution accepts at most once, after every other call it makes has succeeded; without the accept it fails, with it the result is Hydra's trimmed redirect if there is one. |
| ResolutionTheorems.StandardLoginSends | internal/challenge/service.go:294-334 | A login without skip is accepted exactly for an identity with a profile, for that identity, with a context that says what Kratos says of it. |
| ResolutionTheorems.SkipLoginSends | internal/challenge/service.go:227-292 | A login with skip is accepted exactly when context or subject names a UUID, or else the hint does, for that identity and in the context that came, its identity corrected. |
| ResolutionTheorems.VisitKeepsWhatWasSent | internal/challenge/service.go:227-254 | What Hydra remembers after a skip login is what that login sent, if Hydra took it. |
| ResolutionTheorems.ListDecidesConsentPath | internal/challenge/service.go:337-434 | A consent is accepted without a session exactly for a listed client with no identity, and acceptances are audited exactly for listed clients. |
| ResolutionTheorems.ConsentSends | internal/challenge/service.go:337-434 | Whichever path, a consent is accepted exactly when the identity has a profile and, with `alkemio`, an actor; it grants what was asked, and both tokens and the context say what Kratos says of the identity. |
| ResolutionTheorems.ConsentFailure | internal/challenge/service.go:618-683 | The status of a failed consent by the first thing that goes wrong: 400, 403, 502, then Hydra's. |
| ResolutionTheorems.ChallengeRefused | internal/challenge/service.go:204-218 | A blank challenge is refused without a call, one Hydra gives no request for after that one call, with the status of Hydra's failure. |
| ResolutionTheorems.AcceptFailure | internal/challenge/service.go:605-637 | Once the accept call is made only Hydra's answer to it can fail the resolution, with the status that answer has. |
| ResolutionTheorems.KratosFailure | internal/challenge/service.go:639-653 | When Kratos does not give the identity, login and consent fail with 500 and accept nothing. |
| ResolutionTheorems.ErrorsFit | internal/challenge/model.go:116-230 | In all flows an error has a code of its status and names the trimmed challenge. |
| ClaimsTheorems.ConsentShowsIdentity | internal/challenge/service.go:762-809 | On both consent paths: e-mail, display name, allowed given and family name and Matrix id in both tokens; id and traits in the access token, verification and terms in the ID token; nothing else but the actor id. All stated on the identity Kratos gave. |
| ClaimsTheorems.LoginContextShowsIdentity | internal/challenge/service.go:746-760 | A login context holds the identity's id, e-mail, display name, traits and, if there is one, Matrix id, and nothing else. |
| ClaimsTheorems.ProfileNeeds | internal/challenge/identity_mapper.go:112-142 | A profile is built exactly when there is a valid e-mail address and something to make a display name of. |
| ConsentTheorems.AutoAcceptMatchesStandard | internal/challenge/service.go:361-402 | The two consent paths make the same calls with the same payloads and give the same result, audit aside, if and only if the request names an identity. |
| ConsentTheorems.ConsentGrantsWhatWasAsked | internal/challenge/service.go:448-495 | An accepted consent grants exactly the requested scope and audience and carries context and claims of the one looked-up profile; only auto-accept without an identity sends none. |
| ConsentTheorems.ConsentTokensCarryActor | internal/challenge/service.go:371-392 | Both tokens carry one trimmed UUID actor id of the fetched identity when `alkemio` is requested, neither does otherwise, on both paths. |
| ConsentTheorems.ConsentProfileActor | internal/challenge/service.go:685-742 | The profile's actor id is the checked lookup answer exactly when `alkemio` is requested. |
| ConsentTheorems.ForbiddenMeansNoActor | internal/challenge/service.go:668-683 | On both paths a consent fails with 403 exactly when `alkemio` is requested and the lookup for the fetched identity says not found. |
| ConsentTheorems.AuditFollowsAcceptNotResolution | internal/challenge/service.go:448-495 | An auto-accept audits once exactly when it sent a payload and Hydra took it, else never; then it still fails exactly when the redirect is missing or blank. |
| LoginSessions.SettledSessionsStaySettled | internal/challenge/service.go:227-292 | After any number of skip logins of a session that names one UUID, the next accepts that subject and context without the hint, and a consent fetches that identity. |
| LoginSessions.AcceptedContextNamesSubject | internal/challenge/service.go:746-759 | An accepted skip login's context reads back its subject; a standard login's does exactly when the Kratos id has no space around it. |
| LoginSessions.StandardLoginSettles | internal/challenge/service.go:294-334 | A standard login starts such a session exactly when Kratos gives a UUID without space around it. |
| LoginSessions.UnsettledSkipChangesIdentity | internal/challenge/service.go:256-292 | Without a UUID a skip asks for the hint, and if accepted moves the session to the hinted identity. |
| LoginSessions.UnauthorizedMeansNoIdentity | internal/challenge/service.go:294-313 | A login without skip fails with 401 exactly when Hydra names no subject and there is no hint, the hint says the session is missing or invalid, or the hint is blank; a hint that fails otherwise gives 500. |
| Refresh.Kratos.ReadAlkemioActorID | internal/challenge/refresh_resolver.go:22-24 | A read that does not fail gives what Kratos held for the identity in some store it was in during the call. |
| Refresh.Resolve | internal/challenge/refresh_resolver.go:89-119 | While others write to Kratos at will, the calls made replay as read, stamp, read, cut off where the answer is known; a non-empty answer was held in a store Kratos was in during the last read. |
| Refresh.ResolutionSummary | internal/challenge/refresh_resolver.go:84-119 | At most two reads and one stamp, the stamp only after an empty read; a non-empty id is what the last read gave; empty without error exactly when `alkemio` is not granted; otherwise only the temporary error. |
| Refresh.AnswerWasHeld | internal/challenge/refresh_resolver.go:96-118 | Of the calls of any resolution that answers with an id, the last is a read, and Kratos held that id while it was under way. |
| Refresh.StubTransports.Resolve | internal/challenge/refresh_resolver.go:128-167 | With the stub transports only the two known identities resolve, whatever was stamped before. |
| TokenHook.CloneClaims | internal/server/token_hook_handler.go:169-175 | A new map with the same entries, also for a nil map. |
| TokenHook.ServeHTTP | internal/server/token_hook_handler.go:105-164 | Each refusal with its status; otherwise two new maps that hold the actor id resolved for the session's subject and the granted scopes, and for the rest the request's claims; without an actor id just those. Request maps are not written. |
| TokenHook.HooksOnlyRefreshActor | internal/server/token_hook_handler.go:91-102 | After any number of calls both tokens hold the last non-empty resolved actor id, if there was one, and for the rest what consent made them. |
| TokenHook.OmissionIsHarmless | internal/server/token_hook_handler.go:91-102 | A reply reproduces what it echoes exactly when every empty token it leaves out is empty at Hydra too. |
| Webhook.KratosAdmin.PostLogin | internal/webhook/handler.go:92-134 | Success exactly when lookup and patch succeed; then the identity's public metadata is the looked-up actor id under both keys and nothing else. Each refusal with its status; no other identity changes. |
| Webhook.PatchDropsMatrixUser | internal/webhook/handler.go:102-114 | After the patch no profile or token of the identity has a Matrix user id; the patch leaves the profile alone exactly when it had none before. |
| TokenSystem.TokensCarryDirectoryActors | internal/challenge/service.go:702-741 | In every run of the whole system each token session carries, in both tokens, the directory actor of its subject when `alkemio` was granted, and none otherwise. |
| TokenSystem.KratosHoldsDirectoryActors | internal/webhook/handler.go:92-134 | In every run the actor id in an identity's Kratos metadata is its directory entry. |
| TokenSystemTheorems.AnswerWasHeldAtLastRead | internal/challenge/refresh_resolver.go:96-118 | In every run the id a hook answers with is what Kratos held for its subject at the step of its last read. |
| TokenSystemTheorems.AnswerReachesBothTokens | internal/server/token_hook_handler.go:145-159 | In every run, a hook that answers with an actor id leaves it in both tokens of its session. |
| TokenSystemTheorems.UndisturbedHookRefreshes | internal/challenge/refresh_resolver.go:89-103 | From every state of every run, an undisturbed hook of a session with `alkemio` puts the actor id Kratos holds into both tokens. |
| TokenSystemTheorems.UndisturbedHookRestores | internal/challenge/refresh_resolver.go:105-119 | When Kratos holds none, it puts there the one the re-stamper writes. |
| TokenSystemTheorems.PatchSetsHeldActor | internal/webhook/handler.go:102-114 | In every run, after a webhook's patch Kratos holds the actor id that was looked up, under both keys and nothing else. |
| TokenSystemTheorems.IssuedClaimsNeverChange | internal/server/token_hook_handler.go:91-102 | In every run, however hooks overlap and however stale their echoes are, no claim of an issued session but the actor id ever changes, nor its subject or scope. |
| TokenSystemTheorems.EveryActorReachesTokens | internal/challenge/service.go:448-495 | For every identity of the directory some run issues it a session whose access token carries its actor, given that there is a valid e-mail address. |
| TokenSystemTheorems.UserIdIsDirectoryActor | internal/webhook/handler.go:102-114 | The second key the webhook writes names the directory actor too, as long as nobody else writes a user id that differs from the actor id. |
| TokenSystem.HonestLookupsNameActor | internal/alkemio/composite_resolver.go:50-72 | Database first, API otherwise: if both only give directory entries, so does the lookup. |
| TokenSystem.RefreshedTokensAreGood | internal/server/token_hook_handler.go:125-159 | Applying a hook's reply to whatever the session has become keeps the tokens in agreement and the actor id right. |
| TokenSystem.ConsentStepsFollowResolution | internal/challenge/service.go:448-495 | The system's consent steps, taken together, issue exactly the session that resolving the consent challenge hands to Hydra, and none when it hands over none. |
| TokenSystem.StepKeepsInvariant | internal/server/token_hook_handler.go:119-164 | Every step of every party keeps stores, sessions and requests in progress right. |
| Coverage.CoverageIsNear | internal/docstringcov/analyzer/analyzer.go:387-393 | The rounded percentage is within 0.005 of the exact one. |
| Coverage.CoverageIsMonotone | internal/docstringcov/analyzer/analyzer.go:387-393 | A larger share never has a smaller rounded percentage. |
| Coverage.FullCoverage | internal/docstringcov/analyzer/analyzer.go:387-393 | 100 exactly when at most one export in 20000 is missing; below 20000 exports, exactly when none is. |
| Analyzer.CollectSymbols | internal/docstringcov/analyzer/analyzer.go:200-247 | All files' symbols in order, then the package with the first package comment there is. |
| AnalyzerTheorems.CommentIsFine | internal/docstringcov/analyzer/analyzer.go:331-385 | When a comment is fine, missing, wrongly begun or ill-formed, said of its text and of the name it must start with. |
| AnalyzerTheorems.PackageSymbolSays | internal/docstringcov/analyzer/analyzer.go:206-247 | The package symbol stands for the comment of the first file with one, or for none on line 1. |
| AnalyzerTheorems.ProblemsAreFaulty | internal/docstringcov/analyzer/analyzer.go:144-159 | The records are those of the faulty symbols, with their own names, files, lines and reasons. |
| AnalyzerTheorems.CountFineCounts | internal/docstringcov/analyzer/analyzer.go:144-150 | As many are counted as documented as there are symbols with a fine comment. |
| AnalyzerTheorems.ConsideredAreSound | internal/docstringcov/analyzer/analyzer.go:118-135 | Exactly the module's packages with Go files and without load errors count. |
| AnalyzerTheorems.BelowIsLexicographic | internal/docstringcov/analyzer/analyzer.go:160-165 | The order of names: a prefix first, otherwise the first difference decides. |
| Analyzer.AnalyzePackage | internal/docstringcov/analyzer/analyzer.go:137-174 | Fails exactly without files; otherwise counts are of all symbols, and the missing list is an ordered rearrangement of the faulty ones. |
| Analyzer.EverySymbolCountedOnce | internal/docstringcov/analyzer/analyzer.go:144-159 | Documented and recorded symbols together are all symbols. |
| Analyzer.MissingBelowIsPreorder | internal/docstringcov/analyzer/analyzer.go:160-165 | By symbol, then file, is a total order up to ties. |
| Analyzer.Analyze | internal/docstringcov/analyzer/analyzer.go:88-116 | Fails exactly on no packages or the first one without syntax; otherwise one result for each considered package, ordered by path, totals the sums over them, each with at least one export. |
| Analyzer.SumsOfRearranged | internal/docstringcov/analyzer/analyzer.go:105-113 | The totals do not depend on the order of the packages. |
| Threshold.EnforceThreshold | cmd/docstringcov/main.go:74-99 | Passes on a threshold of zero or less; otherwise reports exactly the failing packages and whether the overall coverage falls short. |
| Threshold.VerdictOnReport | cmd/docstringcov/main.go:74-99 | An analyzer report passes when every package reaches the threshold, and a package a hundredth short is among those it fails for. |
| Threshold.OverallBetweenPackages | cmd/docstringcov/main.go:74-99 | On an analyzer report the rounded overall coverage lies between two packages' rounded coverages. |
| Threshold.OverallReasonIsRedundant | cmd/docstringcov/main.go:88-94 | The overall reason is never reported without a failing package. |
| Threshold.Mediant | internal/docstringcov/analyzer/analyzer.go:105-113 | Some package has at most, and some at least, the share of the totals. |

## Left out

- HTTP servers and clients, routing, configuration, redirects and return URLs, redaction, the end-session handler: wiring or `net/url`; calls to Hydra, Kratos, the API and the database are answers given from outside.
- JSON text, mail-address parsing, Unicode letter tables: decoded values and predicates stand for them.
- Error messages and log text: statuses, codes and the readiness transition lines are kept.
- `fmt.Stringer` values among traits: decoded JSON has none.
- The 500 ms limit of a probe and the 5 s readiness check of the challenge service: probes may take any time here.
- Floating-point error in coverage percentages: the model computes with exact reals.
- Go slices that share part of a backing array: a slice here is a whole array.
- Building accept payloads setter by setter: record updates on values, since nothing else sees the payload before it is sent.
- Failed requests in `TokenSystem`: a request that fails or is abandoned is one whose later steps do not happen.
- Maintenance with several writers at once: the configured service has one.
