# Trustalo: a Dafny model of its stateful core

This project models the parts of Trustalo where a mistake would not show in any single function, and proves
what those parts promise:

- **The Postgres LISTEN/NOTIFY bus** (`ListenerProtocol`, `ListenerRuns`, `ListenerSteps`, `PgListener`). One event is the code
  between two awaits, or an act of the environment. `Step` is the transition function; `World` adds the dead
  connections, the notifications on the wire and the subscriptions that are owed a call. The class `Listener`
  updates the module state as the source does and is proved against `Step`.
- **The secret scrubber** (`Regex`, `Scrub`, `ScrubFixedPoint`, `SecretKinds`). Patterns have a declarative meaning (`Spells`) and
  a backtracking matcher proved sound and complete for it; `replace` with the g flag runs over that matcher
  (section 22.2 of ECMA-262). The result of the eight rewrites is a fixed point of all eight, and
  what the eight are is spelt out in `SecretKinds`.
- **License tokens** (`TokenCodec`, `LicenseValidation`, `LicenseRuns`, `LicensePermanence`). Unpadded base64url (section 5
  of RFC 4648), the token envelope, and the validator with its memo cache against the validator without one, over runs of overlapping calls.
- **Money math** (`Billing`). Floor arithmetic over unbounded integers, its exact inverse, batch error bounds.
- **AI provider resolution and its TTL cache** (`AiResolver`, `AiConfigCache`, `ResolveOrgAI`).
- **SPDX judgement by flattening** (`Spdx`, `SpdxMeaning`) and **the paged backfill** (`Backfill`).

`dafny verify dfyconfig.toml` checks everything.

## Where the code and its documentation differ

The model follows the code in each case.

- `refundMarkup` is documented as exact; it gives back the raw cost, or one microcent less exactly when the markup
  was rounded (`Billing.RefundUndoesMarkup`).
- The license cache joins key and feature with `|`, so that a malformed key can share a slot with a token and be answered
  from its entry (`LicenseRuns.SharedSlotAcceptsAMalformedKey`). A call whose key parses always gets the cacheless answer
  (`LicenseRuns.ParsedCallIsUnnoticed`); the exact conditions are `LicenseRuns.CallIsUnnoticedIff` for one call and
  `LicenseRuns.TransparentIffConflictFree` for a set of calls. The declared feature ids are free of `|`, with which no
  call conflicts; their type admits any string.
- For the same reason a malformed key without a dot can be rejected as expired and accepted later. Every other key stays
  rejected (`LicensePermanence.PermanentIffDotted`).
- A notification for an empty organisation id calls nobody, so the empty tenant can miss changes for good
  (`ListenerRuns.AccountedForIffNamed`).
- The backfill is documented never to overwrite an existing key; it replaces a `manifestKey` that is empty or not a
  string (`Backfill.KeyIsReplacedIff`).
- A Bedrock row that blanks a static key with an empty string, over an operator with static keys, resolves to
  credentials the Bedrock client refuses (`AiResolver.BedrockCanSignIff`, `AiResolver.EmptyKeyBreaksBedrock`).
- An AI config load that reads before a change and stores after the invalidation leaves old rows in the cache
  (`AiConfigCache.StraddlingLoadServesOldRows`). A change is served from its invalidation on if and only if no load was
  half-done (`AiConfigCache.ChangeIsServedIff`); the age of old rows stays bounded all the same.
- A mixed AND/OR license expression is judged as if every operator were AND, so it can be refused although it holds
  (`SpdxMeaning.MixedExpressionIsRefused`); the verdict is exact under all lists if and only if the operators are all OR
  or the expression needs every name in it (`SpdxMeaning.ExactIff`).

## Model

| member | source | states |
|---|---|---|
| ListenerProtocol.StepKeepsInv | apps/api/src/db/pg-listener.ts:85-222 | every segment keeps: at most one connect, ended clients distinct and never installed again, heartbeat armed exactly with a client, no empty handler set, delays from the backoff table, and never stuck |
| ListenerRuns.StepKeepsWorldInv | apps/api/src/db/pg-listener.ts:85-269 | every step, of the code or the environment, keeps each missed change of a named tenant accounted for: on the wire of the live client, or a healing broadcast pending |
| ListenerRuns.GapsAreAccountedFor | apps/api/src/db/pg-listener.ts:162-236 | in every run before shutdown, a registered subscription of a non-empty tenant not called since a change finds that change on a live wire or healing pending |
| ListenerRuns.EmptyTenantIsNotAccountedFor | apps/api/src/db/pg-listener.ts:252-254 | a run in which the empty tenant misses a change although nothing is wrong with the connection |
| ListenerRuns.AccountedForIffNamed | apps/api/src/db/pg-listener.ts:162-269 | all gaps of a subscription are accounted for in all runs if and only if its tenant is not empty |
| ListenerRuns.PendingPersists | apps/api/src/db/pg-listener.ts:162-236 | one event other than a broadcast with a LISTENing client cannot make pending healing disappear |
| ListenerRuns.PendingUntilHealed | apps/api/src/db/pg-listener.ts:203-236 | over any run, pending healing stays pending until a broadcast ran with a LISTENing client |
| ListenerRuns.BroadcastPaysEveryDebt | apps/api/src/db/pg-listener.ts:224-236 | the broadcast calls every live registration and leaves nobody owed |
| ListenerRuns.HealingIsWithinReach | apps/api/src/db/pg-listener.ts:115-236 | from every reachable pending state at most nine internal events, with one connect that succeeds, end in a healing broadcast |
| ListenerRuns.RetriesAreConserved | apps/api/src/db/pg-listener.ts:124-137 | over any run, timers pending plus fired equal failed connects plus finished teardowns: one retry each, however many callers wait |
| ListenerRuns.NoTimerAfterShutdown | apps/api/src/db/pg-listener.ts:203-206 | once shut down, no segment creates a reconnect timer |
| ListenerRuns.ShutdownQuiesces | apps/api/src/db/pg-listener.ts:185-222 | after shutdown and without API calls, a weighted measure bounds how many events can still change anything, even when a late connect installs its client |
| ListenerRuns.TheBusIsNeverStuck | apps/api/src/db/pg-listener.ts:85-137 | after the first subscribe or notify and before shutdown there is always a client, a connect, a teardown or a timer |
| ListenerRuns.InstallsAreExclusive | apps/api/src/db/pg-listener.ts:115-121 | whenever a connect is in flight no client is installed, so an install replaces none; heartbeat exactly with a client |
| ListenerRuns.EndedAtMostOnce | apps/api/src/db/pg-listener.ts:185-201 | over any run end() is called at most once per client, never on the installed one |
| ListenerRuns.OlderClientsAreHarmless | apps/api/src/db/pg-listener.ts:185-189 | error, end and heartbeat failure of a client that is not installed change nothing |
| ListenerRuns.MapHoldsTheRegistrations | apps/api/src/db/pg-listener.ts:289-311 | over any run the map of sets holds exactly the pairs subscribed and not unsubscribed since |
| ListenerSteps.GoneClientIsTakenDown | apps/api/src/db/pg-listener.ts:100-113 | the error event, the end event or the failed heartbeat of the installed client takes it down at once and calls end() on it, and changes nothing else |
| ListenerSteps.EndAfterShutdownIsIgnored | apps/api/src/db/pg-listener.ts:107-110 | once shut down, an end event changes nothing |
| ListenerSteps.SettledEndSchedulesOne | apps/api/src/db/pg-listener.ts:194-206 | when end() settles, exactly one timer is added, with the delay that is due, or none after shutdown |
| ListenerSteps.GoneClientIsReplaced | apps/api/src/db/pg-listener.ts:107-221 | a client found gone is replaced through end(), timer and connect by one that never was before, with a broadcast due and the backoff at its start |
| ListenerSteps.RetriesBackOff | apps/api/src/db/pg-listener.ts:47-206 | over any run without a success, retries wait one second, two seconds, and then five each time, counted from the last success |
| ListenerSteps.SuccessResetsTheBackoff | apps/api/src/db/pg-listener.ts:118-119 | a connect that succeeds starts the backoff over |
| ListenerSteps.OwnerClearsTheConnect | apps/api/src/db/pg-listener.ts:124-137 | the caller that made the connect clears it in any case, and sets one due timer after a failure unless shut down |
| ListenerSteps.WellClientStays | apps/api/src/db/pg-listener.ts:162-172 | a heartbeat that finds the installed client well leaves the bus as it was |
| ListenerSteps.RequestsShareOneConnect | apps/api/src/db/pg-listener.ts:85-89 | over any run of subscribes and notifies, one connect is started if nobody is installed and none is under way, and else none |
| ListenerSteps.FiredTimersAreConserved | apps/api/src/db/pg-listener.ts:208-221 | over any run, each timer that fires ends in one broadcast, waits for its connect, or was lost with it |
| ListenerSteps.TimerFiresOnce | apps/api/src/db/pg-listener.ts:208-221 | a timer that fires is gone, and no other |
| ListenerSteps.ShutdownClearsTheBus | apps/api/src/db/pg-listener.ts:344-352 | shutdown leaves nobody installed or registered and the heartbeat disarmed, calls end() on the installed client, and touches nothing else |
| ListenerSteps.EnvironmentIsFree | apps/api/src/db/pg-listener.ts:85-113 | nothing in the model keeps connections from dying or failing, changes from being made, or old clients from delivering |
| ListenerSteps.ChangeIsOwed | apps/api/src/db/pg-listener.ts:238-268 | after the first LISTEN a change is owed to everybody registered for its tenant, and on the wire if the client still LISTENs |
| PgListener.ReasonOf | apps/api/src/db/pg-listener.ts:253-275 | the four known reasons are passed on, anything else counts as created |
| PgListener.Listener.EnsureClient | apps/api/src/db/pg-listener.ts:85-89 | reuses the client, piggybacks on a connect, or starts one: the transition of the protocol |
| PgListener.Listener.ConnectSucceeded | apps/api/src/db/pg-listener.ts:115-121 | installs the client over none, resets the backoff, arms the heartbeat |
| PgListener.Listener.ConnectFailed | apps/api/src/db/pg-listener.ts:124-137 | the connect rejects; nothing is scheduled yet |
| PgListener.Listener.OwnerResumed | apps/api/src/db/pg-listener.ts:124-137 | only the caller that created the connect schedules the retry and clears the promise |
| PgListener.Listener.TeardownAndReconnect | apps/api/src/db/pg-listener.ts:185-195 | takes down the client if it is the installed one, else leaves the state as it was |
| PgListener.Listener.OnEnd | apps/api/src/db/pg-listener.ts:107-113 | an end event tears down unless shutting down |
| PgListener.Listener.EndSettled | apps/api/src/db/pg-listener.ts:194-201 | the end of a teardown schedules one reconnect |
| PgListener.Listener.ScheduleReconnect | apps/api/src/db/pg-listener.ts:203-222 | appends one timer with the next delay of the backoff table, nothing when shutting down |
| PgListener.Listener.RunHeartbeat | apps/api/src/db/pg-listener.ts:162-164 | probes the installed client |
| PgListener.Listener.ProbeSettled | apps/api/src/db/pg-listener.ts:170-178 | a failed or late probe tears down the client it probed, if it is still installed |
| PgListener.Listener.TimerFired | apps/api/src/db/pg-listener.ts:208-221 | the callback asks for a client and broadcasts later if it gets one |
| PgListener.Listener.BroadcastReconnected | apps/api/src/db/pg-listener.ts:224-236 | every live registration is called exactly once with reason reconnect, a handler that throws is logged and the loop goes on; the calls made are those the runs count as called |
| PgListener.Listener.HandleNotification | apps/api/src/db/pg-listener.ts:238-269 | a well-formed message calls each handler of its own org exactly once and nobody else, whichever handlers throw; JSON null makes it throw; the calls made are those the runs count as called |
| PgListener.Listener.SubscribeProposalChanged | apps/api/src/db/pg-listener.ts:289-301 | adds exactly the pair and asks for a client |
| PgListener.Listener.Unsubscribe | apps/api/src/db/pg-listener.ts:303-310 | removes exactly the pair, at any repetition, and no empty set stays |
| PgListener.Listener.NotifyProposalChanged | apps/api/src/db/pg-listener.ts:320-326 | asks for a client, up to the first await |
| PgListener.Listener.ShutdownPgListener | apps/api/src/db/pg-listener.ts:344-357 | flag, heartbeat, subscribers and client go; end() is called on the client |
| Regex.MatchIsSound | apps/api/src/config/deployment.ts:55-77 | what the backtracking matcher finds is a span the pattern describes |
| Regex.MatchIsComplete | apps/api/src/config/deployment.ts:55-77 | where the pattern describes some span, the matcher finds one |
| Scrub.MatchesAreBracketFree | apps/api/src/config/deployment.ts:55-77 | no match of any pattern is empty or contains a bracket; each starts with a letter or digit |
| Scrub.MatchEndsOutside | apps/api/src/config/deployment.ts:55-77 | after a greedy match comes the end of the text or a character that is no letter or digit, so no match starts there |
| ScrubFixedPoint.CopiedMatch | apps/api/src/config/deployment.ts:84-90 | a match of an earlier pattern over copied text, even one that straddles the kept "Bearer ", was a match before the rewrite |
| ScrubFixedPoint.RewriteKeepsFree | apps/api/src/config/deployment.ts:84-90 | a rewrite frees the text of its own pattern and re-creates no match of an earlier one |
| ScrubFixedPoint.ScrubbedIsFree | apps/api/src/config/deployment.ts:55-90 | no span of the output matches any of the eight patterns, boundaries read in the output |
| ScrubFixedPoint.ScrubbingIsIdempotent | apps/api/src/config/deployment.ts:84-90 | scrubbing twice is scrubbing once; a message is unchanged if and only if no pattern matches it |
| ScrubFixedPoint.RewritesOnlyRedact | apps/api/src/config/deployment.ts:84-90 | each rewrite replaces spans of its pattern and keeps every other character, and keeps none where a span starts |
| ScrubFixedPoint.ScrubSecrets | apps/api/src/config/deployment.ts:84-90 | the loop computes the eight rewrites in order and its result is free of all patterns |
| SecretKinds.SecretsAreSpelled | apps/api/src/config/deployment.ts:55-77 | each pattern describes exactly the spans of its kind of secret, spelt out in literal texts and character ranges |
| SecretKinds.NoSecretIsLeft | apps/api/src/config/deployment.ts:55-90 | no OpenAI, Anthropic, OpenRouter or AWS key, JWT, bearer token or long hex token, so spelt out, is left in the output of any message |
| SecretKinds.UnchangedIffNoSecret | apps/api/src/config/deployment.ts:84-90 | a message stays as it is if and only if it holds no such secret |
| SecretKinds.EachKindGetsItsTag | apps/api/src/config/deployment.ts:55-90 | in order, each rewrite replaces the secrets of its kind by the literal tag of that kind and keeps every other character |
| SecretKinds.OneSecretBecomesItsTag | apps/api/src/config/deployment.ts:55-90 | a message that is one secret and holds none of an earlier kind becomes the tag of its kind |
| TokenCodec.GroupsCarryTheBytes | packages/license/src/encoding.ts:21-23 | each group of three bytes and of four sextets is the same number, with the short last groups of RFC 4648 |
| TokenCodec.DecodeEncode | packages/license/src/encoding.ts:21-33 | decode undoes encode for every length |
| TokenCodec.EncodeUsesTheAlphabet | packages/license/src/encoding.ts:21-23 | each character of an encoding is the one its sextet names in the literal base64url alphabet |
| TokenCodec.CharIsReadByItsPlace | packages/license/src/encoding.ts:25-33 | a character is read as its place in that alphabet, plus and slash as the last two, and nothing else is read |
| TokenCodec.ReadOneMore | packages/license/src/encoding.ts:25-33 | decoding reads character by character and skips what it cannot read |
| TokenCodec.GroupsAreRead | packages/license/src/encoding.ts:25-33 | any four sextets, canonical or not, decode to the bytes of the same number, short last groups without their spare bits |
| TokenCodec.FirstDotIsTheSeparator | packages/license/src/encoding.ts:46-52 | the first dot is the separator |
| TokenCodec.ParseBuild | packages/license/src/encoding.ts:35-73 | parsing a built token gives back payload and signature, if and only if payload is non-empty JSON and the signature has 64 bytes |
| TokenCodec.TokenIsSpelledOut | packages/license/src/encoding.ts:35-37 | a built token is the literal prefix, the payload, a dot and the signature |
| TokenCodec.TextsThatAreNoTokens | packages/license/src/encoding.ts:39-50 | when a text is empty, without the prefix, or without a dot after it |
| TokenCodec.TextsCutAtTheDot | packages/license/src/encoding.ts:46-73 | what parsing makes of any other text, from its halves around the first dot |
| TokenCodec.BuildIsInjective | packages/license/src/encoding.ts:35-37 | two contents never share a token |
| TokenCodec.ExtensionIsTheSameToken | packages/license/src/encoding.ts:46-64 | a key and an extension of it that both parse are the same token, because a signature of 64 bytes leaves no room for more |
| LicenseValidation.SlotsAreSharedIff | packages/license/src/validator.ts:94-95 | when two calls share a cache slot |
| LicenseValidation.AcceptedIff | packages/license/src/validator.ts:102-219 | acceptance is exactly: parses, schema, some in-window key verifies, tier, validity with skew, entitlement, not revoked |
| LicenseValidation.FirstFailedCheckIsTheCode | packages/license/src/validator.ts:102-219 | each of the nine error codes, and acceptance, if and only if its check on token, claims, clock and sets is the first that fails |
| LicenseValidation.RotationKeepsAccepting | packages/license/src/validator.ts:129-143 | adding or reordering trusted keys never turns an accept into a reject |
| LicenseValidation.RejectionIsPermanent | packages/license/src/validator.ts:180-219 | expired or revoked stays rejected at any later moment with more revocations, for any feature |
| LicenseValidation.FinishIsCacheless | packages/license/src/validator.ts:102-165 | the halves of a call before and after its awaits make up the cacheless answer at the moment of the second half |
| LicenseRuns.RunsAreCoherent | packages/license/src/validator.ts:93-165 | over any run of overlapping calls each cache entry holds the claims of a call made with that cache key whose token passed the static checks |
| LicenseRuns.CacheIsTransparent | packages/license/src/validator.ts:93-165 | over any run of overlapping calls without conflicts, clock readings and revocation sets, each answer, claims or error code, is the cacheless one at the moment of its late checks |
| LicenseRuns.ConflictIsMalformed | packages/license/src/validator.ts:94-106 | of two calls that share a cache key, the first with a key that parses, they conflict if and only if the second key is malformed |
| LicenseRuns.ParsedCallIsUnnoticed | packages/license/src/validator.ts:93-165 | a call whose key parses gets the cacheless answer in every run, whatever the other calls are |
| LicenseRuns.CallIsUnnoticedIff | packages/license/src/validator.ts:93-165 | the exact condition for one call: its key parses, or no key that parses shares its cache key |
| LicenseRuns.ConflictIsNoticed | packages/license/src/validator.ts:94-100 | a malformed key that shares a cache key with a token is answered from its entry in some world and run |
| LicenseRuns.TransparentIffConflictFree | packages/license/src/validator.ts:93-165 | the exact condition: a set of calls never notices the cache, in any world and interleaving, if and only if no two of them conflict |
| LicenseRuns.SeparatedCallsAreConflictFree | packages/license/src/validator.ts:94 | calls whose keys, or whose feature ids, are free of the separator never conflict |
| LicenseRuns.SharedSlotAcceptsAMalformedKey | packages/license/src/validator.ts:94-106 | for any accepted payload and signature whose claims carry the wildcard feature: the key with a bar after its dot is accepted, and then the malformed key cut off at the bar is answered with its claims |
| LicensePermanence.DottedJudgesItsPayload | packages/license/src/validator.ts:93-165 | a key with a dot after the prefix is judged by the claims in its own payload, even from an entry that another key left |
| LicensePermanence.RejectedStaysRejected | packages/license/src/validator.ts:93-219 | over any run that goes forward, such a key rejected as expired or revoked is never accepted again, cached or not, whatever the other calls are |
| LicensePermanence.ParsedStaysRejected | packages/license/src/validator.ts:93-219 | in particular a key that parses |
| LicensePermanence.StaysRejectedWithoutConflicts | packages/license/src/validator.ts:93-219 | any key, when no two calls of the run conflict |
| LicensePermanence.UndottedComesBack | packages/license/src/validator.ts:94-100 | a malformed key without the dot is rejected as expired from one token's entry and then accepted from another's |
| LicensePermanence.PermanentIffDotted | packages/license/src/validator.ts:93-219 | the exact condition: rejections of a key are permanent in every world and run if and only if, having the prefix, it has the dot |
| LicenseRuns.Validator.SignatureOk | packages/license/src/validator.ts:129-143 | the key loop succeeds if and only if some trusted key verifies with iat in its window |
| LicenseRuns.Validator.ValidateUpToAwait | packages/license/src/validator.ts:93-120 | the lookup, the parse and the schema; what awaits has a parsed token that fits the schema |
| LicenseRuns.Validator.ValidateAfterAwait | packages/license/src/validator.ts:120-165 | the answer is the cacheless one at this moment, and only an accepted call leaves an entry |
| Billing.MarkupIsTheFloorOfThePrice | packages/billing.ee/src/markup.ee.ts:36-45 | succeeds exactly on valid arguments, with the largest whole amount not above the exact price |
| Billing.RefundUndoesMarkup | packages/billing.ee/src/markup.ee.ts:53-59 | refund of markup is x, or x - 1 exactly when the markup was rounded |
| Billing.RefundCanLoseOne | packages/billing.ee/src/markup.ee.ts:53-59 | one microcent at one basis point is refunded as none |
| Billing.RefundIsTheQuotient | packages/billing.ee/src/markup.ee.ts:53-59 | a refund of any amount is the quotient truncated toward zero, also below minus 100 percent |
| Billing.MoneyErrors | packages/billing.ee/src/markup.ee.ts:36-59 | which error markup and refund give |
| Billing.DollarsAreRoundedHalfUp | packages/billing.ee/src/markup.ee.ts:66-73 | dollars become the nearest number of microcents, the larger one on a tie |
| Billing.MarkupIsMonotone | packages/billing.ee/src/markup.ee.ts:36-45 | markup grows with the amount and with the rate |
| Billing.BatchRounding | packages/billing.ee/src/markup.ee.ts:36-45 | marking up a total of n amounts exceeds the sum of single markups by 0 to n - 1 |
| Billing.BilledIsNearThePrice | packages/billing.ee/src/spend-aggregator.ee.ts:61-82 | n managed records are billed within n((10000+b)/20000 + 1) microcents of the exact price of their total |
| Billing.EventsMirrorRecords | packages/billing.ee/src/spend-aggregator.ee.ts:61-82 | when a batch succeeds and with which error it fails; events stand for records one by one with every field; no markup outside the managed mode |
| AiResolver.ComputeFromEnv | apps/api/src/config/ai.ts:76-172 | fail closed: enabled only with the asked provider and what it needs, default chain off exactly with both static keys |
| AiResolver.OperatorRunsOnItsOwnVariables | apps/api/src/config/ai.ts:101-161 | each of the five providers runs exactly when its own variables are set, on those variables and no others |
| AiResolver.OtherNamesRunNothing | apps/api/src/config/ai.ts:76-99 | no provider, none, and unknown names run nothing, each with its reason |
| AiResolver.DefaultModels | packages/ai/src/types.ts:164-170 | the default model of each provider |
| AiResolver.ProviderLookupsTakeTheFirst | packages/ai/src/resolve.ts:172-206 | both provider lookups find the first row that fits, or none does |
| AiResolver.FeatureLookupTakesTheFirst | packages/ai/src/resolve.ts:168 | so does the feature lookup |
| AiResolver.CredentialsFollowTheProvider | packages/ai/src/resolve.ts:159-256 | whichever layer decides, each credential field comes from the first enabled row of the resolved provider, else from the operator running that provider |
| AiResolver.FailsOnlyWithNothingToUse | packages/ai/src/resolve.ts:135-233 | fails, with the operator's reason, if and only if no override, no enabled row and no usable operator; an override wins |
| AiResolver.LayersInOrder | packages/ai/src/resolve.ts:168-230 | feature row if its provider is usable, else the provider of the first enabled row, else the operator's, with the model of each layer |
| AiResolver.DisabledRowsDoNotMatter | packages/ai/src/resolve.ts:168-206 | deleting all disabled rows changes nothing |
| AiResolver.BedrockCanSignIff | packages/ai/src/resolve.ts:251-254 | Bedrock without the default chain has both static keys except when a row blanks one with an empty string over operator keys |
| AiResolver.EmptyKeyBreaksBedrock | packages/ai/src/resolve.ts:243-254 | an instance of that case |
| AiConfigCache.AiConfig.LookUpProviders | apps/api/src/config/ai.ts:180-186 | a hit exactly for an entry stored less than 300000 milliseconds ago |
| AiConfigCache.AiConfig.StoreProviders | apps/api/src/config/ai.ts:197-198 | the rows are found again at once; the other cache is untouched |
| AiConfigCache.AiConfig.LookUpFeatures | apps/api/src/config/ai.ts:201-203 | the same for the feature rows |
| AiConfigCache.AiConfig.StoreFeatures | apps/api/src/config/ai.ts:211-212 | the same for the feature rows |
| AiConfigCache.AiConfig.InvalidateAIConfigCache | apps/api/src/config/ai.ts:216-219 | both caches forget this organisation and keep every other one's entries |
| AiConfigCache.LoadReturnsWhatItRead | apps/api/src/config/ai.ts:184-199 | a load that misses returns the rows it read and leaves them for the next caller |
| AiConfigCache.FailedLoadLeavesNoTrace | apps/api/src/config/ai.ts:184-199 | a load that fails returns nothing and leaves the cache as it was |
| AiConfigCache.BoundedStaleness | apps/api/src/config/ai.ts:184-213 | under any interleaving, rows returned were in the table less than TTL plus longest query ago |
| AiConfigCache.SettledAgrees | apps/api/src/config/ai.ts:184-219 | after a change followed by an invalidation that no half-done load straddles, cache and loads hold the table's rows |
| AiConfigCache.AnswersAreTheTable | apps/api/src/config/ai.ts:184-219 | in such a moment a loader returns the table's rows |
| ResolveOrgAI.TablesHaveTheirRuns | apps/api/src/config/ai.ts:181-219 | over one clock, shared invalidations and calls that load from both, each table lives through a run of its own |
| ResolveOrgAI.QuietCallsAgree | apps/api/src/config/ai.ts:184-258 | what the loads of a quiet call have given so far is what both tables hold now |
| ResolveOrgAI.ResolveOrgAIAgrees | apps/api/src/config/ai.ts:249-258 | a resolveOrgAI call that starts settled and ends before its organisation's rows change returns the resolution of the rows both tables hold at its end; a table whose load failed counts as empty |
| ResolveOrgAI.CallReturnsWhatItRead | apps/api/src/config/ai.ts:249-258 | a call that finds nothing cached returns the resolution of what its two loads read, a failed one counting as no rows |
| ResolveOrgAI.OverrideAnswersAtOnce | packages/ai/src/resolve.ts:141-157 | an override answers at once and starts no load |
| AiConfigCache.InvalidationIsExact | apps/api/src/config/ai.ts:184-219 | from an invalidation on, loaders return the rows the table holds at it, in every continuation without a change, if and only if the half-done loads have read those rows |
| AiConfigCache.ChangeIsServedIff | apps/api/src/config/ai.ts:184-219 | a change invalidated at once is served from there on, whatever the new rows are, if and only if no load was half-done |
| AiConfigCache.StraddlingLoadServesOldRows | apps/api/src/config/ai.ts:184-219 | an instance of the failing case: a straddling load makes the next caller get the old rows |
| AiConfigCache.OrganisationsAreIndependent | apps/api/src/config/ai.ts:181-219 | what an organisation sees of a run is unchanged when every other organisation's events are struck out |
| Spdx.SeparatorMatch | scripts/license-check.ts:266 | what the separator pattern matches: all the white space around one operator |
| Spdx.ReadTokens | scripts/license-check.ts:267-272 | the loop reads clauses from even places and operators from odd ones |
| Spdx.EvaluateLicense | scripts/license-check.ts:262-295 | the verdict is `Evaluate` of the text |
| SpdxMeaning.PrintedIsItsLayout | scripts/license-check.ts:263 | blanking the parentheses of a printed expression leaves names and operators in order, set off by white space |
| SpdxMeaning.SplittingRecoversTheTree | scripts/license-check.ts:263-272 | cleaning and splitting a printed expression gives back its names and operators in order |
| SpdxMeaning.VerdictOnLayout | scripts/license-check.ts:262-295 | all three verdicts on any text of names and operators in turn |
| SpdxMeaning.VerdictOnTree | scripts/license-check.ts:274-295 | all three verdicts on a printed expression, from its names |
| SpdxMeaning.OkayMeansItHolds | scripts/license-check.ts:257-295 | ok implies the expression holds, under any lists, and exactly so with only OR or only AND |
| SpdxMeaning.ExactIff | scripts/license-check.ts:274-295 | for any expression, repeated names included, the verdict is exact under all lists if and only if the operators are all OR or every name in it is needed |
| SpdxMeaning.ExactIffNotMixed | scripts/license-check.ts:287-294 | for distinct names: if and only if the operators are all OR or all AND |
| SpdxMeaning.MixedExpressionIsRefused | scripts/license-check.ts:287-294 | "(MIT OR GPL-3.0-only) AND ISC" is denied although it holds |
| SpdxMeaning.StrippingKeepsTheVerdict | scripts/license-check.ts:231-236 | stripping outer parentheses never changes the verdict; the empty text is judged as UNKNOWN |
| SpdxMeaning.FieldsThatAreNoTexts | scripts/license-check.ts:232-242 | an object counts as its type, else its license, else as UNKNOWN like everything else |
| SpdxMeaning.NoLegacyEntries | scripts/license-check.ts:246-254 | legacy entries give no text exactly when none has a type |
| SpdxMeaning.OuterSpaceDoesNotMatter | scripts/license-check.ts:263 | white space around a text never changes the verdict |
| SpdxMeaning.LegacyEntriesAreAlternatives | scripts/license-check.ts:246-255 | entries that are names and operators in turn, with parentheses and white space anywhere, pass together only if one passes alone, and exactly then when no entry has an AND |
| Backfill.PageIsTheNextPage | apps/api/scripts/backfill-evidence-manifestkey.ts:63-76 | cursor, skip and take ask for the automated rows of the smallest ids above the cursor, in order, as many as asked for |
| Backfill.PageIsNext | apps/api/scripts/backfill-evidence-manifestkey.ts:63-77 | the next page is the next rows of the original table, whether or not earlier ones were updated, and short only at the end |
| Backfill.VisitIsNext | apps/api/scripts/backfill-evidence-manifestkey.ts:79-120 | visiting the next row takes table and summary exactly one step on |
| Backfill.AutomatedIsSorted | apps/api/scripts/backfill-evidence-manifestkey.ts:63-66 | the visited rows are exactly the automated ones, in id order, each once |
| Backfill.Run | apps/api/scripts/backfill-evidence-manifestkey.ts:54-125 | for any batch size the loop ends, visits every automated row once in id order, fixes exactly those when applying and none in a dry run, with the same summary |
| Backfill.KeyInSourceIdIff | apps/api/scripts/backfill-evidence-manifestkey.ts:89-95 | the inferred key is exactly a head of key characters before a double colon |
| Backfill.KeyCharacters | apps/api/scripts/backfill-evidence-manifestkey.ts:91 | the characters a key may have |
| Backfill.WrittenKeyComesFromTheRow | apps/api/scripts/backfill-evidence-manifestkey.ts:86-119 | which rows change and what is written, said of the texts in the row: the key that ends at any double colon of the source id, failing that the source type |
| Backfill.NamespacedIdGivesItsKey | apps/api/scripts/backfill-evidence-manifestkey.ts:89-95 | an id written key::source::control gives the key back |
| Backfill.FixAllKeepsEverythingElse | apps/api/scripts/backfill-evidence-manifestkey.ts:79-118 | apart from its three markers nothing is altered; a non-empty key protects the row |
| Backfill.KeyIsReplacedIff | apps/api/scripts/backfill-evidence-manifestkey.ts:80-117 | when an existing manifestKey is replaced |
| Backfill.NumberKeyIsReplaced | apps/api/scripts/backfill-evidence-manifestkey.ts:80-117 | the number 7 as manifestKey gives way to the source type |
| Backfill.SecondRunChangesNothing | apps/api/scripts/backfill-evidence-manifestkey.ts:79-120 | a second run at any time updates no row and counts every row as unchanged |
| Backfill.TallyCounts | apps/api/scripts/backfill-evidence-manifestkey.ts:143-158 | per tenant the summary counts the rows in each bucket and total is their sum |
| Backfill.TotalsSumToProcessed | apps/api/scripts/backfill-evidence-manifestkey.ts:122-135 | the totals of all tenants add up to the rows processed |

## Left out

The bus:

- Changes before the first successful LISTEN are not healed by the bus and are not owed in the model; a connect in flight at shutdown can still install its client, and no lemma says otherwise.
- An old client can still deliver notifications (event `DeliverStray`), so delivery is at least once.
- HealingIsWithinReach: shows a way to heal, not that the network takes it; a `client.end()` that never settles keeps a teardown pending forever.
- The order in which a Map or Set is iterated, and handlers that change the map while it is iterated.
- `notifyProposalChanged` after its first await (the pg_notify query), log texts, `unref`, and real time: timers carry their delay but fire in any order.

The scrubber:

- The alternation `(?:proj|svcacct)` of the first pattern is multiplied out into two literal heads; texts are sequences of Dafny characters, not UTF-16 code units.
- `getDeploymentMode` and `publicErrorMessage`: single-branch choices around the scrubber.

Licenses:

- Ed25519, JSON parsing and the claims schema are uninterpreted functions; NODE_ENV, trusted keys and skew are fixed. A call is two steps, up to its first await and after its last; what lies between reads nothing that changes.
- The decoder of `TokenCodec` follows Node's on canonical input and skips characters outside the alphabet; other lenient corners of Node's decoder are not part of this model.
- Building after parsing is not the identity for tokens that are not canonical, and no lemma says it is.
- Error messages, `_issueForTesting`, `generateKeypair`.

Billing:

- BilledIsNearThePrice: dollars and markups are reals, so NaN, infinities and IEEE rounding are not modelled; `microcentsToDollars` is for display only.

AI configuration:

- Registration of the managed-routing hook and its own failures; an override is a value or absent. `createAIProvider`, `buildLiteLLMOverride`, reasons as text, and decryption of stored keys.
- The clock of the caches does not go back.
- ResolveOrgAIAgrees: a call during which its organisation's rows change is promised only what `BoundedStaleness` says of each table.

SPDX:

- The allow and deny lists are parameters, so the theorems hold for any lists; `ALLOWED_PACKAGES`, the package walkers and the report are I/O and tables.
- LegacyEntriesAreAlternatives: entries with an operator that has no name on one side, and blank entries, are not covered.

Backfill:

- Ids are ranks in the database's order and the table is kept sorted by them; metadata that is neither null nor an object, rows added or removed while the script runs, and console output are not modelled.
