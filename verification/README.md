# Verification of the private API

A Dafny model of the logic of `apps/private-api`: the realtime market stream, the authentication protocol, the
credential store and the codecs they rely on. `dafny verify dfyconfig.toml` checks the project.

**Realtime market stream.** `LaneHub` is the shared lane state with its bounded price map; `LaneClient` the
WebSocket-first client behind the provenance gate and the loop that drives it into the hub. `SessionMachine` gives
one stream session as a transition system whose steps are the pieces of `snapshot_for` and `next_delta_for` between
two awaits, together with everything that can happen in between: cancellation, rebinding, eviction, hub operations.
`SessionAlignment`, `SessionOrder`, `SessionPrices`, `SessionProvenance` and `SessionFailures` prove what every run
of it keeps; `SessionDuties` states what each of its steps owes the client. `SessionSource` is the real source with its three bounded maps shared by all sessions; its methods are
proved to take the steps of the machine, so the results hold for every session at once. `Bars` is candle
normalisation, `Identity` chain and address identity.

**Authentication.** `Transport` holds the lock-guarded maps and the key-epoch registry, one method per critical
section. `AuthProtocol` runs the handlers concurrently, one step per critical section, with any number of requests
in flight; `AuthChallenges`, `AuthEnrollment`, `AuthGrants` and `AuthProvenance` prove safety over every
interleaving, and `AuthReach` that the policy is attained and a login can be carried through. `AuthServer` is the server with its maps, registry, credentials and lock; its methods are proved to take
the steps of the protocol and to keep all of its invariants. Random tokens are assumed fresh; clock readings are
arbitrary per request.

**Credential store.** `PasskeyStore` records every disk state a request passes through and lets the process crash in
any of them. The document codec and the WebAuthn record update are parameters: decoding inverts encoding, and an
update keeps the credential id and never lowers its counter.

**Codecs and projections.** `Base64`, `Hex`, `Percent`, `ActivityPage`, `Abi` and `Holders`.

Where the code does less than its documentation or its comments say:

- A lane price is meant to be emitted once per generation. With two spellings of one address in the hub a
  session can be shown an older price after a newer one (`SessionSpellings.TwoSpellingsGoBack`). For each target and
  configuration it cannot if and only if the hub keeps a single price, the chain compares addresses exactly, or the
  address has no letter (`SessionSpellings.PricesKeepOrderIff`).
- A stream is meant to end after six failed polls in a row. With a lane attached the outage report returns from the
  call first, so the count never gets there (`SessionFailures.EndsExactlyAfterSixFailures`); the branch that
  restores the `polling` label after an outage is never taken (`SessionOrder.RecoveryIsUnreachable`).
- The store bounds the document it loads but not the one it writes, so an accepted registration can leave a store
  that no longer opens (`PasskeyStore.ReopensIff`, `PasskeyStore.AcceptedRegistrationsLockOut`).

## Model

| member | source | states |
|---|---|---|
| Bars.NormalizeBars | apps/private-api/src/fomo_market.rs:204-221 | the filter, sort, in-place dedupe and drain return `Normalize(raw)`, which is the normal form of the raw rows |
| Bars.NormalizeIsNormalForm | apps/private-api/src/fomo_market.rs:202-221 | every kept bar is the last valid input of its timestamp, timestamps strictly ascend, and nothing valid is missing unless the cap is full of newer bars |
| Bars.NormalFormUnique | apps/private-api/src/fomo_market.rs:202-221 | those properties admit one result only |
| Bars.NormalizeIff | apps/private-api/src/fomo_market.rs:202-221 | a series is the result if and only if it has those properties |
| Bars.NormalizeKeepsNewest | apps/private-api/src/fomo_market.rs:216-219 | exactly the newest distinct valid timestamps survive, at most 1500 of them |
| Bars.NormalizeIdempotent | apps/private-api/src/fomo_market.rs:204-221 | normalising a normalised series changes nothing |
| Bars.StableSortFacts | apps/private-api/src/fomo_market.rs:206-208 | the sort ascends and keeps the input order of equal timestamps |
| Bars.ValidBarIff | apps/private-api/src/fomo_market.rs:180-200 | a bar is valid if and only if its time is in range, its volume is finite and not negative, and its prices are a finite envelope: a positive low, a high, open and close between them |
| Identity.TargetOfEntityKey | apps/private-api/src/fomo_market.rs:409-426 | an entity key with a valid address reads back to its target |
| Identity.EntityKeyInjective | apps/private-api/src/fomo_market.rs:422-426 | two targets with valid addresses share an entity key only if chain and address are the same |
| Identity.SlugRoundTrip | apps/private-api/src/fomo_market.rs:249-273 | every accepted spelling of a chain maps to one canonical slug of the same network |
| Identity.ChainTable | apps/private-api/src/fomo_market.rs:249-260 | the network ids of the accepted chain spellings, as one literal table |
| Identity.CanonicalTable | apps/private-api/src/fomo_market.rs:264-273 | the canonical slugs of the network ids, as one literal table |
| Identity.WindowTable | apps/private-api/src/fomo_market.rs:228-238 | the resolutions of the chart windows, as one literal table |
| Identity.CaseRule | apps/private-api/src/fomo_market.rs:323-334 | letter case is ignored exactly on networks 8453, 1 and 56 |
| Identity.PriceMatchesIff | apps/private-api/src/fomo_market.rs:2565-2577 | a lane price belongs to a target if and only if the network is that of its chain and the addresses are equal, up to letter case on those networks |
| Identity.ValidatedIff | apps/private-api/src/fomo_market.rs:409-420 | a target is valid if and only if chain and window are in the tables and the address is one to 128 ASCII letters and digits |
| Identity.EntityKeyPrefix | apps/private-api/src/fomo_market.rs:422-426 | every key starts with `ohlcv:` |
| Text.TrimKeeps | apps/private-api/src/fomo_market.rs:249-251 | trimming keeps everything but the white space at both ends |
| Text.SameLowerIff | apps/private-api/src/fomo_market.rs:385-392 | two strings agree up to ASCII case if and only if each pair of characters is equal or one letter in two cases |
| LaneHub.LaneHub.constructor | apps/private-api/src/fomo_market.rs:1259-1275 | a new hub is empty and its caps are floored at one |
| LaneHub.LaneHub.OldestKey | apps/private-api/src/fomo_market.rs:1317-1321 | the scan finds an entry with the least observation time |
| LaneHub.LaneHub.Publish | apps/private-api/src/fomo_market.rs:1287-1343 | one publish, field by field: the generation moves and wraps, the lane goes live, a trending list is replaced and cut to the cap from its end, a price is stored as it came under its key; an oldest entry is evicted only when a new key meets a full map |
| LaneHub.PublishedFacts | apps/private-api/src/fomo_market.rs:1287-1343 | the same of every publish step of a hub run |
| LaneHub.LaneHub.MarkStale | apps/private-api/src/fomo_market.rs:1345-1352 | staleness clears the live flag, moves the generation and keeps all data |
| LaneHub.StepKeepsInv | apps/private-api/src/fomo_market.rs:1287-1352 | every hub operation keeps the map bounded and within the last-published reference |
| LaneHub.CacheRefinesLastPublished | apps/private-api/src/fomo_market.rs:1287-1343 | after any run each retained price is the last one published for its key, and nothing is missing until more keys than the cap were published |
| LaneHub.LostEntryIsOldest | apps/private-api/src/fomo_market.rs:1314-1326 | an operation loses at most one entry, of least observation time, from a full map, to make room for a published key that was not there |
| LaneHub.GenerationIsSerial | apps/private-api/src/fomo_market.rs:1289-1291 | before 2^64 operations a generation is the number of its operation |
| LaneHub.GenerationsDistinctBeforeWrap | apps/private-api/src/fomo_market.rs:1289-1291 | before 2^64 operations different keys hold different generations |
| LaneClient.HighWaterIsMaximum | apps/private-api/src/fomo_market.rs:1559-1566 | the cursor is the largest accepted one, never a refused one |
| LaneClient.EntitledIsCarried | apps/private-api/src/fomo_market.rs:1552-1558 | an event a consumer is entitled to has the fields of a sane wire event of a batch labelled `websocket` and promoted |
| LaneClient.AcceptedIff | apps/private-api/src/fomo_market.rs:1462-1470 | the gate passes a response if and only if its source is labelled `websocket` and promoted |
| LaneClient.IntoLaneEventIff | apps/private-api/src/fomo_market.rs:1409-1448 | a wire event becomes a lane event if and only if it is a trending list or a price with a valid address and a finite value, and then with the same fields |
| LaneClient.ParsedIsFilter | apps/private-api/src/fomo_market.rs:1555-1559 | the events of a batch are kept in order, leaving out exactly the prices that are not sane |
| LaneClient.RealtimeLaneClient.FetchBatch | apps/private-api/src/fomo_market.rs:1539-1573 | a batch is accepted if and only if its source is labelled `websocket` and promoted; then its sane events are appended in order and the cursor is raised, otherwise neither changes |
| LaneClient.RealtimeLaneClient.Refill | apps/private-api/src/fomo_market.rs:1588-1596 | the fetch loop stops at the first refusal or the first batch with events, and buffers exactly what the answers entitle to |
| LaneClient.RealtimeLaneClient.NextEvent | apps/private-api/src/fomo_market.rs:1579-1598 | one call delivers the first event of old buffer plus newly entitled events, if there is one, and leaves the rest |
| LaneClient.Turn | apps/private-api/src/fomo_market.rs:1358-1370 | one turn of the driving loop appends one hub operation and publishes exactly what the client delivered |
| LaneClient.Drive | apps/private-api/src/fomo_market.rs:1356-1373 | after any number of turns published plus buffered events are the entitled ones, in order, none lost, none invented |
| LaneClient.PipelineConserves | apps/private-api/src/fomo_market.rs:1356-1373 | the same conservation for every run of turns, cancelled calls included |
| LaneClient.HubLogIsGated | apps/private-api/src/fomo_market.rs:1462-1470 | every published event has the fields of a sane wire event of a batch labelled `websocket` and promoted |
| LaneClient.PipelineHubRun | apps/private-api/src/fomo_market.rs:1356-1373 | the hub states of a pipeline run form a hub run, so the hub results apply |
| SessionAlignment.DeltasFollowTheirSnapshot | apps/private-api/src/fomo_market.rs:2969-2997 | every candle delta has the chain, address and timeframe of the latest snapshot before it, through rebinding, eviction and cancellation |
| SessionAlignment.PricesFollowTheirSnapshot | apps/private-api/src/fomo_market.rs:2929-2953 | every price frame belongs to the latest snapshot before it, even if the target was rebound while it was queued |
| SessionAlignment.QueueIsDrained | apps/private-api/src/fomo_market.rs:2915-2962 | the queue is empty whenever a call waits and holds at most two frames between calls |
| SessionAlignment.StepAligned | apps/private-api/src/fomo_market.rs:2890-3026 | every step of a session keeps frames and bookkeeping aligned with the shown target |
| SessionOrder.TrendingNeverRepeats | apps/private-api/src/fomo_market.rs:2933-2942 | trending frames of a connection stem from strictly later hub operations |
| SessionOrder.StatusNeverRepeats | apps/private-api/src/fomo_market.rs:2954-2959 | no two consecutive status frames of a connection report the same provenance |
| SessionOrder.RecoveryIsUnreachable | apps/private-api/src/fomo_market.rs:2977-2986 | the recovery branch of a successful poll changes nothing in any reachable state |
| SessionPrices.PricesNeverGoBack | apps/private-api/src/fomo_market.rs:2943-2953 | since the last snapshot or reset the prices of the shown target stem from strictly later hub operations if the target was published under one spelling or the hub keeps a single price |
| SessionPrices.ExactChainPricesNeverGoBack | apps/private-api/src/fomo_market.rs:2943-2953 | on chains with exact addresses that holds without a condition |
| SessionSpellings.TwoSpellingsGoBack | apps/private-api/src/fomo_market.rs:2611-2621 | for every target, every two spellings of its address and every hub that keeps two prices: a run, with one unchanging order of the price map, that shows the price of the second spelling, published second, and then that of the first |
| SessionSpellings.PricesKeepOrderIff | apps/private-api/src/fomo_market.rs:2943-2953 | for every validated target and every configuration: all runs keep the prices of the target in hub order if and only if the hub keeps a single price, the chain compares addresses exactly, or the address has no letter |
| SessionProvenance.WsFramesPassedTheGate | apps/private-api/src/fomo_market.rs:2549-2609 | every trending or price frame shows the fields of a sane wire event of a batch labelled `websocket` and promoted |
| SessionProvenance.WsStatusFollowsPublish | apps/private-api/src/fomo_market.rs:2954-2959 | a `fomo-ws` status was queued when the last hub operation was a publish |
| SessionProvenance.GenerationsAreSerials | apps/private-api/src/fomo_market.rs:1289-1291 | the generations on emitted frames are operation numbers until the counter wraps |
| SessionProvenance.TrendingGenerationsIncrease | apps/private-api/src/fomo_market.rs:2934-2942 | so emitted trending generations strictly increase |
| SessionProvenance.PriceGenerationsIncrease | apps/private-api/src/fomo_market.rs:2943-2953 | on chains with exact addresses so do the emitted price generations of the shown target |
| SessionFailures.EndsExactlyAfterSixFailures | apps/private-api/src/fomo_market.rs:2999-3004 | a call ends for failures if and only if its last six fetches failed in a row, never earlier, and never with a lane attached |
| SessionFailures.CandlesComeFromLastFetch | apps/private-api/src/fomo_market.rs:2973-2998 | a candle frame shows the normalised bars of the call's own last fetch |
| SessionFailures.NextDelta | apps/private-api/src/fomo_market.rs:2457-2495 | the fixed-target loop returns the last bar of its first non-empty fetch, or ends at six failures in a row |
| SessionDuties.LaneSectionOwes | apps/private-api/src/fomo_market.rs:2921-2959 | exactly what the lane section queues and in which order: a trending list of a new generation and the target price of a new generation while the lane is live and no switch is pending, then the provenance if it changed; and what it records |
| SessionDuties.LoopHeadOwes | apps/private-api/src/fomo_market.rs:2911-2963 | a call with a target delivers the first queued frame, consults the lane only when nothing is queued, and sleeps only when nothing came of it |
| SessionDuties.LoopHeadWithoutTarget | apps/private-api/src/fomo_market.rs:2912-2913 | a call without a target ends and changes nothing else |
| SessionDuties.PollShows | apps/private-api/src/fomo_market.rs:2968-2997 | in every run a poll that brings candles shows the last as a delta if the resolved target was the remembered one when the poll started, and otherwise all as a snapshot, and remembers the target |
| SessionDuties.EmptyPollGoesOn | apps/private-api/src/fomo_market.rs:2987-2996 | a poll without candles goes back to the head of the loop with a clean failure count |
| SessionDuties.FailureShows | apps/private-api/src/fomo_market.rs:2999-3023 | in every run a failed poll shows `unavailable` with a lane; without one the sixth in a row ends the call and any other goes on |
| SessionDuties.SnapshotShows | apps/private-api/src/fomo_market.rs:2890-2907 | in every run a snapshot request drops the lane record, and shows and remembers the target if and only if its fetch brings candles |
| SessionSource.StreamSource.Create | apps/private-api/src/fomo_market.rs:2664-2707 | a cadence out of range or a malformed seed target is refused; otherwise every session starts new |
| SessionSource.BoundedInsert | apps/private-api/src/fomo_market.rs:2819-2830 | inserting at the cap evicts one other entry, only for a new key |
| SessionSource.StreamSource.FindPrice | apps/private-api/src/fomo_market.rs:2612-2621 | the scan returns the first matching price in the iteration order of the map, and none only if there is none |
| SessionSource.StreamSource.StoreLane | apps/private-api/src/fomo_market.rs:2735-2745 | the record of one session is stored; another session at most loses its record |
| SessionSource.StreamSource.Remember | apps/private-api/src/fomo_market.rs:2819-2830 | the shown target of one session is stored; another at most loses its own |
| SessionSource.StreamSource.ResetLaneSession | apps/private-api/src/fomo_market.rs:2747-2751 | the session's lane record is dropped |
| SessionSource.StreamSource.ConsultLane | apps/private-api/src/fomo_market.rs:2921-2959 | the lane section runs its trending, price and status stages in that order on the state it read |
| SessionSource.StreamSource.RunHead | apps/private-api/src/fomo_market.rs:2911-2963 | the loop head on the shared maps does what the session machine says, and answers with the frame it recorded |
| SessionSource.StreamSource.NextDeltaStarts | apps/private-api/src/fomo_market.rs:2909-2963 | a call up to its first await is the `DeltaBegins` step of its session and keeps the invariant of all sessions |
| SessionSource.StreamSource.NextDeltaWakes | apps/private-api/src/fomo_market.rs:2967-2972 | after the sleep the binding, else the seed, is the target, and it is a switch if and only if the session does not remember exactly that target; the `Wakes` step |
| SessionSource.StreamSource.PollAnswers | apps/private-api/src/fomo_market.rs:2973-2998 | a successful poll is the `PollArrives` step |
| SessionSource.StreamSource.PollErrs | apps/private-api/src/fomo_market.rs:2999-3023 | a failed poll is the `PollFailed` step |
| SessionSource.StreamSource.SnapshotStarts | apps/private-api/src/fomo_market.rs:2890-2894 | the lane record is gone and the target is the binding, else the seed; the `SnapshotBegins` step |
| SessionSource.StreamSource.SnapshotAnswers | apps/private-api/src/fomo_market.rs:2895-2906 | if and only if the fetch brings candles they are all shown under the key of the target and the target is remembered; the `SnapshotArrives` step |
| SessionSource.StreamSource.Cancel | apps/private-api/src/stream.rs:400-410 | dropping a waiting call leaves the maps as they are |
| SessionSource.StreamSource.Bind | apps/private-api/src/fomo_market.rs:475-490 | a validated target is bound; exactly when the registry is full and the session had no binding, one other session loses its own, and nothing else changes; an invalid target changes nothing |
| SessionSource.StreamSource.Unbind | apps/private-api/src/fomo_market.rs:497-500 | the binding of that session goes and every other session is left exactly as it was |
| SessionSource.StreamSource.LaneTurn | apps/private-api/src/fomo_market.rs:1358-1370 | a hub operation while sessions wait keeps every session's invariant |
| SessionSource.StepsKeepGood | apps/private-api/src/fomo_market.rs:2890-3026 | a step of one session, with evictions of others, keeps all proved properties of all sessions |
| Transport.TransportState.PresentSession | apps/private-api/src/lib.rs:1080-1090 | prune, then look the presented session up |
| Transport.TransportState.TakeGrant | apps/private-api/src/lib.rs:2319-2333 | the grant is removed whatever happens, and returned only if it and the presented session are live and belong together |
| Transport.SessionRegistry.Insert | crates/session-transport/src/lib.rs:839-846 | a kid in use is refused, never replaced |
| Transport.SessionRegistry.Replace | apps/private-api/src/lib.rs:2414-2430 | the critical section of a delivery: prune, retire, insert; it reports whether the new epoch is registered |
| AuthProtocol.LoginFrame | apps/private-api/src/lib.rs:956-1138 | login steps change only login state, and of the other tables at most drop expired entries |
| AuthProtocol.EnrollFrame | apps/private-api/src/lib.rs:1193-1334 | enrollment steps change only enrollment state, likewise |
| AuthProtocol.GrantFrame | apps/private-api/src/lib.rs:2143-2447 | grant and delivery steps change only their own state, likewise |
| AuthChallenges.StepKeeps | apps/private-api/src/lib.rs:956-1138 | every step of every handler keeps the login invariant |
| AuthChallenges.ChallengesAreSingleUse | apps/private-api/src/lib.rs:1037-1060 | in every interleaving a challenge reaches finish_authentication at most once, after it was issued and before its expiry |
| AuthChallenges.PendingIsBounded | apps/private-api/src/lib.rs:979-995 | at most 32 challenges and 8 registrations are pending in every reachable state |
| AuthChallenges.MintsAreCharged | apps/private-api/src/lib.rs:1053-1128 | every minted session has a verified challenge of its own, so mints never exceed verified challenges |
| AuthChallenges.LiveSessionMintsNone | apps/private-api/src/lib.rs:1068-1100 | a verification that presented a live session never leads to a mint |
| AuthEnrollment.BootstrapEnrollsAtMostOne | apps/private-api/src/lib.rs:1292-1334 | with additional credentials off, an empty store gains at most one credential and a filled one none, in every interleaving |
| AuthEnrollment.RegistrationsAreSingleUse | apps/private-api/src/lib.rs:1308-1319 | a registration is used at most once and in time, and every credential added is paid for by one |
| AuthEnrollment.EnrollmentIsExclusive | apps/private-api/src/lib.rs:1292-1334 | the enrollment lock is held by a request if and only if that request is past it, so at most one is and none leaves it behind |
| AuthEnrollment.FinishKeeps | apps/private-api/src/lib.rs:1300-1334 | at the durable registration the policy checked under the lock still holds, and the registration keeps the enrollment invariant |
| AuthGrants.GrantsAreSingleUse | apps/private-api/src/lib.rs:2311-2335 | a grant is consumed by at most one delivery, while it and the presented session are live and of one session |
| AuthGrants.OneEpoch | apps/private-api/src/lib.rs:2414-2430 | each owner has at most one key epoch, and each epoch a delivery to its owner |
| AuthGrants.ReplacedFacts | apps/private-api/src/lib.rs:2418-2429 | a replacement leaves the owner with exactly the new epoch, or with none if the kid is in use elsewhere, and touches no other live epoch |
| AuthGrants.EpochSurvives | apps/private-api/src/lib.rs:2389-2430 | an epoch stays until removal, expiry or its owner's next registration; failed deliveries do not touch it |
| AuthProvenance.EpochsTraceToVerifiedChallenges | apps/private-api/src/lib.rs:1010-1128 | every epoch goes back through its delivery and the mint of its owner to a ceremony verified before the challenge expired |
| AuthServer.Server.IssueChallenge | apps/private-api/src/lib.rs:979-995 | a challenge is issued if and only if fewer than 32 live ones are pending, with the expiry now plus its lifetime; expired ones go and others stay; the protocol step |
| AuthServer.Server.TakeChallenge | apps/private-api/src/lib.rs:1037-1053 | the challenge is handed out if and only if it is live, is gone in every case, and the request goes on if and only if it got it; the protocol step |
| AuthServer.Server.FinishAuthentication | apps/private-api/src/lib.rs:1050-1067 | the ceremony is the protocol step; the expiry test after the removal refuses nothing that the ceremony accepts |
| AuthServer.Server.PresentSession | apps/private-api/src/lib.rs:1076-1100 | the request ends without a mint if and only if the presented session is live, otherwise it goes on to mint |
| AuthServer.Server.InstallSession | apps/private-api/src/lib.rs:1118-1128 | the new token is bound to exactly the minted session |
| AuthServer.Server.AllowEnrollment | apps/private-api/src/lib.rs:1211-1215 | the request goes on if and only if the store is empty or additional credentials are allowed |
| AuthServer.Server.IssueRegistration | apps/private-api/src/lib.rs:1226-1243 | a registration is issued if and only if fewer than 8 live ones are pending, with the expiry now plus its lifetime |
| AuthServer.Server.LockEnrollment | apps/private-api/src/lib.rs:1292-1299 | taking a free lock is the protocol step |
| AuthServer.Server.RecheckPolicy | apps/private-api/src/lib.rs:1300-1304 | the lock is kept if and only if the store is empty or additional credentials are allowed |
| AuthServer.Server.TakeRegistration | apps/private-api/src/lib.rs:1305-1317 | the registration is handed out if and only if it is live and is gone in every case; without one the lock is released |
| AuthServer.Server.FinishRegistration | apps/private-api/src/lib.rs:1318-1334 | a credential is added only under an open policy and only if it is new, and the lock is released |
| AuthServer.Server.RequestGrant | apps/private-api/src/lib.rs:2154-2156 | the request goes on, under the session of the cookie, if and only if that session is live |
| AuthServer.Server.InstallGrant | apps/private-api/src/lib.rs:2186-2202 | the grant is installed for exactly the session that asked for it, with the expiry now plus its lifetime |
| AuthServer.Server.TakeGrant | apps/private-api/src/lib.rs:2314-2335 | the grant is handed out if and only if it and the presented session are live and belong together, is gone in every case, and was never delivered before |
| AuthServer.Server.ReplaceEpoch | apps/private-api/src/lib.rs:2389-2430 | the delivery succeeds unless the kid is in live use by another owner; then the owner has exactly the new epoch, expiring now plus the session lifetime, and otherwise none |
| AuthServer.Server.FailEnroll | apps/private-api/src/lib.rs:1300-1334 | an enrollment request that answers early gives the lock back if it held it |
| AuthServer.StepKeepsSafe | apps/private-api/src/lib.rs:956-1334 | every step of every handler keeps the invariants of challenges, enrollment, grants and provenance together |
| AuthReach.PolicyIsAttained | apps/private-api/src/lib.rs:1167-1175 | with additional credentials allowed, for every n some run enrolls n further distinct credentials; without them some run enrolls one into an empty store |
| AuthReach.LoginReachesEpoch | apps/private-api/src/lib.rs:1010-1138 | for every session, grant and kid some run carries a login through to the key epoch of its session |
| PasskeyStore.LoadIff | apps/private-api/src/passkey_store.rs:155-175 | a recorded store loads to what it records if and only if it fits the size limit |
| PasskeyStore.LoadOkIff | apps/private-api/src/passkey_store.rs:155-175 | a store loads to a list if and only if the file is missing and the list empty, or the file is at most one mebibyte and holds the version 1 document of the list |
| PasskeyStore.RegisterRequests | apps/private-api/src/passkey_store.rs:141-149 | a registration appends the whole passkey and is refused if and only if its id is known |
| PasskeyStore.AuthenticateRequests | apps/private-api/src/passkey_store.rs:121-128 | an authentication replaces the first credential with the id by its update, and is refused if and only if there is none or it refuses the update |
| PasskeyStore.FilePasskeyCredentialStore.Open | apps/private-api/src/passkey_store.rs:66-73 | opens if and only if the file is missing or a version 1 document of at most one mebibyte, and starts from its list |
| PasskeyStore.FilePasskeyCredentialStore.WritePrivateFile | apps/private-api/src/passkey_store.rs:291-306 | exclusive create, write and sync, with every intermediate disk state |
| PasskeyStore.FilePasskeyCredentialStore.Persist | apps/private-api/src/passkey_store.rs:81-105 | succeeds if and only if encoding, exclusive create, complete write, sync and rename all do; with every intermediate disk state |
| PasskeyStore.FilePasskeyCredentialStore.RegisterPasskey | apps/private-api/src/passkey_store.rs:136-152 | conflict if and only if the id is known; on success memory is the old list with the whole passkey appended and the file its version 1 encoding; on failure neither changes |
| PasskeyStore.FilePasskeyCredentialStore.ApplyAuthenticationResult | apps/private-api/src/passkey_store.rs:116-134 | on success exactly the first credential with the id is replaced by its update, in memory and in the version 1 file; verification fails if and only if there is none or it refuses the update; on failure neither changes |
| PasskeyStore.FilePasskeyCredentialStore.Position | apps/private-api/src/passkey_store.rs:121-126 | the scan finds the first credential with the id |
| PasskeyStore.PersistIsAtomic | apps/private-api/src/passkey_store.rs:81-105 | the store file has its old content in every state of a persist but the last, and the new one there only on success |
| PasskeyStore.PersistInstalls | apps/private-api/src/passkey_store.rs:88-95 | a successful persist changes the store file and leaves no temp file |
| PasskeyStore.MemoryIsDisk | apps/private-api/src/passkey_store.rs:116-152 | in every run with crashes the memory is what the disk records, with distinct ids |
| PasskeyStore.AcknowledgedIsNeverLost | apps/private-api/src/passkey_store.rs:129-133 | what was answered `Ok` is on disk in every later state: a registered credential with at least its counter, an authenticated one with at least the updated counter |
| PasskeyStore.RefusedChangesNothing | apps/private-api/src/passkey_store.rs:116-152 | an error changes neither memory nor store file |
| PasskeyStore.CrashRecovers | apps/private-api/src/passkey_store.rs:81-105 | after a crash anywhere inside a request a restart finds the old or the requested list, if and only if the document fits |
| PasskeyStore.ReopensIff | apps/private-api/src/passkey_store.rs:81-105 | after an accepted request the store opens again if and only if the new document is within the load limit |
| PasskeyStore.AcceptedRegistrationsLockOut | apps/private-api/src/passkey_store.rs:155-168 | for every codec that encodes every list with at least one byte per credential: some run of accepted registrations from the empty store ends with a file that no start accepts |
| Base64.Base64Encode | apps/private-api/src/lib.rs:2579-2601 | the chunk loop computes `Encode` |
| Base64.Base64DecodeLenient | apps/private-api/src/lib.rs:2613-2643 | the loop over the 32-bit accumulator computes `Lenient` |
| Base64.ShiftIsExact | apps/private-api/src/lib.rs:2632-2637 | bits lost from the accumulator are never read |
| Base64.WrappingIsExact | apps/private-api/src/lib.rs:2624-2638 | the wrapping decoder computes the exact bit string of the letters |
| Base64.LenientInvertsEncode | apps/private-api/src/lib.rs:2613-2643 | decoding an encoding gives the data back if the expected length is right, and nothing otherwise |
| Base64.CanonicalIff | apps/private-api/src/lib.rs:2645-2651 | the canonical decoder accepts a text with a result if and only if the text is the encoding of that result and the length is right |
| Base64.EncodeInjective | apps/private-api/src/lib.rs:2579-2601 | different data have different encodings |
| Base64.LetterTable | apps/private-api/src/lib.rs:2580-2580 | the letters are those of the alphabet of RFC 4648, section 4, as one literal string |
| Base64.EncodeMeans | apps/private-api/src/lib.rs:2582-2599 | every group of up to three bytes, as one 24-bit number, is its four letters read as base-64 digits, with the pads its length asks for |
| Base64.EncodeLength | apps/private-api/src/lib.rs:2581-2599 | four letters for each begun group of three bytes |
| Base64.LenientIff | apps/private-api/src/lib.rs:2613-2643 | an input is accepted for a length if and only if every byte is a letter, `=`, line feed or carriage return and the letters fill that many bytes |
| Base64.CanonicalAcceptsWellFormed | apps/private-api/src/lib.rs:2645-2651 | the accepted texts are exactly those of the padded grammar of RFC 4648 with zero spare bits |
| Hex.HexDigits | apps/private-api/src/live.rs:441-450 | the loop appends two lower-case digits per byte |
| Hex.HexDecode | apps/private-api/src/live.rs:452-465 | the pair loop computes `Decode` |
| Hex.BodyAt | apps/private-api/src/live.rs:445-448 | byte i is printed at 2i and 2i+1, high digit first, in the digits of one literal string |
| Hex.DigitValueTable | apps/private-api/src/live.rs:460-461 | a character is a digit of a value if and only if the lower-case or the upper-case table has it there |
| Hex.DecodeIff | apps/private-api/src/live.rs:452-465 | a text decodes to data if and only if, prefix dropped and letters lowered, it is the data's digits |
| Hex.DecodeInvertsEncode | apps/private-api/src/live.rs:441-465 | decoding an encoding gives the data back |
| Hex.BodyInjective | apps/private-api/src/lib.rs:2603-2611 | different byte strings have different digits, so comparing digits compares grant ids |
| Percent.PercentEncode | apps/private-api/src/live.rs:630-641 | the byte loop computes `Encode` |
| Percent.EncodeByteTable | apps/private-api/src/live.rs:633-638 | a byte stands for itself if and only if section 2.3 of RFC 3986 lists its character, and is otherwise `%` and two upper-case digits |
| Percent.DecodeInvertsEncode | apps/private-api/src/live.rs:629-641 | percent-decoding inverts the encoding on all bytes |
| Percent.EncodeInjective | apps/private-api/src/fomo_market.rs:1605-1617 | different values have different encodings |
| Percent.ReadTarget | apps/private-api/src/live.rs:609-613 | a target built from clean parts is read back to its parameters |
| Percent.PayloadToSignIsExact | apps/private-api/src/live.rs:604-615 | a server reads back exactly the key and the intent, whatever they contain |
| Percent.SignedPayloadIsExact | apps/private-api/src/live.rs:617-626 | a server reads back exactly the reference |
| Percent.ActivityIsExact | apps/private-api/src/fomo_intelligence.rs:511-518 | whatever bytes a cursor within its bound holds, a server reads the symbol, a number that is the limit brought into 1 to 100, and exactly the cursor |
| Percent.DecimalReads | apps/private-api/src/fomo_intelligence.rs:507-509 | a printed number reads back as itself, most significant digit first, with no leading zero |
| Percent.ActivityWithoutCursor | apps/private-api/src/fomo_intelligence.rs:505-510 | without a cursor a server reads the symbol and a number that is the limit brought into 1 to 100 |
| Abi.ParseWordIff | apps/private-api/src/live.rs:403-414 | a word parses to a value if and only if it is long enough and worth that value below 2^128 |
| Abi.ParseWordExact | apps/private-api/src/live.rs:403-414 | the result is the big-endian value, or an error outside the range |
| Abi.WordExact | apps/private-api/src/live.rs:432-439 | a 32-byte word reads as its value exactly below 2^64 |
| Abi.DecodeAbiStringIff | apps/private-api/src/live.rs:418-430 | both directions for every buffer: a short one decodes to what precedes its first zero byte, a longer one to the bytes that its offset and length, read as unbounded numbers, locate; provided these are valid UTF-8 |
| Abi.DecodeInvertsStandardEncoding | apps/private-api/src/live.rs:416-430 | the standard encoding of any valid string decodes to it, with any padding |
| Abi.AddressWordValue | apps/private-api/src/live.rs:387-395 | a 20-byte address becomes a 32-byte word of the same value; anything else is refused |
| ActivityPage.RequestIsExact | apps/private-api/src/fomo_intelligence.rs:498-518 | a request is built if and only if the chain is known, the address valid and the trimmed cursor within its bounds; then a server reads the address with the network id of the chain, the limit brought into 1 to 100, and exactly the trimmed cursor |
| Percent.Paths | apps/private-api/src/live.rs:604-626 | each request goes to its own path |
| Holders.Collect | apps/private-api/src/fomo_intelligence.rs:905-918 | the early-exit loop returns the first rows, up to the cap, of the complete first-occurrence dedupe |
| Holders.HoldersJson | apps/private-api/src/fomo_intelligence.rs:887-918 | refused unless the page echoes the network and the address, up to case where the chain ignores it; otherwise the first rows of the dedupe of holders then friends, up to the limit brought into 1 to 200 |
| Holders.KeptIff | apps/private-api/src/fomo_intelligence.rs:905-918 | a row is kept if and only if it repeats no earlier key and fewer than the cap are kept before it |
| Holders.KeyedIff | apps/private-api/src/fomo_intelligence.rs:851-865 | a row has a key if and only if the first present of wallet, user wallet, handle and user handle is not blank |
| Holders.SameKeyIff | apps/private-api/src/fomo_intelligence.rs:851-865 | two keyed rows share a key if and only if those trimmed names agree, up to ASCII case where the chain ignores it, whatever else the rows hold |
| Holders.KeptAreDistinct | apps/private-api/src/fomo_intelligence.rs:905-918 | kept rows keep their order and share no key |
| Holders.OmittedRepeatsKept | apps/private-api/src/fomo_intelligence.rs:905-918 | below the cap every omitted row repeats the key of an earlier kept row |

## Left out

- SessionSource.StreamSource.NextDeltaStarts: the code between two awaits is one step. On a multi-threaded runtime another session may evict this session's lane record between two lock acquisitions of such a piece, for instance between recording a provenance or a generation and queueing its frame; a status or a trending list can then repeat within one lane epoch, which SessionOrder.StatusNeverRepeats and SessionOrder.TrendingNeverRepeats do not cover.
- SessionAlignment.StepAligned: one driver per session, as a session holds one call in flight. A superseded driver stops only at its next emit (apps/private-api/src/stream.rs:442-454), so for a while its call can overlap one of the new driver; such overlaps are not modelled.
- SessionSource.StreamSource.FindPrice: the iteration order of the map is a parameter of each call; that an unchanged map keeps its order is not part of the session machine, only of the run in SessionSpellings.TwoSpellingsGoBack.
- LaneClient.RealtimeLaneClient.FetchBatch: the request that carries the cursor is not modelled, only what its answer does.
- SessionProvenance.WsFramesPassedTheGate: frames carry the whole hub event; the JSON projection of trending rows is not modelled.
- PasskeyStore.FilePasskeyCredentialStore.ApplyAuthenticationResult: the WebAuthn record update is a parameter known only by the credential id it keeps and the counter it does not lower.
- PasskeyStore.CrashRecovers: a crash keeps all completed writes; losing unsynced data on power failure is not modelled, nor are file ownership, permissions and symbolic links.
- Abi.DecodeAbiStringIff: UTF-8 validity is a parameter.
- ActivityPage.RequestIsExact: the UTF-8 encoding of the cursor is a parameter.
- Bars.NormalizeBars: floating-point values are reals with the non-finite cases kept apart; rounding plays no part.
- AuthProtocol: the session and grant ledgers inside the auth crate may refuse at any time and are otherwise not modelled; a request may fail between any two steps; whole handlers are not methods of their own, only their pieces between interleaving points.
- HPKE, AEAD, WebAuthn cryptography, constant-time comparison and randomness.
- HTTP, cookies, JSON parsing, gRPC framing, configuration from the environment and health flags.
- Poisoned mutexes, timers and back-off durations.
- The bars HTTP client, token search and detail projections, trading, risk and portfolio surfaces: mostly field-by-field projections.
- The stream driver's sequence numbers and replay windows.
