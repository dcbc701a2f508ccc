# Verification of the routing core, its translators and its stored protocols

A Dafny model of an OpenAI- and Anthropic-compatible proxy that spreads requests over pools of
accounts, with proofs about every run of it.

- **Routing.** `Swrr` is the smooth weighted draw, `Routes` the per-model scheduler, `PoolCore` what each critical
  section of an account pool computes, `PoolShares` what its strategies promise over consecutive requests, `Pools` the
  pool object with failover and hot reload, `Affinities` the memory of which account serves which conversation,
  `Leases` every interleaving of requests, streams and reloads, `Routers` failover across providers.
- **Translation.** `Converter` turns a chunk stream into Anthropic events, `Aggregate` folds the same stream into one
  completion, `Grammar` says which event sequences are messages, `Translators` that the two agree, `Endings` which
  stop reason each reports. `Replace`, `Sentinels`, `Scrub` and `Messages` are the outbound rewrite.
- **Single-row protocols.** `ActiveDays`, `DayTurns` and `Confirmations` are the one-turn-per-day lock and its
  confirmation; `Credentials` and `Rotation` the token pairs, the version check and the refresh policy.
- **Telemetry.** `EventWriters` is the batching writer, `Timestamps` the stored time format, `Rollups` the nested
  aggregations, `Percentiles` the two percentile formulas.
- **Vault.** `Vaults` is the Fernet frame with its padding and block chaining.

`Sorting`, `Seqs`, `Keys`, `Lex`, `Chunks` and `Defaults` hold what these share. Where the program updates
an object, the model is a class whose methods are proved against a function of the old state; the theorems
are lemmas about those functions and about transition systems built from them. One mutex-protected section
or one write transaction is one step. Clocks, upstream answers, random vectors and the iteration order of
maps are parameters or free choices, so every statement is for all of them.

`dafny verify dfyconfig.toml` checks everything.

## What turned out to fail, and exactly when

- The fifth replacement of the scrubber can rebuild the third phrase: exactly when the client's text holds that
  phrase's stem directly before the SDK phrase (`Scrub.AgentPhraseReturns`). The identity line itself never returns.
- Only the content's texts are scrubbed, so the identity line still goes out exactly when something else of the
  message holds it: the role, name or call id, a tool call, a further field, a key, a block that is not a text, a bare
  string in a list, or, outside the system role, a content that is a single object (`Messages.OutboundIsClean`, with
  five such messages in `Messages.LineStillGoesOut`). The comment at internal/providers/wire.go:558-562 says the line
  is scrubbed from every role because the gateway rejects it wherever it appears in the request. A history text block
  without a string for a text is given an empty one (`Messages.MessageIsKeptIff`).
- The stream converter goes on emitting after the end (`Grammar.StreamGrammar`, `Grammar.LateContentBreaks`), so it
  agrees with the aggregator exactly when nothing content-bearing follows the terminal marker
  (`Translators.MarkersAgreeIff`, `Translators.MarkersDiffer`).
- Converter and aggregator name a tool differently unless only its first fragment carries a name, or the later ones
  spell the name the converter makes up for a nameless first one (`Translators.NamesAgreeIff`,
  `Translators.NamesDiffer`). They give it the same id exactly when the first fragment carries one and no later
  fragment another (`Translators.IdsAgreeIff`, `Translators.IdsDiffer`). They report the same stop reason exactly when
  the first finish says what the aggregate makes of the last one and of the tools (`Endings.EndingsAgreeIff`).
- A quota report of a superseded credential blocks its replacement (`Leases.SupersededReport`), and a replacement
  inherits the cooldown of its key (`Pools.ReplacementInherits`).
- The account tried while everything cools is not always the one usable first: it is exactly when a candidate before
  which no other resets has its plain cooldown over before any candidate is ready (`PoolCore.CanaryIsReadyFirstIff`).
  Quota blocks that have expired but were not purged still rank (`PoolCore.CanaryIsReadyLater`).
- A slot dropped by a reload is closed exactly when it was idle then: one that drops out while busy is never closed
  (`Leases.DroppedIsClosedIffIdle`, `Leases.BusySlotIsNeverClosed`).
- A stream that breaks before its first frame cools the whole route after one account (`Routers.RoutedStream.Next`).
- A day row whose counter is zero is claimed over (`DayTurns.LegacyRowIsClaimed`). Of overlapping confirmations the
  last write decides, so a verdict is lost to a later pass only if that had read before it was stored
  (`Confirmations.LastWriteDecides`, `Confirmations.OverwriterReadEarlier`). A pass that is in hand at a forced rerun
  settles the rerun day by the attempts of the old one (`Confirmations.StaleVerdictIff`,
  `Confirmations.RerunIsGivenUpAtOnce`). A score strictly between 0 and 1 is lit before the turn and not lit after it
  (`ActiveDays.VerdictsDisagreeIff`).
- The version check does not survive a deletion. A rotation under way then stores its pair exactly when the account
  exists at its write and no credential of another version stands there: after the deletion of a credential alone the
  revoked pair comes back, after that of the account the foreign key refuses it (`Credentials.StaleRotationIff`,
  `Credentials.RevokedComesBackIff`, `Credentials.RevokedComesBack`), and a new sign-in at version one can be
  overwritten (`Credentials.NewSignInIsOverwritten`).
- A credential whose write stamp cannot be read is never due if its deadline cannot be read either, although the
  comment at internal/server/rotation.go:67-69 says an unknown deadline is still refreshed; with a readable deadline
  its lifetime counts as the largest span, a fifth of which is 58 years (`Rotation.UnreadableStamp`).
- Closing the event writer does not wait for other flushes: everything accepted is counted by then exactly when none
  of them holds a batch (`EventWriters.CloseAccountsIff`).
- In December 9999 the shared rollup read finds nothing (`Rollups.OneReadIsEnoughIff`); pruning within a month shrinks
  that month's rollup (`Rollups.PruningShrinksIff`).
- The comment at internal/vault/vault.go:10-11 has the key halves the wrong way round; code and model sign with the
  first half and encrypt with the second.

Provider instances are not among them: a reload closes one under a lease exactly when a slot that it drops while idle
shares it (`Leases.ClosesLeasedInstanceIff`), which takes an instance installed twice
(`Leases.ReinstalledInstanceIsClosed`). The only caller that loads credentials builds new instances at every reload
(internal/server/plane.go:365-382 and 481), so `Leases.InstancesAreSafe` is the theorem about this program.

## Model

| member | source | states |
|---|---|---|
| Swrr.DrawConserves | internal/providers/router.go:91-138 | one draw moves credit between accumulators and leaves their sum over any superset of the candidates unchanged |
| Swrr.NeverARoundAhead | internal/providers/router.go:91-138 | W·wins(k) < t·w(k) + W at every time t, from any zero state |
| Swrr.EveryWindowIsExact | internal/providers/router.go:91-138 | any W consecutive draws, wherever they begin, choose each key exactly as often as its weight |
| Swrr.FirstRoundIsExact | internal/providers/router.go:91-138 | after W draws each key has won exactly its weight and every accumulator is zero again |
| Swrr.EveryDrawHasOneWinner | internal/providers/router.go:114-138 | the wins of all keys add up to the number of draws |
| Swrr.BestIsFirst | internal/providers/router.go:122-132 | of several largest accumulators the first candidate wins |
| Routes.OrderPermutes | internal/providers/router.go:54-89 | for distinct candidates the scheduler neither drops nor repeats one |
| Routes.OrderRanks | internal/providers/router.go:54-89 | every usable route precedes every disabled or weightless one, and usable priorities never decrease |
| Routes.OrderParts | internal/providers/router.go:77-89 | the order is the drawn tiers followed by the unranked candidates in their given order |
| Routes.CallsAreDraws | internal/providers/router.go:54-75 | each call to `Order` is one draw of every non-empty tier, and the tiers do not disturb each other |
| Routes.FairShare | internal/providers/router.go:91-138 | from a fresh scheduler, any window as long as the tier's total weight puts each provider first in its tier exactly weight times |
| Routes.NeverAheadOfShare | internal/providers/router.go:91-138 | at every moment a provider's lead count is less than one call above its exact share |
| Routes.RoundResets | internal/providers/router.go:91-138 | after a full round the tier is back in its fresh state |
| Routes.FirstTierLeads | internal/providers/router.go:69-89 | the best-ranked tier's winner leads the whole order |
| Routes.DrawDrifts | internal/providers/router.go:91-138 | whatever policies there are, a draw raises the sum of the tier's accumulators by the number of its providers without a policy, or by nothing when no weight is counted |
| Routes.ConservesIffCovered | internal/providers/router.go:91-138 | the sum is kept exactly when every provider of the tier has a policy or no weight is counted |
| Routes.ModelPoliciesCover | internal/providers/router.go:190-209 | every route of a model gets a policy, so that leak cannot occur |
| Routes.ModelPolicyIs | internal/providers/router.go:190-209 | each route gets its last stored policy, or equal weight; other stored policies are ignored |
| Routes.RouteScheduler.constructor | internal/providers/router.go:42-52 | disabled policies are stored with weight zero and the counters start empty |
| Routes.RouteScheduler.Group | internal/providers/router.go:55-68 | usable candidates grouped by priority, in their given order |
| Routes.RouteScheduler.Rank | internal/providers/router.go:54-89 | `Order` computes the specified counters and ranking |
| Routes.RouteScheduler.Unranked | internal/providers/router.go:77-89 | the candidates no tier ranked, in order |
| Routes.RouteScheduler.Prepare | internal/providers/router.go:91-110 | missing accumulators are created and the stored weights summed |
| Routes.RouteScheduler.Gain | internal/providers/router.go:114-121 | every accumulator gains its weight, or one without a policy |
| Routes.RouteScheduler.Lead | internal/providers/router.go:122-128 | the first largest accumulator wins |
| Routes.RouteScheduler.Draw | internal/providers/router.go:91-138 | one in-place draw equals the specified draw |
| Affinities.PinTakesHold | internal/providers/affinity.go:157-212 | a pin takes hold, the store stays bounded, no other conversation changes its account, and none loses it while unexpired pins fit |
| Affinities.PinLasts | internal/providers/affinity.go:114-171 | a pin serves exactly until it has idled for the configured span, and a lookup starts the span anew |
| Affinities.NoStalePin | internal/providers/affinity.go:86-212 | over any run of operations: at most 4096 pins, and a stored pin is always the last assignment the history allows |
| Affinities.Affinity.constructor | internal/providers/affinity.go:80-82 | a new store is disabled and empty |
| Affinities.Affinity.Configured | internal/providers/affinity.go:86-100 | a non-positive span falls back to an hour, and disabling clears every pin |
| Affinities.Affinity.LookUp | internal/providers/affinity.go:114-134 | a live pin is returned and extended, an expired one dropped |
| Affinities.Affinity.PinnedTo | internal/providers/affinity.go:139-152 | reads a live pin without extending it |
| Affinities.Affinity.PinTo | internal/providers/affinity.go:157-171 | stores the pin after making room if the store is full |
| Affinities.Affinity.ForgetSession | internal/providers/affinity.go:174-181 | removes one session and no other |
| Affinities.Affinity.Evict | internal/providers/affinity.go:195-214 | drops everything expired, then only as many as needed, soonest expiry first |
| PoolCore.AcquireIsBest | internal/providers/pool.go:356-464 | nothing exactly when no live, untried account without a hard block exists; a healthy one whenever there is one; otherwise one whose block, then cooldown, ends first; on the pinned and the drawn path |
| PoolCore.AcquireKeepsInv | internal/providers/pool.go:356-421 | acquiring keeps the pool invariant and touches only the cursor and the accumulators |
| PoolCore.SoonestIsBest | internal/providers/pool.go:408-414 | when everything cools: the first of the candidates whose block, then cooldown, ends first |
| PoolCore.CanaryIsReadyFirstIff | internal/providers/pool.go:408-414 | the account tried while everything cools is the one usable first exactly when a candidate before which no other resets has its plain cooldown over before any candidate is ready |
| PoolCore.CanaryIsReadyFirst | internal/providers/pool.go:769-784 | so it is whenever the candidates' blocks are equal, or the cooldown of such a candidate ends before its block |
| PoolCore.CanaryIsReadyLater | internal/providers/pool.go:769-784 | a pool in which it is not: a stale block sends the request to the account that is usable twenty seconds later |
| PoolCore.RetryMovesNothing | internal/providers/pool.go:349-356 | a retry (advance false) leaves cursor and accumulators as they were |
| PoolCore.FillFirstIsLeast | internal/providers/pool.go:450-460 | the heaviest healthy account wins; then the least busy; then the smallest key |
| PoolCore.RoundRobinIsFair | internal/providers/pool.go:468-485 | with k of n slots healthy, any k consecutive advancing draws choose each of them exactly once |
| PoolCore.RotateCycles | internal/providers/pool.go:468-485 | one advancing draw takes the head of the healthy ring to its back |
| PoolCore.CreditIsConserved | internal/providers/pool.go:491-516 | over any sequence of changing healthy sets and advance flags the accumulators keep their sum and mention only live keys |
| PoolCore.WeightedShareIsExact | internal/providers/pool.go:487-516 | with a fixed healthy set and zero accumulators, any window as long as the total weight draws each account exactly weight times |
| PoolCore.LoneDrawMovesNothing | internal/providers/pool.go:491-494 | the single-candidate shortcut is the draw it skips |
| PoolShares.RoundRobinTakesTurns | internal/providers/pool.go:446-485 | round robin: with k accounts healthy, any k consecutive advancing unpinned acquires take each of them exactly once |
| PoolShares.WeightedTakesShares | internal/providers/pool.go:446-516 | weighted: from accumulators at zero, any window of such acquires as long as the healthy accounts' total weight takes each of them exactly weight times |
| PoolShares.FillFirstTakesHeaviest | internal/providers/pool.go:446-535 | fill first: no healthy account is heavier than the one acquired, none as heavy is less busy, among equals none has a smaller key; cursor and accumulators stay |
| PoolShares.RequestsTakeTurns | internal/providers/pool.go:581-670 | any k consecutive undisturbed unpinned requests served at once are served by the k healthy accounts, each once |
| PoolShares.RequestsShareByWeight | internal/providers/pool.go:581-670 | and under the weighted strategy each healthy account serves exactly weight times in any window as long as the total weight |
| PoolShares.PinnedIsAskedFirst | internal/providers/pool.go:366-383 | a conversation whose pin can serve is asked there first, and that moves neither cursor nor accumulators |
| PoolCore.MarksKeepInv | internal/providers/pool.go:287-320 | quota blocks and cooldowns keep the pool invariant |
| PoolCore.FailureCools | internal/providers/pool.go:315-320 | a live credential's failure cools its key for thirty seconds, for every model; a superseded one's nothing; nothing else starts or stops cooling |
| Leases.SupersededReport | internal/providers/pool.go:567-578 | the report of a credential that was superseded leaves the pool untouched without a reset instant or a model; with both it blocks the model for whatever holds the key now; and for a replacement not blocked that long already these are the only cases |
| PoolCore.QuotaBlockHitsTheKey | internal/providers/pool.go:287-312 | a quota block lasts between 30 s and a day, hits whatever credential now holds the key, live or not, and changes no other active block |
| PoolCore.NumberedIssues | internal/providers/pool.go:160-174 | a reload never issues a generation twice |
| Pools.AcquirePins | internal/providers/pool.go:373-419 | whichever way the account was found, the conversation is pinned to it afterwards |
| Pools.UpdateKeepsInv | internal/providers/pool.go:160-221 | a reload keeps the pool invariant: sorted duplicate-free order, cursor in range, cooldowns and accumulators only for live keys, unique generations |
| Pools.ReplacementInherits | internal/providers/pool.go:186-216 | a replaced credential inherits cooldown, quota blocks and hard blocks of its key; nothing is remembered about keys that left |
| Pools.OrderIsDetermined | internal/providers/pool.go:187-191 | the order depends on the key set alone |
| Pools.EndIsDetermined | internal/providers/pool.go:581-670 | the calls and their outcomes leave only one way to answer |
| Pools.Pool.constructor | internal/providers/pool.go:77-89 | a new pool is empty and well formed |
| Pools.Pool.SetStrategy | internal/providers/pool.go:92-102 | a changed strategy clears the accumulators, an unchanged one keeps them |
| Pools.WeightsTakeEffect | internal/providers/pool.go:107-138 | after storing weights every account weighs what was given if that is positive and the default otherwise, and every draw has a positive total |
| Pools.ExclusionsAreFinal | internal/providers/pool.go:233-242 | whatever the pin, the cooldowns and the strategy, no excluded account is ever acquired for the model, and nothing is acquired exactly when all untried accounts are excluded |
| Pools.Pool.RotateKey | internal/providers/pool.go:468-485 | the in-place walk is the specified rotation |
| Pools.Pool.DrawKey | internal/providers/pool.go:491-516 | the in-place weighted draw is the specified one |
| Pools.Pool.FirstKey | internal/providers/pool.go:454-460 | the scan finds the account that fills first |
| Pools.Pool.CanaryKey | internal/providers/pool.go:408-414 | the in-place sort by reset puts the specified account first |
| Pools.Pool.AcquireSlot | internal/providers/pool.go:356-421 | the critical section returns the specified account, raises exactly its lease count, and updates the pin store as specified |
| Pools.Pool.Release | internal/providers/pool.go:531-537 | a lease count goes down by one and never below zero |
| Pools.Pool.MarkModelBlocked | internal/providers/pool.go:287-312 | the block is clamped and stored and expired blocks of others are purged |
| Pools.Pool.MarkOutcome | internal/providers/pool.go:567-578 | a failure with a reset instant and a model blocks the model on the account; any other cools the credential |
| Pools.Pool.ForgetPin | internal/providers/pool.go:673-680 | the pin is dropped exactly when it names the failed account |
| Pools.Pool.UpdateSlots | internal/providers/pool.go:160-231 | unchanged instances keep their slot object, the others get new idle slots; exactly the idle slots that dropped out are handed back to be closed |
| Pools.Pool.BuildSlots | internal/providers/pool.go:161-174 | the new slot table and the idle replaced slots |
| Pools.Pool.OrderedKeys | internal/providers/pool.go:187-191 | the keys sorted, whatever order the map yields them in |
| Pools.Pool.Failover | internal/providers/pool.go:581-670 | under any reloads and exclusions between any two steps, each account is called at most once, and the pool gives up exactly when every account open by then was called and failed for a reason that is neither a client abort nor a rejected request; undisturbed, the first account is the one an advancing acquire picks from the state and pin at entry, each later one is picked without advancing after the failure marks, and all lease counts end as they began but for the stream's own |
| Pools.OneDrawPerRequest | internal/providers/pool.go:581-670 | however many accounts an undisturbed request asks, cursor and accumulators end where its first acquire put them: where they were if a usable pin served it |
| Pools.Pool.CallAccount | internal/providers/pool.go:588-625 | one account's turn: its outcome alone settles how the request goes on; undisturbed, exactly a failure that is the account's is marked and unpins the conversation, and the lease goes back unless a stream keeps it |
| Leases.EveryRunIsSafe | internal/providers/pool.go:160-231 | in every reachable state of interleaved requests, streams, reports and reloads: the pool invariant holds, each slot's count equals its outstanding leases, and leases and closures are as stated below |
| Leases.HandBackIsSafe | internal/providers/pool.go:531-537 | the count is positive whenever a lease comes back, so no return is lost, and each lease is returned once |
| Leases.LeasedIsOpen | internal/providers/pool.go:169-185 | a slot that still has a lease is not closed, nor closed by the next reload |
| Leases.DroppedIsClosedIffIdle | internal/providers/pool.go:169-185 | over any run, a slot dropped by a reload is ever closed exactly when it was idle at that reload |
| Leases.BusySlotIsNeverClosed | internal/providers/pool.go:169-185 | a run after which nothing is loaded or leased and a dropped credential was still never closed |
| Leases.ClosesLeasedInstanceIff | internal/providers/pool.go:164-185 | a reload closes an instance under a lease exactly when a slot it drops while idle shares that instance; such a slot is never the lease's own |
| Leases.ReinstalledInstanceIsClosed | internal/providers/pool.go:164-185 | why reloads must bring new instances: installing one again that a superseded slot still uses leads there |
| Leases.InstancesAreSafe | internal/providers/pool.go:160-231 | if reloads never bring an instance twice, as the only caller with credentials never does, no closed instance ever has a lease |
| Leases.PoolStream.Finish | internal/providers/pool.go:737-743 | the lease is released at the first end of the stream and never again |
| Leases.PoolStream.Next | internal/providers/pool.go:712-729 | a failure is pre-commit exactly when no frame was delivered before it; an end releases the lease |
| Leases.PoolStream.Close | internal/providers/pool.go:731-735 | closing releases the lease unless it was released already |
| Routers.OrderedPermutes | internal/providers/router.go:376-444 | policy order plus pin is a permutation of the model's routes, and the pinned conversation's provider leads if the model has a route to it |
| Routers.LastMarkDecides | internal/providers/router.go:361-374 | a route is in the table exactly if it was marked, and stands there for thirty seconds from its last mark |
| Routers.Router.CoolsOnlyWhenExhausted | internal/providers/router.go:246-374 | however requests, streams, reloads and exclusions interleave, a route is in cooldown only because its last mark was earned: by a visit that called every account open by its end, each once and each failing retryably, or by a stream that broke before its first frame |
| Routers.CooledVisit | internal/providers/router.go:265-283 | a visit that cools its route called every account open by its end, each once, and each failed retryably |
| Routers.Router.constructor | internal/providers/router.go:147-188 | a new router's table is empty and every entry in it accounted for |
| Routers.Router.PolicyOrder | internal/providers/router.go:423-444 | the routes in scheduler order |
| Routers.OrderIsWell | internal/providers/router.go:376-444 | whatever the counters and the pin: the order is a permutation of the routes; a pin whose provider has a route puts that route first; and all others, or all if none leads, come usable before unusable and in never decreasing priority |
| Routers.RequestsGetFairShare | internal/providers/router.go:54-138 | over any history of a model's requests from a fresh scheduler, pinned ones included, any window of unpinned requests as long as the best tier's total weight tries each of its providers first exactly weight times |
| Routers.Router.Ordered | internal/providers/router.go:376-405 | the policy order with the pinned provider moved to the front; others may draw and pin between the two steps; undisturbed, the pin is the one at entry, a lookup extends it, and the counters move by one draw |
| Routers.Router.Serve | internal/providers/router.go:246-327 | the routes are tried in the order of the scheduler and the pin, as `Routers.OrderIsWell` says, and undisturbed by exactly one draw. While others mark routes, use the pools, reload and exclude between any two steps: every route gets at most one turn, in that order, with the request's own session, script and clock; one is passed over exactly if it was empty or cooling when looked at; one whose visit failed with the caller still there is put on record; the last turn decides the answer, and the request fails only after every route had its turn; undisturbed, the record grows by exactly these visits; the lease a stream keeps is on the account called last |
| Routers.Router.TakeTurn | internal/providers/router.go:256-284 | one route's turn under the same interference |
| Routers.Router.Consider | internal/providers/router.go:361-368 | a route may be tried exactly if its pool was not empty and then its cooldown was over: two looks, at its pool and then at the table |
| Routers.Router.VisitRoute | internal/providers/router.go:256-284 | a visit is the request's own, with its session, and undisturbed asks the accounts that the pool picks for it |
| Routers.Router.Abandon | internal/providers/router.go:275-276 | the route is marked, and then the conversation is not pinned to its provider any more |
| Routers.Router.Handle | internal/providers/router.go:246-327 | the same for any model name, its order and its draw included: an unknown model is refused without touching anything |
| Routers.Router.ForgetProvider | internal/providers/router.go:410-419 | the pin is dropped exactly when it names the failed provider |
| Routers.RoutedStream.Next | internal/providers/router.go:339-351 | a stream cools its route after a single account, exactly on a pre-commit failure with the caller still there, and puts that on record |
| Routers.RoutedStream.Close | internal/providers/router.go:353-359 | a second close does nothing |
| Scrub.SystemIsClean | internal/providers/wire.go:437-462 | no scrubbed system text contains the identity line, though five replacements run in sequence |
| Scrub.HistoryIsClean | internal/providers/wire.go:506-516 | no scrubbed history text contains the identity line |
| Scrub.FragmentsAreGone | internal/providers/wire.go:437-462 | nor three of the four fragments |
| Scrub.AgentPhraseReturns | internal/providers/wire.go:437-462 | the remaining phrase survives exactly when the input holds its stem directly before the SDK phrase |
| Scrub.UnchangedIffPhraseFree | internal/providers/wire.go:454-462 | a system text is forwarded unchanged exactly when it holds none of the five phrases |
| Scrub.IdempotentIffNoSplice | internal/providers/wire.go:454-462 | a second pass changes nothing exactly when the input holds no splice |
| Scrub.HistoryIsKeptIff | internal/providers/wire.go:506-516 | a history text is forwarded byte for byte exactly when it does not hold the line |
| Messages.OutboundIsClean | internal/providers/wire.go:563-605 | an outbound message holds the identity line in some string or key exactly when one of these does: the role, the name, the call id, a tool call, a further field, a block that is not a text, any other part of a text block, or, outside the system role, a content that is a single object |
| Messages.LineStillGoesOut | internal/providers/wire.go:465-605 | five messages that carry the line out: in call arguments, a bare string in a list, a block of another type, a single object, a further field; and the same text in a list block, which does not |
| Messages.MessageIsKeptIff | internal/providers/wire.go:465-605 | a message goes out as it came exactly when its texts hold none of the phrases its role is scrubbed of, and outside the system role every text block has a string for a text |
| Scrub.ScrubText | internal/providers/wire.go:454-462 | the loop over the pairs is the specified composition |
| Messages.ScrubContent | internal/providers/wire.go:465-504 | system content block by block |
| Messages.ScrubHistoryContent | internal/providers/wire.go:520-543 | history content block by block |
| Messages.OutboundMessage | internal/providers/wire.go:563-605 | the whole outbound message, field by field |
| Replace.AllReplaced | internal/providers/wire.go:454-462 | replace-all leaves no occurrence of a phrase whose replacement cannot overlap it |
| Replace.NoneCreated | internal/providers/wire.go:454-462 | replace-all creates no occurrence of another phrase unless one overlaps the replacement |
| Aggregate.FoldMeaning | internal/providers/wire.go:233-298 | text and reasoning are the concatenated fragments, and each tool depends only on its own index's fragments |
| Aggregate.InterleavingIsIrrelevant | internal/providers/wire.go:267-298 | streams that agree on each index's own fragments aggregate to the same tools |
| Aggregate.ResponseMeaning | internal/providers/wire.go:300-330 | for every well-indexed stream: content and reasoning of the answer are the joined fragments, absent exactly if these are empty; one tool for every index up to the largest, with its own fragments' names and arguments joined, and the last id they gave, or the generated one exactly if they gave none |
| Aggregate.Aggregator.Respond | internal/providers/wire.go:300-330 | the answer, with missing ids filled in in place |
| Aggregate.Aggregator.constructor | internal/providers/wire.go:229-231 | the aggregator starts empty |
| Aggregate.Aggregator.ProcessChunk | internal/providers/wire.go:233-265 | processing a chunk in place is one step of the fold |
| Aggregate.Aggregator.MergeToolCalls | internal/providers/wire.go:267-298 | merging in place is the specified merge |
| Converter.AnthropicStreamConverter.ConsumeFrame | internal/server/anthropic_stream.go:35-53 | consuming a frame in place emits the specified events and reaches the specified state |
| Converter.AnthropicStreamConverter.EmitStart | internal/server/anthropic_stream.go:55-73 | the opening event, once |
| Converter.AnthropicStreamConverter.ConsumeChunk | internal/server/anthropic_stream.go:75-89 | one chunk: opening, delta, finish |
| Converter.AnthropicStreamConverter.ConsumeDelta | internal/server/anthropic_stream.go:91-115 | thinking, then text, then tools |
| Converter.AnthropicStreamConverter.EmitStop | internal/server/anthropic_stream.go:117-141 | the closing events, once |
| Converter.AnthropicStreamConverter.TextDelta | internal/server/anthropic_stream.go:143-162 | a text fragment opens its block if needed |
| Converter.AnthropicStreamConverter.ThinkingDelta | internal/server/anthropic_stream.go:164-181 | a thinking fragment opens its block if needed |
| Converter.AnthropicStreamConverter.ToolDelta | internal/server/anthropic_stream.go:183-219 | a tool fragment opens its index's block if needed |
| Converter.AnthropicStreamConverter.ReserveBlock | internal/server/anthropic_stream.go:221-226 | block indices are handed out consecutively |
| Grammar.ParsedShape | internal/server/anthropic_stream.go:117-141 | what the grammar means: one start, blocks 0,1,2,… each started before its deltas, stops in index order, one message end |
| Grammar.StreamGrammar | internal/server/anthropic_stream.go:35-226 | the output is grammatical exactly when no content follows the finish, and complete exactly when, besides, a finish or the terminal marker arrived |
| Grammar.LateContentBreaks | internal/server/anthropic_stream.go:143-218 | a content delta after the end does break the grammar |
| Translators.TranslatorsAgree | internal/server/anthropic_stream.go:35-218 | over any chunks, one to a frame: folding the emitted events gives the same text, thinking and, per tool index, argument string as the aggregator |
| Translators.MarkersAgreeIff | internal/providers/workbuddy.go:80-117 | the aggregating loop stops at the first terminal marker and the converter does not: over any stream the two agree exactly when nothing content-bearing follows that marker |
| Translators.MarkersDiffer | internal/providers/workbuddy.go:80-117 | a stream with text behind the marker: the converter sends it on, the aggregate does not have it |
| Translators.NamesAgreeIff | internal/server/anthropic_stream.go:183-219 | the two give a tool the same name exactly when its later fragments carry none, or, if the first carries none, when they spell the made-up name |
| Translators.NamesDiffer | internal/server/anthropic_stream.go:183-219 | a stream with a name in two halves: announced by the first, aggregated as both |
| Translators.IdsAgreeIff | internal/server/anthropic_stream.go:183-219 | a tool is announced under its first fragment's id, and the aggregate has the same one exactly when the first fragment gives one and no later fragment gives another |
| Translators.IdsDiffer | internal/server/anthropic_stream.go:183-219 | a stream whose id arrives late: announced under a generated one, aggregated under its own |
| Translators.StreamAgrees | internal/server/anthropic_stream.go:75-218 | the emitted events carry the concatenated fragments, block by block |
| Endings.FirstEndingIsTold | internal/server/anthropic_stream.go:35-141 | however often a stream ends, exactly one reason is reported: that of its first ending |
| Endings.ConverterTellsFirst | internal/server/anthropic_stream.go:75-141 | of a stream closed by the terminal marker the converter reports the first finish reason |
| Endings.AggregateTellsTools | internal/providers/wire.go:262-319 | the aggregate reports the last finish reason, or tool calls exactly if any fragment named a tool |
| Endings.EndingsAgreeIff | internal/server/anthropic_stream.go:75-141 | both report the same stop reason exactly when, with tools, the first finish names the tool calls, and, without, first and last finish come to the same word |
| Endings.EndingsDiffer | internal/providers/wire.go:262-319 | a stream that finishes twice, and one that calls a tool but stops, report two different reasons |
| DayTurns.OnePaidTurn | internal/growth/automation.go:363-428 | over every interleaving of scheduled and forced runs, from any stored row, scheduled runs send at most one chat turn |
| DayTurns.LateClaimNeverSends | internal/store/checkin.go:328-365 | from no row or a row this code wrote, a run that claims when any row exists never sends |
| DayTurns.LegacyRowIsClaimed | internal/store/checkin.go:349-362 | a stored row with counter zero is claimed over, and a turn is sent |
| DayTurns.OneTurnEach | internal/growth/automation.go:363-428 | no run sends twice |
| DayTurns.CounterRises | internal/store/checkin.go:328-467 | no write ever lowers the run counter |
| ActiveDays.WinsIff | internal/store/checkin.go:328-365 | a claim wins exactly when there is no row or its counter is zero |
| ActiveDays.ConfirmationVerdict | internal/growth/automation.go:442-482 | serial passes: lit exactly when one of the first `budget` saw it lit, not lit exactly when that many saw nothing, open before; later passes change nothing |
| ActiveDays.FinishedDaysAreConfirmable | internal/store/checkin.go:441-467 | a day just finished and a day rerun after any verdict both start confirmation afresh; a rerun keeps start, counter and score |
| ActiveDays.OverlappingPassLosesLit | internal/store/checkin.go:407-421 | of two passes that read the same open row the second write decides; a "lit" is lost exactly when only the first saw it |
| Confirmations.LastWriteDecides | internal/growth/automation.go:418-482 | over any interleaving of confirmation passes, corrections, finishes, forced reruns, claims and observations of one row: its verdict is the last write's, its counter the passes since the last rerun, and what a pass writes is decided by what it saw when it read |
| Confirmations.OverwriterReadEarlier | internal/growth/automation.go:442-482 | a pass overwrites a stored verdict only if it had read the row before that was stored |
| Confirmations.WithoutOverlapVerdictsStay | internal/growth/automation.go:442-482 | when every pass reads after the write before its own, no pass writes behind a verdict |
| Confirmations.StaleVerdictIff | internal/growth/automation.go:418-482 | a verdict stored after a rerun comes from a pass that read before it exactly when that pass was in hand at the rerun; it then settles the rerun day exactly when it saw it lit or the passes counted before the rerun used up the budget |
| Confirmations.TooSoonOnlyByStalePass | internal/growth/automation.go:442-482 | a day is given up before its own passes used up the budget only by a pass that had read it before a rerun |
| Confirmations.RerunIsGivenUpAtOnce | internal/growth/automation.go:418-482 | a run in which the first write after a rerun already says not lit, with a budget of three |
| Confirmations.CorrectionIsReconcile | internal/growth/automation.go:629-664 | a correction split into its read and its write is, undisturbed, the one of the step |
| ActiveDays.ReconcileSettles | internal/growth/automation.go:629-664 | afterwards the verdict is the official one, and a second correction writes nothing |
| ActiveDays.VerdictsDisagreeIff | internal/growth/automation.go:573-587 | the check before the turn and the later correction disagree exactly on a score strictly between 0 and 1 |
| ActiveDays.TodayLit | internal/growth/automation.go:573-587 | the first cell of the exact date decides, the upstream's "today" only where there is none |
| ActiveDays.OfficialPair | internal/growth/automation.go:591-605 | the date's truncated score and the streak |
| ActiveDays.DayTable.Claim | internal/store/checkin.go:328-365 | insert or count up, and whether the counter came out at one |
| ActiveDays.DayTable.Finish | internal/store/checkin.go:388-405 | outcome columns of an existing row; an empty verdict keeps the stored one |
| ActiveDays.DayTable.RecordConfirmation | internal/store/checkin.go:408-421 | verdict stored, attempts counted, missing numbers kept |
| ActiveDays.DayTable.Observe | internal/store/checkin.go:428-439 | official columns only, confirmation untouched |
| ActiveDays.DayTable.Reset | internal/store/checkin.go:448-467 | a rerun rewrites the outcome and clears the confirmation but keeps start and counter |
| ActiveDays.Automation.ActiveDay | internal/growth/automation.go:363-428 | a turn is sent exactly when forced, or when the claim was won and the day is not lit; and the whole table afterwards |
| ActiveDays.StepLeaves | internal/growth/automation.go:363-433 | what a run leaves of its day: a forced one, and one that won the claim, their outcome and error code, a lit day as skipped and confirmed; a lost claim only a higher counter; other days stay |
| ActiveDays.Automation.RecordObservation | internal/growth/automation.go:610-624 | the observation, unless the snapshot holds neither cells nor streak |
| ActiveDays.Automation.ReconcilePreviousDay | internal/growth/automation.go:629-664 | the retroactive correction of the day before |
| ActiveDays.Automation.ConfirmActiveDay | internal/growth/automation.go:442-482 | one confirmation pass over the table, and its answer |
| Credentials.RotationSucceedsIff | internal/server/rotation.go:251-350 | a rotation that saw no deletion since its read succeeds exactly when the stored row is the one it read, and then stores the pair made from it |
| Credentials.NoLostRotation | internal/store/accounts.go:361-405 | without deletions, whatever row a run starts from, the version counts the writes, and the stored pairs form a chain in which each rotation continues its predecessor |
| Credentials.RefreshTokensSurvive | internal/server/rotation.go:288-295 | along the chain of stored pairs a refresh token is never lost, a rotation stores the upstream's access token, its refresh token if it sent one and else the predecessor's, and keeps all other fields |
| Credentials.StoredTokenIsLastGiven | internal/server/rotation.go:288-295 | the stored refresh token is always the last one that an import or the upstream gave, or the one there at the start |
| Credentials.OneRotationPerVersion | internal/store/accounts.go:379-385 | of the rotations that read one version at most one is stored |
| Credentials.VersionsCountWrites | internal/store/accounts.go:382-385 | every change bumps the version by one, or restarts at one |
| Credentials.StaleRotationIff | internal/store/accounts.go:361-405 | a rotation under way when its row was deleted stores its pair exactly when the account exists at its write and no credential of another version stands there |
| Credentials.RevokedComesBack | internal/store/accounts.go:361-405 | a run at whose end a revoked session is stored again, at version one |
| Credentials.RevokedComesBackIff | internal/store/accounts.go:372-399 | with no other write in between, a revoked credential comes back exactly when its account exists: always after the deletion of the credential alone, and after that of the account only if it was added again |
| Credentials.AccountIs | internal/store/accounts.go:179-194 | whether the account exists is decided by the last time it was added or deleted |
| Credentials.NewSignInIsOverwritten | internal/store/accounts.go:372-385 | after either deletion and a new sign-in, a stale rotation overwrites it exactly when it had read version one |
| Credentials.RecoveryUndoesRejection | internal/store/accounts.go:244-274 | clearing undoes a rejection and leaves enablement and deadline alone |
| Credentials.CredentialStore.Upsert | internal/store/accounts.go:364-405 | compare-and-set on the version; a new row also needs its account |
| Credentials.CredentialStore.DeleteAccount | internal/store/accounts.go:180-194 | the account goes with its credentials and purposes, and nothing else does |
| Credentials.CredentialStore.MarkRejected | internal/store/accounts.go:244-253 | a rejection changes status and reason only |
| Credentials.CredentialStore.ClearRejection | internal/store/accounts.go:263-274 | a cleared rejection is active and verified |
| Credentials.CredentialStore.Revive | internal/server/rotation.go:355-373 | only a rejected purpose is cleared |
| Credentials.CredentialStore.SetExpiry | internal/store/accounts.go:225-232 | the deadline is mirrored onto the purpose |
| Credentials.CredentialStore.RotateCredential | internal/server/rotation.go:251-350 | when a rotation is stored; both tokens, the deadline and the version that it stores; and that every failure leaves the stored pair untouched |
| Rotation.DueStaysDue | internal/server/rotation.go:70-91 | a due credential stays due until it is written again |
| Rotation.DueFrom | internal/server/rotation.go:70-91 | every credential, whatever its stamps, is due exactly from the earliest enabled trigger on |
| Rotation.UnreadableStamp | internal/server/rotation.go:65-91 | a row whose write stamp cannot be read is never due without a readable deadline; with one, exactly when the lead is reached or no more is left than the share of the largest span |
| Rotation.RotationLoop.Round | internal/server/rotation.go:117-181 | which credentials a round attempts, and which it then holds back |
| Rotation.AttemptedIff | internal/server/rotation.go:126-147 | a round attempts exactly the refreshable credentials that are due by then and that no dead session holds back |
| Rotation.DeadSessionsAreSpaced | internal/server/rotation.go:141-168 | a dead session is not probed again before the retry interval has passed |
| Rotation.RescuesAreSpaced | internal/server/rotation.go:550-565 | repairs of one account start at least a minute apart, and no refusal outside such a minute is ignored |
| Rotation.AuthRescue.Trigger | internal/server/rotation.go:550-565 | whether a refused token starts a repair |
| EventWriters.EventsAreConserved | internal/store/telemetry.go:69-155 | over every interleaving: accepted events are those counted, pending, or in batches in hand, each in exactly one batch, in order; pending events have an armed timer or an owed flush |
| EventWriters.ClosedStaysEmpty | internal/store/telemetry.go:150-155 | after a close nothing is ever pending again and no timer is left |
| EventWriters.CloseAccountsIff | internal/store/telemetry.go:94-155 | once closed, every accepted event is counted exactly when no other flush holds a batch, and the difference is what those hold |
| EventWriters.CloseLeavesBatchesInHand | internal/store/telemetry.go:94-155 | that does happen: a close can be done while another flush holds a batch |
| EventWriters.EventWriter.constructor | internal/store/telemetry.go:58-66 | an empty writer with the default batch size |
| EventWriters.EventWriter.Enqueue | internal/store/telemetry.go:69-92 | the queued event, the timer, and whether the caller must flush |
| EventWriters.EventWriter.Take | internal/store/telemetry.go:96-104 | the batch leaves the queue and the timer is removed |
| EventWriters.EventWriter.Settle | internal/store/telemetry.go:130-138 | a failed batch counts as written and as dropped |
| EventWriters.EventWriter.Flush | internal/store/telemetry.go:96-140 | an undisturbed flush stores exactly the pending events |
| EventWriters.EventWriter.Close | internal/store/telemetry.go:150-155 | stops and flushes |
| Timestamps.FormatKeepsOrder | internal/store/db.go:17-31 | for the years 0 to 9999 the stored strings compare as the moments do and differ when they differ |
| Timestamps.YearTenThousandSortsFirst | internal/store/db.go:25-31 | the year 10000 sorts before the year 9999 |
| Rollups.WindowsAreCalendar | internal/store/telemetry.go:468-478 | each window holds exactly the moments that share its calendar fields |
| Rollups.OneReadIsEnoughIff | internal/store/telemetry.go:486-529 | filtering one month read equals reading each window directly, for every event table, exactly outside December 9999 (but for its last minute) |
| Rollups.OneReadIsEnough | internal/store/telemetry.go:486-529 | the refinement for one window |
| Rollups.LastMonthLosesMinutes | internal/store/telemetry.go:486-529 | the event that is lost in that month |
| Rollups.GroupsPartition | internal/store/telemetry.go:531-541 | whatever is summed over events is the same summed over groups |
| Rollups.RollupsConserve | internal/store/telemetry.go:531-604 | group keys are unique and requests, outcomes, tokens and token events sum to those of the window |
| Rollups.CountsSplit | internal/store/telemetry.go:560-587 | success + error + cancelled = requests, and token events + missing = requests |
| Rollups.MedianAtMostTail | internal/store/telemetry.go:588-594 | p50 never exceeds p95 |
| Rollups.PruningShrinksIff | internal/store/telemetry.go:480-515 | pruning makes the next rollup of a window smaller exactly when it deletes an event the window covers |
| Rollups.Tally | internal/store/telemetry.go:560-580 | the counters of one group |
| Rollups.Timings | internal/store/telemetry.go:581-586 | the timing lists of one group |
| Rollups.Summarise | internal/store/telemetry.go:543-602 | one group's rollup |
| Rollups.Group | internal/store/telemetry.go:532-541 | groups in order of first occurrence, with their events in order |
| Rollups.Aggregate | internal/store/telemetry.go:531-604 | one rollup per group |
| Rollups.UsageStore.RollupOnce | internal/store/telemetry.go:486-515 | the three windows' rollups from one read, stored, and the pruned events |
| Rollups.NewestIsStored | internal/store/telemetry.go:486-515 | after a run every bucket that was rolled up holds its newest rollup, and every other bucket what it held |
| Percentiles.SummaryIsNearestRank | internal/store/telemetry.go:612-626 | the summary percentile is the least value with at least the fraction of all values at or below it |
| Percentiles.RoundsToNearest | internal/store/telemetry.go:646-661 | rounding lands on a nearest integer, the even one of two |
| Percentiles.IndicesAreInRange | internal/store/telemetry.go:612-644 | for a fraction in (0, 1] neither form clamps |
| Percentiles.PercentilesAreMonotone | internal/store/telemetry.go:612-644 | a larger fraction never yields a smaller value, in either form |
| Percentiles.RanksDifferByAtMostOne | internal/store/telemetry.go:612-644 | on the same sorted data the two ranks differ by at most one |
| Percentiles.RanksCoincideIff | internal/store/telemetry.go:612-644 | the two forms read the same rank exactly when the reach into the rank lies within half a rank of the fraction, and at half a rank only if the rank is even |
| Percentiles.RanksAtP95 | internal/store/telemetry.go:606-644 | at p95, in whole numbers: for which sizes they differ, twelve among them |
| Vaults.RoundTrip | internal/vault/vault.go:64-128 | decrypting an encrypted payload gives it back, whatever the time and the vector |
| Vaults.OpensIffFrame | internal/vault/vault.go:91-128 | a token opens to a payload exactly when it is the frame of a plaintext that parses to it |
| Vaults.FrameOpens | internal/vault/vault.go:91-128 | a frame opens to what its plaintext parses to |
| Vaults.PadThenUnpad | internal/vault/vault.go:138-162 | unpadding undoes padding |
| Vaults.UnpadAcceptsImage | internal/vault/vault.go:148-162 | unpadding accepts exactly what padding produces |
| Vaults.ChainThenUnchain | internal/vault/vault.go:83-118 | block chaining is undone |
| Vaults.UnchainThenChain | internal/vault/vault.go:83-118 | and is onto: every ciphertext is the chaining of what it decrypts to |
| Vaults.Pkcs7Pad | internal/vault/vault.go:138-146 | the filled buffer is the padded data |
| Vaults.Pkcs7Unpad | internal/vault/vault.go:148-162 | the checking loop decides and strips the padding |
| Vaults.FillBody | internal/vault/vault.go:76-83 | version, time, vector and ciphertext in their places |
| Vaults.StampReads | internal/vault/vault.go:77-78 | the stamp's eight bytes spell the time, the most significant first: exactly, for every time since 1970 |
| Vaults.Vault.Encrypt | internal/vault/vault.go:64-88 | the token is the encoded frame, and it decrypts to the payload |
| Vaults.Vault.Decrypt | internal/vault/vault.go:91-128 | the checks in their order, and the payload |
| Vaults.OpenVault | internal/vault/vault.go:47-61 | a key is accepted exactly when it decodes to 32 bytes; the first half signs, the second encrypts |

## Left out

- HTTP, header building, JSON decoding, event-stream sockets, logging, SQL text, migrations and backups: input and output.
- Two loops in one: the completion and the stream loop of a pool, and of the router, differ only in the lease that a served stream keeps. What others do during a request is arbitrary between any two of its steps; the accounts that may be loaded meanwhile are any finite set, without which the loop need not end.
- Nested locking: a section under the pool's lock is one step although the pin store inside it has a lock of its own and reads its own clock.
- Observability of the pool: the hook that reports a refused token, the stored block reasons and the snapshot for the admin view carry no state that selection reads.
- Background closing: retired instances are closed by goroutines; the model closes them at the reload that retires them.
- Routers.Router.Serve: it asks for one route per provider and a scheduler per routed model, which construction gives for catalogs without duplicate providers, and then the rotation for models without a scheduler is never reached. What others do between its steps is arbitrary as long as the marks they make were earned, which every writer of the table is proved to keep.
- Routers.Router.Handle: as `Routers.Router.Serve`.
- Messages.OutboundMessage: a number, a boolean or null holds no text; the key order of the encoded objects is left out.
- Completion fields: generated identifiers, the model name and usage are copied through; tool indices are non-negative, as the source's own indexing needs.
- Whole-completion conversion: the agreement is between converter and aggregator directly; the conversion of a whole completion to Anthropic form is left out because it expects tool calls in another container type than the aggregator produces.
- Active-day texts: the choice of prompt, the step results' display texts and failed database writes; the date of the day before is an input.
- Credentials.CredentialStore.RotateCredential: encryption is taken as the identity on payloads (its round trip is `Vaults.RoundTrip`), and warnings and pool reloads are left out.
- Rotation rounds: the round's time-out and its log de-duplication; instants are whole nanoseconds and the fraction is an exact rational.
- Duplicate events: rows already stored under the same event id are skipped by the database, which the counters do not see.
- Rollups.UsageStore.RollupOnce: a failed transaction; the pruning cutoff is an input rather than computed by calendar subtraction.
- Percentiles.SummaryIsNearestRank: fractions are exact rationals, so binary rounding of 0.95·n is not modelled.
- Vaults.RoundTrip: block cipher, MAC, text encodings, exclusive or and payload syntax are known by their inverse laws only (section 6.3 of RFC 5652 for the padding, section 5 of RFC 4648 for the text form); the fingerprint digest is left out.
- Vaults.PadThenUnpad: block sizes below 256, as one byte holds the pad length; the program only uses 16.
- The administration views, check-in steps, lottery, travel and redeem: single-branch mappings of upstream fields that would only add easy members.
- The sign-in flow and the import writer: concurrent polls are not serialised, so only sequential facts hold.
