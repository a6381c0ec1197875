# Sage Router, modelled and verified

Sage Router is a gateway in front of AI providers. This project models the parts of it whose
correctness cannot be seen by reading one function, and proves what they promise.

- **Connection health.** `Facets`, `Cooldown`, `Connection`: one upstream connection with its
  breaker, credential and lifecycle facets, as a class with every method of the source, each tied to
  a function on values. `Calls`: which call changes which field; `ConnectionRuns`: runs of those methods. `Protocol`: request threads, the
  health checker, the refresh loop and the operator as a step relation; `Stranding` and `RequestRuns`:
  what its runs do to connections and to requests. `StableSorting`, `Ordering`,
  `Selector`: choosing a connection. `Fallback`: the loop over connections, with every connection
  free to change between any two steps; `Replies`: what a reply does to its connection. `Combo`: the walk over combo members. `RefreshLoop`: credential
  refreshes.
- **Structures against a simple specification.** `Limiter`: the sliding window against the whole
  history. `Session`, `SessionTurns`, `Conversation`, `Histories` (over `KeyLists`): the two caches over
  whole runs; `Recency`: when the second evicts what was used longest ago. `Catalog`: rows under source precedence.
- **Tool-output compression.** `Bpe`: the in-place merge against its list definition. `Collapsing`,
  `Truncation` (over `Utf8` and `Encoding`), `FilterCatalog`: the filters and their catalog.
- **Translation.** `Canonical`, `OpenAI`, `OpenAIMeaning`, `OpenAIReading`, `Registry`: requests through the canonical
  form and back. `ClaudeMessages`: role normalization. `Streams`, `ClaudeStream`, `OpenAIStream`,
  `StreamRelay`, `StreamMeaning`, `StreamFinish`, `StreamShape`, `StreamBlocks`, `EventFraming`: streams
  in both directions. `StreamDelivery`: an OpenAI stream from its chunks to what a Claude client reads off the wire.
- **Server-sent events.** `Sse`: the printer and the reader, section 9.2.6 of the WHATWG HTML standard.

`Options`, `Text` and `Flattening` are shared. Time is an input that does not go back where a property
needs that; JSON is a datatype; a Go string that is used as bytes is a string with one char to a byte,
and UTF-8 is that of section 4 of RFC 3629.

## Where the code and its documentation differ

The code is followed; the lemmas named here say exactly how far it goes.

- `MarkSuccess` says it rejects unless Active, but its table lets it re-enable a Disabled connection;
  `Enable` accepts an Active one, which is harmless exactly when no request is in flight on it
  (`Protocol.EnableIsSafeExactlyWhen`, `Protocol.EnableAdmitsSecondRequest`).
- A request may be marked on a connection whose breaker is already OPEN; the mark is rejected and the
  connection stays Active until the operator enables it (`Stranding.RaceStrandsExactlyWhen`,
  `Stranding.StrandedForever`, `Stranding.OperatorRescues`).
- `AllRateLimited` means "every connection" if all excluded IDs are registered; a foreign one can hide
  that or make it be said wrongly (`Selectors.AllRateLimitedExactlyWhen`).
- Same-format translation is said to preserve the canonical content. It does exactly when
  `OpenAIMeaning.TranslationKeepsMeaning` says; missing tool parameters become null.
- An OpenAI tool call whose id and arguments share a chunk reaches a Claude client without its
  arguments (`StreamMeaning.CallsSurviveExactlyWhen`), and usage never does
  (`StreamMeaning.UsageNeverReachesClaude`).
- A Claude client is left with a block open, or has one opened twice, once there is thinking, or text
  after a call (`StreamBlocks.BlocksCloseExactlyWhen`).
- Arguments sent to an OpenAI client after the start of their call carry the number of the next one
  (`StreamShape.FragmentsAreNumberedAhead`).
- The list of the conversation store is called LRU. It is while no expired conversation is continued
  before its key has left the list (`Recency.ListedOnceExactlyWhen`, `Recency.RunEvictsLeastRecent`);
  beyond that, exactly when `Recency.EvictsLeastRecentExactlyWhen` says, and
  `Recency.EvictionIsNotLeastRecentlyUsed` is a run in which it is not.
- Truncation is said to leave at most the budget and never invalid UTF-8; the notice of 16 bytes is not
  counted, and invalid input may stay invalid (`Truncation.FitsBudgetExactlyWhen`,
  `Truncation.ResultIsValidExactlyWhen`).
- A revoked refresh token disables the connection at once, not at the threshold
  (`RefreshLoop.FailingRunDisablesExactlyWhen`).

## Model

| member | source | states |
|---|---|---|
| `Protocol.AtMostOneInFlight` | internal/server/routes_v1.go:371-568 | in every interleaving of claims, uses, terminal marks, late releases, health checks, refreshes and operator calls, Enable included where no request is in flight, no two requests are in flight on one connection |
| `Protocol.StepKeepsExclusion` | internal/provider/connection.go:129-155 | the inductive core: an Idle connection has no owner, kept by every atomic step |
| `Protocol.BusyUntilMarked` | internal/provider/connection.go:129-271 | only a terminal mark or Enable makes a busy connection Idle |
| `Protocol.EnableIsSafeExactlyWhen` | internal/provider/connection.go:253-271 | an accepted Enable keeps the inductive core exactly when no request is in flight on the connection |
| `Protocol.EnableAdmitsSecondRequest` | internal/provider/connection.go:253-271 | called on a connection in flight it lets a second request in, whatever the state and whoever the owner |
| `Stranding.MarkSettlesExactlyWhen` | internal/server/routes_v1.go:1601-1676 | a terminal mark leaves the connection Idle exactly when it succeeded or its facet could still move |
| `Stranding.StrandedForever` | internal/provider/connection.go:129-155 | a busy connection without an owner serves no further request in any continuation without Enable |
| `Stranding.OperatorRescues` | internal/provider/connection.go:253-271 | Enable is possible there at any time, and makes the connection Idle |
| `Stranding.FailedUseStrandsExactlyWhen` | internal/provider/connection.go:126-155 | MarkUsed looks at neither breaker nor credential: a request holding a claim that then fails strands the connection exactly when the facet its mark moves cannot move, and otherwise leaves it Idle |
| `Stranding.RaceStrandsExactlyWhen` | internal/server/routes_v1.go:1471-1511 | two requests holding claims of one healthy connection that both fail, at any times, with any hints, models and kinds, leave it Active with no owner exactly when both failures are of the same facet |
| `Stranding.BothCanClaim` | internal/provider/connection.go:483-503 | claims on a CLOSED breaker do not exclude each other |
| `Replies.RateLimitReply` | internal/server/routes_v1.go:1601-1676 | 429 on an Active connection: the breaker opens as rate-limited, for the hint or 60 s doubled per failure in a row, at most 15 min; Idle, the credential untouched, the model locked as long; nobody can claim it and no health check half-opens it before then; on an OPEN breaker nothing changes |
| `Replies.TransientReply` | internal/server/routes_v1.go:1601-1676 | a transport error or 5xx: the same as a transient failure, 1 s doubled, at most 2 min, whatever the hint, and an error noted |
| `Replies.CredentialReply` | internal/server/routes_v1.go:1601-1676 | 401, 403 that is not about the model, a failed preflight: the credential is expired, breaker, cooldown, locks and denylist untouched, Idle unless it was expired already; nobody can claim it |
| `Replies.ModelRejectedReply` | internal/server/routes_v1.go:1625-1650 | 403 about the model: settled as after a success, that model and no other denied for an hour |
| `Replies.OtherReply` | internal/server/routes_v1.go:1668-1676 | any other answer: Idle, failures forgotten, a HALF_OPEN breaker CLOSED, expired locks gone, nothing else changed |
| `Replies.OnlyRateLimitIsReported` | internal/provider/selector.go:166-174 | the selector reports a connection as rate-limited after a 429 and after no other reply |
| `Replies.FallsThroughExactlyWhen` | internal/server/routes_v1.go:529-543 | a reply sends the request on exactly when it is no answer, or 401, 403, 429, 500, 502, 503 or 504 |
| `Replies.FallThroughShutsOut` | internal/server/routes_v1.go:433-543 | a reply that sends the request on leaves its connection not selectable for the model at that moment |
| `Replies.FinalReplyKeepsFit` | internal/server/routes_v1.go:545-567 | one that does not, short of a 5xx, leaves a healthy connection claimable for it |
| `RequestRuns.OneAttemptPerConnection` | internal/server/routes_v1.go:359-568 | whatever the other actors do, a request attempts each connection at most once |
| `RequestRuns.RequestTerminates` | internal/server/routes_v1.go:1471-1511 | a request is over after a bounded number of its own moves, under any interference |
| `RequestRuns.NewRequestBudget` | internal/server/routes_v1.go:363-568 | the bound for a request not yet started with n connections: 3n^2 + 7n + 3 |
| `Calls.AcceptedExactlyWhen` | internal/provider/facets.go:78-116 | which state each call is accepted in |
| `Calls.BreakerMoves` | internal/provider/connection.go:129-271 | the breaker opens on a failure with its kind, half-opens for a trial, closes when the trial succeeds, is closed by the operator, and moves under no other call |
| `Calls.TrialMoves` | internal/provider/connection.go:483-513 | a claim on a HALF_OPEN breaker takes the trial slot; a release, a success and every move of the breaker give it back |
| `Calls.CooldownMoves` | internal/provider/connection.go:515-541 | an opening sets the cooldown and raises the level, at most to 15; resets clear the cooldown; they and successes clear the level |
| `Calls.AuthMoves` | internal/provider/connection.go:141-196 | which calls move the credential, and to what |
| `Calls.LifecycleMoves` | internal/provider/connection.go:126-155 | a request begins with MarkUsed and ends with a success or a failure; a failure does not bring a disabled connection back |
| `Calls.UseMoves` | internal/provider/connection.go:126-139 | MarkUsed counts and stamps a use, success clears the count, and the quota view is only ever replaced as a whole |
| `Calls.ErrorMoves` | internal/provider/connection.go:120-196 | who notes an error and who forgets it |
| `Calls.LockMoves` | internal/provider/connection.go:515-541 | a failure that names a model locks it until the cooldown ends; only expired locks are dropped, and the operator lifts none |
| `Calls.DenialMoves` | internal/provider/connection.go:342-357 | a rejection that names a model denies it for an hour; nothing takes the entry out |
| `Calls.CheckMoves` | internal/provider/health.go:81-103 | a whole health check drops expired locks and half-opens an OPEN breaker past its cooldown, and changes nothing else |
| `ConnectionRuns.RunKeepsSane` | internal/provider/connection.go:129-271 | over any run of calls: the trial flag implies HALF_OPEN, CLOSED exactly when no failure kind is set, a breaker that is not CLOSED has a cooldown end, backoff within 0..15 |
| `ConnectionRuns.StepKeepsSane` | internal/provider/connection.go:515-555 | the same for one call |
| `ConnectionRuns.RecoversAfterCooldown` | internal/provider/health.go:81-103 | after any run of a new connection a health check later than the cooldown moves an OPEN breaker to HALF_OPEN with a free slot, none earlier does, and the wait is bounded |
| `ConnectionRuns.CooldownWithinHorizon` | internal/provider/cooldown.go:54-71 | no cooldown ends later than the longest hint, or an hour, after the last call |
| `ConnectionRuns.MovesFollowTables` | internal/provider/facets.go:78-116 | every call moves every facet along an edge of its table or not at all, but for the two operator resets of the breaker |
| `ConnectionRuns.BackoffCountsOpenings` | internal/provider/connection.go:515-541 | over any run with no resetting call, whatever else is in it: the level is the start level plus the accepted openings, at most 15, and the cooldown is that of the last opening at that level: its hint, or base * 2^level, capped |
| `ConnectionRuns.SuccessSettles` | internal/provider/connection.go:198-226 | an accepted success leaves no breaker HALF_OPEN: from HALF_OPEN it is CLOSED with no failure kind, otherwise as it was; Idle, level, uses and error cleared |
| `ConnectionRuns.RunSuccessSettles` | internal/provider/connection.go:198-226 | the same at the end of any run |
| `ConnectionRuns.FirstFailureAfterSuccess` | internal/provider/connection.go:515-541 | the next opening waits twice the base, capped, or its hint |
| `ConnectionRuns.TrialCloses` | internal/provider/health.go:81-103 | the way back: an OPEN breaker past its cooldown is half-opened by a check, claimed by one request alone, used, and after a success CLOSED, Idle and claimable |
| `ConnectionRuns.AtMostOneTrial` | internal/provider/connection.go:483-513 | between two moments that free the slot at most one claim wins a trial, none if one is held |
| `ConnectionRuns.CollectionInvisible` | internal/provider/connection.go:218-224 | a connection that collects expired locks and one that never does answer Selectable alike at every later time of every run |
| `Cooldown.CooldownExact` | internal/provider/cooldown.go:54-88 | the cooldown is the hint of a rate-limit or quota failure, else base * 2^level with level clamped, capped per kind; always positive |
| `Cooldown.CooldownInNumbers` | internal/provider/cooldown.go:20-71 | the same in nanoseconds, kind by kind |
| `Cooldown.CooldownMonotone` | internal/provider/cooldown.go:19-88 | a longer failure streak never shortens the cooldown |
| `Cooldown.ShiftIsProduct` | internal/provider/cooldown.go:76-88 | the 64-bit shift never wraps, so it is the product |
| `Connections.Connection.constructor` | internal/provider/connection.go:61-75 | a new connection is CLOSED, AuthValid, Idle, with no locks and no cooldown |
| `Connections.Connection.IsSelectable` | internal/provider/connection.go:445-481 | true exactly when breaker, credential, lifecycle, locks, denylist and allowlist permit |
| `Connections.Connection.TryClaimHalfOpenTrial` | internal/provider/connection.go:483-503 | succeeds exactly when selectable with a free slot, and then changes only the trial flag |
| `Connections.Connection.ReleaseHalfOpenTrial` | internal/provider/connection.go:505-513 | the whole new state: only the trial flag is cleared |
| `Connections.Connection.MarkUsed` | internal/provider/connection.go:126-139 | accepted exactly from Idle; the whole new state |
| `Connections.Connection.MarkAuthExpired` | internal/provider/connection.go:141-155 | accepted by the auth table; the whole new state |
| `Connections.Connection.MarkRefreshing` | internal/provider/connection.go:157-168 | accepted exactly from AuthExpired; the whole new state |
| `Connections.Connection.MarkRefreshSuccess` | internal/provider/connection.go:170-182 | accepted by the auth table; the whole new state |
| `Connections.Connection.MarkRefreshFailure` | internal/provider/connection.go:184-196 | the error is kept even when the move is rejected; the whole new state |
| `Connections.Connection.MarkSuccess` | internal/provider/connection.go:198-226 | accepted exactly when the lifecycle table has an edge to Idle, Disabled included; the whole new state |
| `Connections.Connection.CollectExpiredLocks` | internal/provider/connection.go:218-224 | exactly the locks that expired before now are dropped, in whatever order |
| `Connections.Connection.ResetCooldown` | internal/provider/connection.go:228-240 | the whole new state |
| `Connections.Connection.Disable` | internal/provider/connection.go:242-251 | accepted by the lifecycle table; the whole new state |
| `Connections.Connection.Enable` | internal/provider/connection.go:253-271 | accepted by the lifecycle table, Active included; the whole new state |
| `Connections.Connection.OpenBreaker` | internal/provider/connection.go:515-541 | accepted exactly unless the breaker is OPEN; the whole new state with cooldown and model lock |
| `Connections.Connection.ToHalfOpen` | internal/provider/connection.go:543-555 | accepted exactly from OPEN; the whole new state |
| `Connections.Connection.RecordModelRejection` | internal/provider/connection.go:342-357 | the whole new state: a denylist entry for an hour, none for a blank model |
| `Connections.Connection.SetLastError` | internal/provider/connection.go:120-124 | only the last error changes |
| `Connections.Connection.SetQuotaWindow` | internal/provider/quota.go:33-37 | the quota view is replaced as a whole, nothing else changes |
| `Connections.Connection.CheckConnection` | internal/provider/health.go:81-103 | expired locks go, and an OPEN breaker past its cooldown becomes HALF_OPEN |
| `RefreshLoop.SweepsExactlyWhen` | internal/auth/refresh/loop.go:128-176 | a sweep changes and counts nothing unless a credential is stored and expired, or valid but about to expire on a CLOSED, enabled connection; then a countable failure raises the count by one and a success recovers |
| `RefreshLoop.HealthyIsLeftAlone` | internal/auth/refresh/loop.go:147-160 | a valid credential that is never about to expire, or whose connection is not in good health, survives any run of sweeps untouched |
| `RefreshLoop.FailingRunDisablesExactlyWhen` | internal/auth/refresh/loop.go:178-221 | an expired connection whose refreshes keep failing stays AuthExpired, so it is retried, and is disabled exactly when a failure said revoked or the count reached the threshold |
| `RefreshLoop.FailingPreemptionDisablesExactlyWhen` | internal/auth/refresh/loop.go:128-221 | a valid but expiring credential whose refreshes keep failing: the connection stays as it is until the first failure that says revoked or reaches the threshold disables it, after which it is not refreshed or counted; disabled exactly when there was one |
| `RefreshLoop.FreshRecovers` | internal/auth/refresh/loop.go:223-248 | a later success makes the credential valid and forgets the failures but does not bring a disabled connection back |
| `RefreshLoop.RunRefreshesOnly` | internal/auth/refresh/loop.go:128-248 | no run of refreshes touches breaker, cooldown, trial, locks or counters of use, or leaves a refresh unfinished |
| `RefreshLoop.Loop.RefreshOne` | internal/auth/refresh/loop.go:128-248 | the new state and failure count of one refresh; no other connection is counted |
| `RefreshLoop.Loop.HandleFailure` | internal/auth/refresh/loop.go:179-221 | a failure is counted, marked, and gives up at the threshold or when revoked |
| `RefreshLoop.Loop.constructor` | internal/auth/refresh/loop.go:59-67 | no failures counted; the threshold is three |
| `Selectors.FailsExactlyWhenNoneAvailable` | internal/provider/selector.go:155-204 | under every strategy selection fails exactly when no connection is available |
| `Selectors.ChoosesTheBest` | internal/provider/selector.go:186-199 | under the default and reset-aware strategies the choice is the unique available connection before all others by the comparator, ties in registration order |
| `Selectors.DefaultChoiceIs` | internal/provider/selector.go:303-318 | by the fields: the default choice is the available connection that every other available one follows by breaker CLOSED first, lower priority number, fewer consecutive uses, registration order |
| `Selectors.ResetAwareChoiceIs` | internal/provider/selector.go:230-253 | by the fields: a known quota reset counts before all that, the earlier first, an unknown one last |
| `Selectors.ResetAwareDegrades` | internal/provider/selector.go:230-253 | with no known reset time the reset-aware strategy chooses as the default does |
| `Selectors.P2cPrefersColderSample` | internal/provider/selector.go:285-300 | of two samples the less recently used is chosen if it can be claimed, otherwise the other if that can |
| `Selectors.WalkVisitsCandidates` | internal/provider/selector.go:186-199 | every strategy only reorders: the walk visits exactly the candidates |
| `Selectors.AllRateLimitedExactlyWhen` | internal/provider/selector.go:155-184 | the flag is raised exactly when some connection considered is rate-limited and those that are not are as many as the excluded IDs that are not registered |
| `Selectors.ForeignExclusionRaisesFlag` | internal/provider/selector.go:178 | a false alarm: one foreign excluded ID raises the flag though one of two connections is not rate-limited |
| `Selectors.AllRateLimitedMeaning` | internal/provider/selector.go:177-184 | when every excluded ID is registered the flag means that every connection not excluded is rate-limited and there is one |
| `Selectors.AllRateLimitedNeedsKnownExclusions` | internal/provider/selector.go:178 | a missed alarm: with all of them rate-limited, the flag is raised exactly when all excluded IDs are registered |
| `Selectors.EarliestRetryIsMinimum` | internal/provider/selector.go:166-174 | the reported retry time is the earliest cooldown end among the rate-limited connections considered |
| `Selectors.Selector.Select` | internal/provider/selector.go:137-204 | the answer is the specified outcome, and only the winner changes, by its claim alone |
| `Selectors.Selector.ClaimWalk` | internal/provider/selector.go:190-199 | claims the first position of the walk that can be claimed; every failed claim changes nothing |
| `Selectors.Selector.ClaimOne` | internal/provider/connection.go:490-503 | a claim succeeds exactly when the view says available |
| `Selectors.Selector.Filter` | internal/provider/selector.go:155-175 | the views, the candidates and the failure report of the whole snapshot; nothing changes |
| `Selectors.Selector.Inspect` | internal/provider/selector.go:158-174 | one round of the filter |
| `Selectors.Selector.OrderCandidates` | internal/provider/selector.go:217-228 | the array in place becomes the walk order of the strategy |
| `Ordering.LessIsStrictWeakOrder` | internal/provider/selector.go:303-318 | the default comparator is a strict weak order |
| `Ordering.ComparingIsWeakOrder` | internal/provider/selector.go:237-253 | so is the reset-aware one |
| `Ordering.P2cPermutes` | internal/provider/selector.go:267-301 | sampling loses and invents no candidate |
| `Ordering.P2cOrder` | internal/provider/selector.go:267-301 | the array is rebuilt in place with the colder sample first |
| `StableSorting.StableSortArranges` | internal/provider/selector.go:226 | a stable sort by a weak order arranges the candidates, ties in registration order, and is a permutation |
| `StableSorting.SliceStable` | internal/provider/selector.go:226 | the in-place sort computes that order |
| `Fallback.Server.ExecuteRequest` | internal/server/routes_v1.go:363-568 | with every connection free to change between steps: each connection tried at most once, all attempts but the last fell through, and every trial slot is given back; a reply that could fall through is returned only when no connection outside the tried and the lost can be claimed, each lost one having been made busy by others in a gap of this request, or when a lookup failed; undisturbed, only when no untried connection can be claimed |
| `Fallback.UndisturbedLosesNone` | internal/server/routes_v1.go:1471-1511 | with no interference and every stored connection found, a selection fails only by losing nothing |
| `Fallback.Server.Attempts` | internal/server/routes_v1.go:371-568 | the loop ends, by the registered connections not yet tried, and keeps the same facts |
| `Fallback.Server.TryConnection` | internal/server/routes_v1.go:400-567 | one attempt leads on exactly when its reply falls through, and then to a connection not tried before or to a warranted refusal; undisturbed, a failed attempt is marked on its connection |
| `Fallback.Server.SelectConnection` | internal/server/routes_v1.go:1471-1520 | ends; picks a connection not excluded, Active unless it changes in the last gap; answers none available only when no connection outside the excluded and the lost can be claimed and others made each lost one busy; a store miss only when the lookup failed |
| `Fallback.Server.Use` | internal/server/routes_v1.go:1495-1520 | a claimed connection is lost only if others made it busy in between |
| `Fallback.Server.MarkConnectionResult` | internal/server/routes_v1.go:1601-1676 | the state each kind of reply leaves the connection in |
| `Fallback.Server.ReleaseAll` | internal/server/routes_v1.go:371-384 | every held trial slot is released; other connections are untouched |
| `Fallback.AttemptsBounded` | internal/server/routes_v1.go:371-568 | no more attempts than registered connections |
| `Combo.ForwardedExactlyWhen` | internal/server/routes_v1.go:911-1009 | an answer is forwarded unless it is a 5xx or a 422 for an unsupported feature |
| `Combo.HandleCombo` | internal/server/routes_v1.go:911-1009 | the first member not walked past is forwarded; an exhausted walk reports the last upstream failure, 503 if there was none |
| `Sse.RoundTripExactlyWhen` | pkg/sse/writer.go:21-41 | for every event list: reading what was printed gives it back exactly when types and IDs fit on one line, no type, ID or data line ends in a carriage return, no retry is negative, and [DONE] comes last if at all |
| `Sse.ReadOfPrinted` | pkg/sse/reader.go:27-96 | what is read back from any framed events: each without trailing carriage returns, up to the first [DONE] |
| `Sse.UnfinishedIsRead` | pkg/sse/reader.go:87-96 | a stream that breaks off before the blank line of its last event is read like the whole one |
| `Sse.FieldLine` | pkg/sse/reader.go:102-114 | a field line is read back as its name and its value |
| `Sse.UnspacedFieldLine` | pkg/sse/reader.go:102-114 | the space after the colon may be missing, and so may the colon |
| `Sse.PassedOver` | pkg/sse/reader.go:42-96 | a comment, an unknown field, a retry that is no number and a block without data are passed over |
| `Sse.ReadIsFramed` | pkg/sse/reader.go:27-96 | whatever text is read, no type and no ID holds a newline |
| `Sse.ResponseWriter.WriteEvent` | pkg/sse/writer.go:21-41 | appends exactly the lines of the event |
| `Sse.ResponseWriter.WriteChunk` | pkg/sse/writer.go:43-49 | a one-line payload is written as the event with that data |
| `Sse.ReadStream` | pkg/sse/reader.go:27-96 | the loop over the accumulators delivers the specified events |
| `Bpe.MergeSegments` | internal/compress/tokenizer/tokenizer.go:163-192 | the merge keeps the text, gives only bytes and vocabulary tokens, leaves no mergeable pair, and never adds a segment or drops the last |
| `Bpe.TokensSegmentChunk` | internal/compress/tokenizer/tokenizer.go:148-193 | windowing included: tokens spell the chunk, each is a byte or in the vocabulary, and there are between 1 and its length |
| `Bpe.TokensAreFinal` | internal/compress/tokenizer/tokenizer.go:180-192 | up to the window length no two adjacent tokens could still be joined |
| `Bpe.BestIsLeftmostLeast` | internal/compress/tokenizer/tokenizer.go:180-189 | the pair joined is the one and only leftmost pair of least rank, none exactly when no pair is a token |
| `Bpe.AllTokensSegmentText` | internal/compress/tokenizer/tokenizer.go:129-138 | the tokens of all chunks spell the text and are at most its bytes |
| `Bpe.DropJoins` | internal/compress/tokenizer/tokenizer.go:190 | dropping a boundary offset joins the two segments around it |
| `Bpe.Tokenizer.MergeCount` | internal/compress/tokenizer/tokenizer.go:163-192 | the offsets that shrink in place end with as many segments as the list definition |
| `Bpe.Tokenizer.JoinLeast` | internal/compress/tokenizer/tokenizer.go:180-191 | one round joins the best pair or finds none |
| `Bpe.Tokenizer.LeastPair` | internal/compress/tokenizer/tokenizer.go:181-186 | the scan finds the best pair |
| `Bpe.Tokenizer.RankAt` | internal/compress/tokenizer/tokenizer.go:171-179 | the rank of the pair at a boundary |
| `Bpe.Tokenizer.RemoveOffset` | internal/compress/tokenizer/tokenizer.go:190 | one offset is removed, the others keep their order |
| `Bpe.Tokenizer.BpeCount` | internal/compress/tokenizer/tokenizer.go:148-193 | the number of tokens of the chunk |
| `Bpe.Count` | internal/compress/tokenizer/tokenizer.go:127-138 | the number of tokens of all chunks, never more than bytes; nothing without a tokenizer |
| `Collapsing.CollapseIsUndone` | internal/compress/filters.go:26-48 | of a text without marker lines: expanding the markers undoes collapsing, a second collapse changes nothing, no line is added |
| `Collapsing.MarkedInputIsAmbiguous` | internal/compress/filters.go:38-39 | why: a run and a line followed by that marker collapse alike |
| `Collapsing.ExpandedUndoes` | internal/compress/filters.go:26-48 | the same on lists of lines |
| `Collapsing.CollapsedIsFixed` | internal/compress/filters.go:26-48 | the same on lists of lines |
| `Collapsing.CollapseRepeats` | internal/compress/filters.go:28-48 | the two-index loop computes the specified collapse |
| `Collapsing.AppendRun` | internal/compress/filters.go:36-44 | a run is appended whole or as its first line and its count |
| `Collapsing.RunEnd` | internal/compress/filters.go:32-35 | where the run of identical lines ends |
| `Truncation.KeptIsLongestSafe` | internal/compress/filters.go:55-74 | of valid UTF-8 over the budget: a valid prefix within it is kept, up to the last newline or else the longest, at most 3 bytes short |
| `Truncation.TruncatedIsValid` | internal/compress/filters.go:50-74 | valid stays valid, within the budget unchanged; over it the result is the kept part and 16 bytes the budget does not count |
| `Truncation.BackingOffSucceedsExactlyWhen` | internal/compress/filters.go:64-72 | for any bytes, four steps of backing off end valid exactly when a valid prefix is so near |
| `Truncation.FitsBudgetExactlyWhen` | internal/compress/filters.go:50-74 | the result is within the budget exactly when the text is, or the last newline in the budget is at least 16 bytes before its end |
| `Truncation.ResultIsValidExactlyWhen` | internal/compress/filters.go:50-74 | for any bytes, the result is valid exactly when: unchanged, the text is; cut at a newline, the prefix up to it is; otherwise a valid prefix ends within four bytes of the budget |
| `Truncation.NoticeOverrunsBudget` | internal/compress/filters.go:73 | an input whose result is over the budget: two bytes cut to one give seventeen |
| `Truncation.BrokenStaysBroken` | internal/compress/filters.go:64-73 | an input whose result is not valid: six bytes that start no character, cut to five |
| `Truncation.TruncateSafe` | internal/compress/filters.go:55-74 | the backoff loop computes the specified cut |
| `Encoding.ValidExactlyWhenEncoded` | internal/compress/filters.go:55-74 | a string is valid exactly when it is the encoding of some Unicode scalar values, as section 3 of RFC 3629 builds it |
| `Utf8.BoundaryBefore` | internal/compress/filters.go:64-72 | any cut of valid UTF-8 is at most three bytes after a character boundary |
| `Utf8.CutBeforeLead` | internal/compress/filters.go:60-63 | valid UTF-8 can be cut before a newline |
| `FilterCatalog.ParseCatalog` | internal/compress/catalog.go:59-97 | accepted exactly when there are entries and none is wrong; then each filter is usable, min_run at least 2 and max_bytes at least 1; rejected for the first wrong entry |
| `FilterCatalog.EntryAcceptedExactlyWhen` | internal/compress/catalog.go:59-97 | by the name of its kind: what an entry must have to be accepted |
| `FilterCatalog.EntryDoes` | internal/compress/filters.go:11-24 | by the name of its kind: what an accepted entry does to a text |
| `FilterCatalog.AppliedTogether` | internal/compress/catalog.go:99-109 | one catalog after the other is one catalog: each filter works on what those before it left |
| `FilterCatalog.CutComesLast` | internal/compress/filters.go:50-74 | a catalog that ends with a cut leaves at most the budget and the notice |
| `FilterCatalog.CatalogKeepsValid` | internal/compress/catalog.go:101-109 | the filters in order keep text valid if their patterns do |
| `FilterCatalog.FilterKeepsValid` | internal/compress/filters.go:11-24 | so does each filter |
| `FilterCatalog.JoinIsValidExactlyWhen` | internal/compress/filters.go:29-47 | lines joined by newlines are valid exactly when each line is |
| `FilterCatalog.Apply` | internal/compress/catalog.go:99-109 | every filter in catalog order; no catalog, no change |
| `FilterCatalog.ApplyFilter` | internal/compress/filters.go:11-24 | the transform of the entry kind |
| `OpenAIMeaning.TranslationKeepsMeaning` | internal/translate/registry.go:106-165 | for every OpenAI body sent on as OpenAI: the upstream body carries the resolved model and parses to the request it was printed from exactly when every tool is a function with parameters and the tool choice has a printed form |
| `OpenAIMeaning.SameFormatKeepsMeaning` | internal/translate/openai/request.go:100-397 | the same of parse, substitute, print, parse |
| `OpenAIReading.ExtractedTextIs` | internal/translate/openai/request.go:191-207 | a system prompt or tool result sent as blocks is the text of the first block that has one, none if none has |
| `OpenAIReading.OneStopReads` | internal/translate/openai/request.go:114-126 | one stop string is read as the list of it |
| `OpenAIReading.OtherStopsAreLeftOut` | internal/translate/openai/request.go:114-126 | what is no string is left out of a list of stops |
| `OpenAIReading.ChoiceReads` | internal/translate/openai/request.go:248-266 | a tool choice that names a function is that tool; one that does not is read by its type |
| `OpenAIReading.BlockReads` | internal/translate/openai/request.go:209-246 | content blocks: a text is its text, an image that of its URL, any other nothing |
| `OpenAIReading.UrlReads` | internal/translate/openai/request.go:209-246 | a plain URL is kept; a data URI without a comma is nothing |
| `OpenAIReading.MessagesAreShaped` | internal/translate/openai/request.go:268-397 | every printed message is a tool result with text and call, or a message that answers no call, makes only function calls, and is null only without content and calls |
| `OpenAIReading.ToolsAreShaped` | internal/translate/openai/request.go:268-397 | every tool is printed as a function that has parameters |
| `OpenAIReading.ChoicePrints` | internal/translate/openai/request.go:268-397 | a tool choice is printed as one of three words, as the function it names, or not at all |
| `OpenAIMeaning.MissingParametersChange` | internal/translate/openai/request.go:371-381 | an input that fails: missing parameters come back as null |
| `OpenAIMeaning.PrintingKeepsTraffic` | internal/translate/openai/request.go:300-369 | of every canonical request, from any format, printing keeps in order every tool result, and every tool call and all text outside tool and system messages |
| `OpenAIMeaning.DataUriParts` | internal/translate/openai/request.go:227-236 | a printed data URI parses to its media type and data |
| `OpenAIMeaning.ImageSurvives` | internal/translate/openai/request.go:314-326 | every image parsing can give is read back, one with an empty URL included |
| `OpenAIMeaning.ToolsSurviveExactlyWhen` | internal/translate/openai/request.go:371-381 | tools are read back exactly when each is a function with parameters |
| `OpenAIMeaning.ChoiceSurvivesExactlyWhen` | internal/translate/openai/request.go:383-394 | a tool choice is read back exactly when it is absent, a known word, or names a tool |
| `OpenAIMeaning.StopSurvives` | internal/translate/openai/request.go:277-283 | stop sequences are read back |
| `OpenAI.ToCanonical` | internal/translate/openai/request.go:100-189 | the loops build the specified request |
| `OpenAI.ParseMessages` | internal/translate/openai/request.go:136-171 | system messages apart, the others in order |
| `OpenAI.ParseMessage` | internal/translate/openai/request.go:137-171 | a tool message is one result; any other is its parts, then its calls |
| `OpenAI.ParseContent` | internal/translate/openai/request.go:209-246 | parts of known blocks, one empty text if none |
| `OpenAI.ExtractText` | internal/translate/openai/request.go:191-207 | the first text block that has a text |
| `OpenAI.ParseStop` | internal/translate/openai/request.go:114-126 | one string or the strings of a list |
| `OpenAI.FromCanonical` | internal/translate/openai/request.go:268-397 | the loops build the specified wire request |
| `OpenAI.SortContent` | internal/translate/openai/request.go:304-348 | results, blocks and calls of one message in one pass |
| `OpenAI.PrintMessage` | internal/translate/openai/request.go:300-369 | tool results first, then the message unless it is a tool one |
| `OpenAI.PrintOwnMessages` | internal/translate/openai/request.go:300-369 | all messages in order |
| `OpenAI.PrintSystem` | internal/translate/openai/request.go:292-298 | one system message per block |
| `Registry.Registry.TranslateRequest` | internal/translate/registry.go:128-165 | parse, substitute a nonempty model, print; the error of the step that fails |
| `Registry.Registry.Register` | internal/translate/registry.go:79-84 | the format maps to the translator, the others are kept |
| `Registry.Registry.constructor` | internal/translate/registry.go:72-77 | no translators |
| `ClaudeMessages.SentIsWellFormed` | internal/translate/claude/request.go:372-452 | for every conversation: starts with user, no role twice in a row, and says what the conversation said, role by role in order, after at most one leading placeholder, none if it starts with user |
| `ClaudeMessages.SentIsFixed` | internal/translate/claude/request.go:490-558 | both passes leave what was sent as it is |
| `ClaudeMessages.BlocksCarry` | internal/translate/claude/request.go:377-432 | every content but an image without a source becomes one block that carries its fields |
| `ClaudeMessages.MergeKeepsSaid` | internal/translate/claude/request.go:490-508 | merging leaves no equal neighbours and keeps every block with its role and order |
| `ClaudeMessages.AlternatedAlternates` | internal/translate/claude/request.go:525-547 | the alternation loop makes any list alternate |
| `ClaudeMessages.AlternatedIsFixed` | internal/translate/claude/request.go:525-547 | it adds nothing where roles already alternate |
| `ClaudeMessages.ConvertedKeepsSaid` | internal/translate/claude/request.go:372-446 | a single text sent bare says the same as its block |
| `ClaudeMessages.ConvertContent` | internal/translate/claude/request.go:377-437 | the loop builds the blocks of one message |
| `ClaudeMessages.MergeConsecutive` | internal/translate/claude/request.go:490-508 | the loop computes the specified merge, short lists returned as they are |
| `ClaudeMessages.EnsureAlternating` | internal/translate/claude/request.go:525-558 | the loop computes the specified alternation and lead |
| `ClaudeMessages.ConvertMessages` | internal/translate/claude/request.go:372-452 | convert, merge, alternate |
| `StreamMeaning.ClaudeStreamIsHeard` | internal/translate/claude/stream.go:68-215 | of every Claude stream an OpenAI client gets all text and thinking outside server tools' blocks, and every tool start and argument fragment in order |
| `StreamMeaning.ActiveIsInside` | internal/translate/claude/stream.go:126-176 | the reader skips exactly between a server tool's block start and the next stop or known block |
| `StreamMeaning.FinalUsageAddsUp` | internal/translate/claude/stream.go:224-267 | a stream whose last usage came in a message delta ends with prompt, completion and their sum |
| `StreamMeaning.UsageIs` | internal/translate/claude/stream.go:99-124 | the counters are those of the last start and the last delta that stated usage |
| `StreamFinish.OpenAIClientHearsFinish` | internal/translate/claude/stream.go:224-267 | a Claude stream that ends in a message stop ends, for an OpenAI client, with the finish paired with its last stop reason, or none if it gave none |
| `StreamFinish.NoFinishBeforeStop` | internal/translate/claude/stream.go:257-267 | before the message stop an OpenAI client is given no finish |
| `StreamFinish.StopComesBackExactlyWhen` | internal/translate/claude/stream.go:232-243 | a stop reason comes back through OpenAI names exactly when the formats share it: end_turn, max_tokens and tool_use |
| `StreamFinish.ClaudeClientHearsStops` | internal/translate/claude/stream.go:413-466 | of every OpenAI stream a Claude client is given, for each finish in order, the stop reason paired with it, end_turn if none is, and one end of message |
| `StreamFinish.ClaudeClientHearsRoles` | internal/translate/claude/stream.go:271-290 | and one message start for each role, in order |
| `StreamFinish.UsagesAreRead` | internal/translate/openai/stream.go:126-144 | the reader of OpenAI streams keeps the tokens every wire chunk states, in order |
| `StreamBlocks.BlocksCloseExactlyWhen` | internal/translate/claude/stream.go:292-466 | of every OpenAI stream with one finish and no text, thinking or call after it, a Claude client gets every block stopped before the next starts and before the message ends exactly when there was no thinking and no text after the start of a call |
| `StreamBlocks.ThoughtIsLeftOpen` | internal/translate/claude/stream.go:294-322 | an input that fails: a thought and the finish |
| `StreamShape.ChunksAreNamed` | internal/translate/claude/stream.go:99-124 | of a Claude stream that is one message every chunk an OpenAI client gets carries its id, its model and one choice, and the first alone the role assistant |
| `StreamShape.StartsAreNumbered` | internal/translate/openai/stream.go:147-200 | calls that start are numbered from 0 in order |
| `StreamShape.StartsAreFunctions` | internal/translate/openai/stream.go:167-180 | each comes as a function with its id, name and number |
| `StreamShape.FragmentsAreNumberedAhead` | internal/translate/openai/stream.go:167-180 | arguments on their own carry the number after the calls started so far, so not that of their own call |
| `StreamShape.MessagesAreNamed` | internal/translate/openai/stream.go:61-64 | of an OpenAI stream every message start a Claude client gets carries the id and the model of the first chunk |
| `StreamShape.StreamIsShaped` | internal/translate/claude/stream.go:292-466 | blocks are numbered in order, and every part and every stop belongs to the block opened last |
| `StreamShape.PartsMatchBlocks` | internal/translate/claude/stream.go:292-369 | until a tool call comes in every text part is in a text block and every thinking part in a thinking block |
| `StreamMeaning.OpenAIStreamIsHeard` | internal/translate/claude/stream.go:270-420 | of every OpenAI stream a Claude client gets all text and thinking |
| `StreamMeaning.CallsSurviveExactlyWhen` | internal/translate/claude/stream.go:379-419 | it gets every tool start and argument fragment in order exactly when no wire chunk brings a call's id and arguments together |
| `StreamMeaning.WholeCallLosesArguments` | internal/translate/claude/stream.go:379-406 | an input that fails: a call that comes in one chunk |
| `StreamMeaning.UsageNeverReachesClaude` | internal/translate/openai/stream.go:115-142 | usage and finish are read as two chunks, so no message delta sent to a Claude client states usage |
| `StreamMeaning.OpenAIReadSays` | internal/translate/openai/stream.go:55-145 | canonical chunks say what the wire chunks said |
| `StreamMeaning.PiecesKeptExactlyWhen` | internal/translate/claude/stream.go:379-419 | the printer drops arguments exactly of chunks that also start their call |
| `StreamRelay.RelayClaude` | internal/server/routes_v1.go:695-759 | the relay loop sends the printed chunks of the read events, failed ones skipped, and reports the last usage |
| `StreamRelay.RelayOpenAI` | internal/server/routes_v1.go:695-759 | the same towards a Claude client |
| `StreamRelay.RelayOne` | internal/server/routes_v1.go:707-758 | one event of the relay |
| `StreamRelay.SendOpenAI` | internal/server/routes_v1.go:725-758 | the chunks of one event, the index and the usage carried on |
| `StreamRelay.SendClaude` | internal/server/routes_v1.go:725-758 | the chunks of one wire chunk as Claude events |
| `StreamRelay.StreamState.ReadClaude` | internal/translate/claude/stream.go:68-97 | dispatch: new state, chunks, and failure exactly for error events |
| `StreamRelay.StreamState.HandleMessageStart` | internal/translate/claude/stream.go:99-124 | whole new state and the role chunk |
| `StreamRelay.StreamState.HandleBlockStart` | internal/translate/claude/stream.go:126-165 | whole new state; an unknown kind keeps the active block |
| `StreamRelay.StreamState.HandleBlockPart` | internal/translate/claude/stream.go:167-215 | nothing inside a server tool, nothing for an empty text |
| `StreamRelay.StreamState.HandleMessageDelta` | internal/translate/claude/stream.go:224-255 | whole new state with the mapped finish reason and the usage sum |
| `StreamRelay.StreamState.PrintClaude` | internal/translate/claude/stream.go:270-469 | whole new state and the events of the first thing the chunk says |
| `StreamRelay.StreamState.PrintThinking` | internal/translate/claude/stream.go:293-328 | opens a thinking block unless in one |
| `StreamRelay.StreamState.PrintText` | internal/translate/claude/stream.go:330-377 | closes thinking, opens text unless in one |
| `StreamRelay.StreamState.PrintCall` | internal/translate/claude/stream.go:379-406 | closes an open block and starts the call |
| `StreamRelay.StreamState.PrintFinish` | internal/translate/claude/stream.go:422-466 | closes an open block, states the stop reason, stops |
| `StreamRelay.StreamState.PrintOpenAI` | internal/translate/openai/stream.go:147-200 | the chunk in wire form; a call that starts takes the next index |
| `StreamRelay.StreamState.ReadOpenAI` | internal/translate/openai/stream.go:55-145 | whole new state and the chunks in order |
| `StreamRelay.StreamState.ReadChoice` | internal/translate/openai/stream.go:68-123 | role, text, thinking, calls, finish |
| `StreamRelay.StreamState.ReadChoices` | internal/translate/openai/stream.go:68-124 | all choices in order |
| `StreamRelay.StreamState.ReadCalls` | internal/translate/openai/stream.go:98-113 | one chunk per call |
| `StreamRelay.StreamState.ReadSaid` | internal/translate/openai/stream.go:71-96 | role, text and thinking of a choice |
| `EventFraming.SeparatedUndoesCombined` | internal/server/routes_v1.go:2061-2077 | events combined into one payload are taken apart again, if each is a trimmed line |
| `StreamDelivery.ClientHears` | internal/server/routes_v1.go:693-760 | from the bytes sent for any OpenAI stream a Claude client reads back exactly the translated events, and in them all text and thinking of the upstream, if events marshal to JSON lines that unmarshal to them |
| `StreamDelivery.PayloadsAreRead` | internal/server/routes_v1.go:752-757 | everything written is read back as it was, [DONE] last |
| `StreamDelivery.StreamResponse` | internal/server/routes_v1.go:693-760 | the nested loops of translating, combining, splitting and writing send exactly those payloads |
| `StreamDelivery.WriteEvents` | internal/server/routes_v1.go:751-757 | the events of one chunk, combined and taken apart again, are written one payload each |
| `EventFraming.CombineEvents` | internal/translate/claude/stream.go:471-491 | the loop joins the events by newlines |
| `EventFraming.SplitEvents` | internal/server/routes_v1.go:2061-2077 | the loop keeps the trimmed lines that are not blank, the payload itself if there is none |
| `Session.GetAnswers` | internal/routing/session.go:57-109 | after any run: a key set within the TTL is found unless max other keys were set since, and what is found is its last Set |
| `SessionTurns.TurnsAreSets` | internal/routing/session.go:81-109 | in every run a session counts at least one turn and at most the Sets of its key |
| `SessionTurns.StayingCountsAll` | internal/routing/session.go:81-109 | one that is never evicted and never found expired counts every Set |
| `Session.RunStaysSound` | internal/routing/session.go:81-139 | in every run the list holds each key of the map once and no other, and the map stays within its bound |
| `Session.EvictedIsExplained` | internal/routing/session.go:96-100 | the key evicted for a new one had max other keys set after it |
| `Session.RoomIs` | internal/routing/session.go:96-100 | the eviction loop ends, after at most one eviction |
| `Session.SessionCache.constructor` | internal/routing/session.go:37-44 | empty, with the default TTL and bound |
| `Session.SessionCache.Get` | internal/routing/session.go:57-79 | the found entry or none, and the new state |
| `Session.SessionCache.Set` | internal/routing/session.go:81-109 | the new state |
| `Session.SessionCache.EvictToFit` | internal/routing/session.go:96-100 | ends with room for one more |
| `Session.SessionCache.Evict` | internal/routing/session.go:132-139 | the oldest key goes |
| `Session.SessionCache.RemoveLRU` | internal/routing/session.go:123-130 | the key leaves the list |
| `Session.SessionCache.TouchLRU` | internal/routing/session.go:118-121 | the key moves to the end |
| `Conversation.RunAccounts` | internal/routing/conversation.go:53-151 | in every run the size is the sum of all stored turns and every stored key is in the list |
| `Histories.LookupTells` | internal/routing/conversation.go:91-109 | after any run a lookup finds the last turns added, in order, with the model they named last and the time of the last one, which is within the TTL; it finds nothing exactly when the conversation is not stored or its last turn is older |
| `Histories.StoredTellsAll` | internal/routing/conversation.go:53-109 | a conversation that stays stored keeps all its turns |
| `Conversation.AddAccounts` | internal/routing/conversation.go:53-89 | right after a new conversation the size is within the budget or just that turn; an old conversation grows by the turn |
| `Conversation.RoomAccounts` | internal/routing/conversation.go:62-66 | eviction ends with the turn fitting or nothing stored |
| `Recency.WithoutExpiryIsLeastRecentlyUsed` | internal/routing/conversation.go:125-142 | in every run whose lookups find nothing expired the list is that of the stored conversations in the order of their updates, and eviction takes the least recently updated one |
| `Recency.RunEvictsLeastRecent` | internal/routing/conversation.go:62-66 | in every run that never continues a conversation gone but still listed, no conversation kept was updated before one that makes room |
| `Recency.ListedOnceExactlyWhen` | internal/routing/conversation.go:68-71 | throughout a run every key is listed once exactly when no such conversation is ever continued |
| `Recency.StepKeepsDistinctExactlyWhen` | internal/routing/conversation.go:68-71 | the same for one call |
| `Recency.EvictsLeastRecentExactlyWhen` | internal/routing/conversation.go:125-142 | in every run with distinct clock readings, what eviction takes was used longest ago exactly when no stored conversation has its last listing before that of the first key |
| `Recency.RunUsesInOrder` | internal/routing/conversation.go:125-133 | in every run, expiries or not, the last listings of stored conversations are in the order of their updates |
| `Recency.GetKeepsTidyExactlyWhen` | internal/routing/conversation.go:102-107 | a lookup keeps the list in step with the map exactly when it finds nothing expired |
| `Recency.AddKeepsTidy` | internal/routing/conversation.go:53-89 | adding turns keeps it in step |
| `Recency.EvictionIsNotLeastRecentlyUsed` | internal/routing/conversation.go:102-142 | an input that fails: a conversation that expired, was looked up and continued goes first although it was updated last, when a third one goes over the budget |
| `Conversation.ConversationStore.constructor` | internal/routing/conversation.go:43-50 | empty, with the default budget and TTL |
| `Conversation.ConversationStore.AddTurn` | internal/routing/conversation.go:52-89 | the new state |
| `Conversation.ConversationStore.GetHistory` | internal/routing/conversation.go:91-109 | the found history or none, and the new state |
| `Conversation.ConversationStore.Fit` | internal/routing/conversation.go:63-66 | the eviction loop |
| `Conversation.ConversationStore.Evict` | internal/routing/conversation.go:135-142 | the first key of the list goes |
| `Conversation.ConversationStore.Remove` | internal/routing/conversation.go:144-151 | the history goes and its turns are subtracted |
| `Conversation.ConversationStore.TouchLRU` | internal/routing/conversation.go:125-133 | the key moves to the end |
| `Limiter.AnswersAsHistory` | internal/ratelimit/limiter.go:23-52 | after any run the pruned windows answer as the rule over the full history: fewer than rpm admissions in the closed last minute |
| `Limiter.NeverOverTheLimit` | internal/ratelimit/limiter.go:23-52 | for a key with a positive limit no closed one-minute interval of any run holds more admissions than the limit |
| `Limiter.CleanupIsInvisible` | internal/ratelimit/limiter.go:54-72 | cleanups anywhere in a run never change an answer |
| `Limiter.AdmissionsAreSpaced` | internal/ratelimit/limiter.go:23-52 | admissions limit places apart are more than a minute apart |
| `Limiter.Limiter.Allow` | internal/ratelimit/limiter.go:23-52 | the answer and the new windows |
| `Limiter.Limiter.Cleanup` | internal/ratelimit/limiter.go:54-72 | every window pruned, empty ones dropped, in whatever order |
| `Limiter.Limiter.Prune` | internal/ratelimit/limiter.go:37-43 | the leading old times go |
| `Limiter.Limiter.constructor` | internal/ratelimit/limiter.go:16-21 | no windows |
| `Catalog.RowIsLastOfHighest` | internal/catalog/sqlite.go:172-203 | after any run a pricing row is the last offer of the highest source rank since the row was deleted, absent exactly when there was none |
| `Catalog.ModelRowIsLast` | internal/catalog/sqlite.go:55-96 | the same for models, where discovery and openrouter share a rank |
| `Catalog.BulkIsAllOrNothing` | internal/catalog/sqlite.go:242-293 | a bulk update fails exactly when one update would, changing nothing; otherwise it is the updates one by one |
| `Catalog.OfferedExactlyWhen` | internal/catalog/sqlite.go:178-203 | a model can be put exactly if its source is one of the four, a price exactly if its model is there too |
| `Catalog.PricingReplacesByRank` | internal/catalog/sqlite.go:46-49 | the pricing clause orders the sources seed, discovery, openrouter, user |
| `Catalog.ModelReplacesByRank` | internal/catalog/sqlite.go:84-86 | the model clause orders seed, both discoveries, user |
| `Catalog.SqliteCatalog.UpsertModel` | internal/catalog/sqlite.go:65-96 | the error or the new tables |
| `Catalog.SqliteCatalog.Execute` | internal/catalog/sqlite.go:182-198 | one execution of the statement: a missing model is an error |
| `Catalog.SqliteCatalog.UpsertPricing` | internal/catalog/sqlite.go:178-203 | the error or the new tables |
| `Catalog.SqliteCatalog.DeletePricing` | internal/catalog/sqlite.go:225-240 | the row goes, no error if absent |
| `Catalog.SqliteCatalog.Apply` | internal/catalog/sqlite.go:275-288 | the loop of the transaction |
| `Catalog.SqliteCatalog.BulkUpsertPricing` | internal/catalog/sqlite.go:246-293 | an error rolls back |
| `Catalog.SqliteCatalog.constructor` | internal/catalog/sqlite.go:26-28 | empty tables |

## Left out

- Selectors.Selector.Select: interference inside one selection is not modelled there; the pass and the claim run as one step, and `Protocol` lets others act between any two atomic calls.
- Fallback.Server.Interfere: the other actors are arbitrary changes of connection state between the steps of a request, more than the source can do, so nothing is claimed there about who made them.
- Connections.Connection.Become: stands for such a change; it models no method.
- StableSorting.SliceStable: the library's stable sort is modelled as an insertion sort; only its result matters.
- Session.SessionCache.Get: looks up and removes an expired entry in one step; the source releases its lock in between, and its callers receive the entry itself, not a copy.
- Conversation.ConversationStore.GetHistory: the same, as in the session cache.
- RefreshLoop.Loop.RefreshOne: runs with nothing else acting on the connection; `Protocol` has the interleavings.
- OpenAI.ToCanonical: starts from parsed JSON; raw JSON values are compared as values, so whitespace is not seen, and cache control and thinking settings, which OpenAI requests lack, are not in the canonical request.
- ClaudeMessages.ConvertMessages: the message half of the printer; cache control marks and the parsing of tool arguments into JSON are not modelled, so a text with a mark, which the source keeps as a block, is sent bare here; the blocks it says are the same.
- StreamRelay.StreamState.ReadClaude: an event that does not parse is one kind of failure, whatever field was wrong.
- StreamMeaning.FinalUsageAddsUp: the sum is claimed only after a message delta that states usage; before one the source leaves the total as it was.
- Catalog.RowIsLastOfHighest: row timestamps are not modelled; foreign keys are enforced, as the source asks of its callers.
- Bpe.Count: the pre-token pattern is not modelled; the chunks are an input.
- FilterCatalog.ApplyFilter: a compiled pattern is any function on texts.
- Conversation.ConversationStore.AddTurn: compressed content is an input.
- Connections.Connection.CheckConnection: runs the two halves of a health check, which lock the connection one after the other, with nothing in between; `Protocol` and `ConnectionRuns` have them as separate calls.
- Fallback.Server.MarkConnectionResult: one error text for each kind of failure; the variants' own texts and the invalidation of a cached credential are not modelled.
- Combo.HandleCombo: what each member leads to is an input, so the walk is not composed with `Fallback`.
- StreamRelay.RelayClaude: the stream is the events before [DONE]; scanner errors end it early and are not modelled.
- StreamRelay.RelayOpenAI: the same.
- StreamDelivery.StreamResponse: the direction from OpenAI to Claude; in the other each chunk is one payload. Marshalling to JSON is any function to single lines.
- ClaudeMessages.ConvertContent: cache control marks and the parsing of tool arguments, as in `ConvertMessages`.
- Registration and removal of connections during a run, and the selector's table of providers.
- The credential cache of a connection and its loading, and the variant-specific texts of authentication errors.
- Go's mutexes, slices that share memory, and 64-bit wrap-around of counters and times, except in the cooldown shift.
- JSON text, gzip, hashing of session keys, and the scanner's longest line.
- HTTP clients, OAuth, the database driver, encryption, logging, the dashboard and the command line.
- The Gemini and Responses translators, parsing of Claude requests, and translation of responses that are not streamed.
- StreamShape.StreamIsShaped: not that every block opened is closed, which holds exactly when `StreamBlocks.BlocksCloseExactlyWhen` says.
- The catalog's in-memory cache, discovery loops and price estimates.
