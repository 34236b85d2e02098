# Verified model of the GROK-GO gateway core

GROK-GO is a self-hosted gateway that spreads requests over a pool of upstream accounts and translates the upstream's
event stream into OpenAI and Anthropic formats. This project models the parts of it in which state is shared or
translated, and proves what they promise, in Dafny 4.11. `dafny verify dfyconfig.toml` checks all of it.

The model has five parts.

**Account scheduler.** `Accounts` holds accounts, quota and the feedback switch of `release`; `ReleaseCases` says, case
by case, what a release does; `Feedback` follows late feedback through the PostgreSQL row merge and the reloads of
several instances; `Selection`, `PoolSelect` and `PoolObject` (class `Pool`) choose, reserve, roll back, release,
reload and retry; `Ranking` says which of two candidates is chosen and what the weights of the score are worth;
`Reservations` counts local reservations and coordinated slots over every interleaving; `LeaseSet`, `Cooldown` and
`Affinity` are the Redis keys with their Lua scripts.

**Event codec.** `Events` says what a list of normalized events means. `Stream` is the streaming encoder as functions
and `StreamObject` the same encoder as a class that updates its fields per event; `ResponsesSlots`, `MessagesBlocks`
and `ChatChunks` are strict clients for its three formats, and `ResponsesIds` checks the item IDs of the first.
`Accumulate` is the non-streaming consumer. `Parser`, `ParserObject` and `ParserCalls` are the upstream parser;
`ParserHears` and `ParserShows` say what it makes of a whole stream: errors, text, reasoning, usage and the end, and
the media. `Framing` is the line framing (server-sent events, sections 9.2.5 and 9.2.6 of the WHATWG HTML Standard),
and `Encoding`, `RoundTrip`, `RoundTripTheorem` and `StreamRoundTrip` prove that a written Responses stream reads back
as the events it was made of; `CodecWitness` is a JSON codec that meets their assumption.

**Tool names** (`ToolAliases`), **sessions and the OAuth refresh lock** (`Sessions`, `OAuthRefresh`), and **the media
store** (`MediaStore`).

Conventions: times are integers on one clock that never runs backwards, in nanoseconds unless a module says
milliseconds; scores and health are reals; a Dafny `char` is one rune; digests are injective and generated IDs fresh;
what other processes do is a nondeterministic step, and an answer from Redis, PostgreSQL, the disk or the provider is
a parameter of the step or a nondeterministic choice. `Text`, `Options`, `Numbers` and `Sets` are helpers.

Some promises turned out to hold only under a condition. Each of these has a lemma with an input that breaks it and a
statement of when it holds:

- The row merge frees a blocked row exactly when an active row with an unexpired deadline meets an active write with
  an earlier or no deadline (`MergeNeverEarlierIff`, over whole runs `FeedbackNeverEarlierIff`). The pool makes no
  such row (`PoolKeepsClean`); an administrator can create one.
- A release relaxes the pool's own copy exactly in the cases of `ReleaseKeepsBlockingIff`; the next reload restores
  it.
- Round robin is fair exactly while the 64-bit cursor does not wrap inside a cycle, or wraps evenly
  (`EveryAccountOncePerCycleIff`).
- The alias search needs at most |used| + 1 tries exactly when the base does not end with a marker at full width
  (`SearchWithinUsedIff`), and |used| + 2 in any case.
- Restoring tool names undoes the aliases exactly when no namespace has two names with the same first free alias
  (`WalksAgreeIff`, `NamespaceRestoresIff`, for whole lists `ListRestoresIff`), because Go walks the aliases of a
  namespace in any order.
- Streaming and non-streaming agree after every event exactly when no event is led astray by an item ID in a way that
  shows (`ConsumersAgreeIff`).
- The local counter equals pending reservations plus unreleased leases exactly when no busy account is dropped
  (`CounterIsExactIff`).
- Revocation of a session is final exactly when tombstones live as long as sessions (`RevocationIsFinalIff`).
- A rotation bars the sessions created at or before its not-before time exactly when it is stored at a later time
  (`RotationBarsIff`); otherwise one inserted after it in the same instant authenticates from the cache.
- The blocks of a Messages stream add up to every tool's arguments exactly when tools that share an ID have none
  (`MessagesBlocks.ClientAccepts`), and the frames of a Responses stream agree on item IDs exactly when those of its
  calls do not change (`IdsAgreeIff`).
- Media events appear in a re-read stream exactly when the model name, the text or the reasoning is a media link
  (`MediaFreeRoundTrip`).
- A cooldown D binds every instance up to its millisecond exactly when the key does not already hold a deadline of an
  earlier millisecond that Lua's numbers cannot tell from D (`CooldownBindsEveryInstanceIff`).
- A failed acquire leaves a coordinated slot behind exactly when the reply to a granted request was lost or the return
  of the slot was not executed (`FailureLeavesSlotIff`).

Where code and documentation differ, the model follows the code.

## Model

| member | source | states |
|---|---|---|
| Accounts.TransientBackoff | internal/accounts/pool.go:892-901 | the loop returns base · 2^(failures−1) capped at the maximum, and never less than the base |
| Accounts.QuotaWindow | internal/accounts/pool.go:868-885 | a quota blocks at exactly the times before one fixed end, always naming that end: the stored reset or, for an unknown one, the observation plus the fallback |
| Accounts.ResetEndsWindow | internal/accounts/pool.go:844-860 | a reset exists exactly for an exhausted quota that was just observed or still blocks; it is the end of the block, or the fallback wait when no block lies ahead |
| Feedback.MergeNeverEarlierIff | internal/store/accounts.go:166-209 | a write keeps every blocked time blocked if and only if it does not set an active row with a later unexpired deadline to active |
| Feedback.SuccessCanFreeActiveRow | internal/store/accounts.go:187-192 | an active row with a deadline is freed by a late success |
| Feedback.TerminalIsFrozen | internal/store/accounts.go:168-203 | a disabled, expired or failed row keeps everything but its last use, whatever is written |
| Feedback.WriteTakesHold | internal/store/accounts.go:187-192 | whatever the feedback blocks, the row blocks after a write with the row's credentials |
| Feedback.ReleaseKeepsBlockingIff | internal/accounts/pool.go:652-786 | the pool's copy stays blocked through a release except for revived terminal accounts, a success over an active account's deadline, and a transient failure with a shorter back-off: exactly these |
| Feedback.TransientShortens | internal/accounts/pool.go:771-782 | a server error replaces a long local deadline by a short one |
| Feedback.ReloadDominates | internal/accounts/pool.go:216-238 | a reloaded copy blocks whatever the listed row blocks |
| Feedback.ReleaseMergeReloadIff | internal/accounts/pool.go:805-815 | after release, row merge and reload the copy blocks all that the row blocked, if and only if the merge does not free an active row with a later deadline |
| Feedback.FeedbackNeverEarlierIff | internal/accounts/pool.go:641-829 | in every run of leases, feedback, late or failed writes and reloads on any instances a terminal row stays frozen and no blocked time is freed, if and only if the row is not active with a deadline ahead |
| Feedback.PoolKeepsClean | internal/accounts/pool.go:652-815 | where no row, copy or write is active with a deadline, no run of the pool makes one |
| Feedback.ReloadedCopyIsAsStrict | internal/accounts/pool.go:199-250 | unless the row starts active with a deadline ahead, a listing taken and applied at any points of any run leaves a copy that blocks all that the row blocked at the start |
| Feedback.ProbeDoesNotReactivate | internal/accounts/pool.go:757-764 | a successful probe revives the copy, not the row, and the next reload takes it back |
| Selection.ChoiceIsUnique | internal/accounts/pool.go:527-580 | at most one account meets the order-free specification of selection |
| Selection.RoundRobinIsFairIff | internal/accounts/pool.go:562-569 | n consecutive cursor values hit each of n indices exactly once if and only if the cycle does not wrap or 2^64 is a multiple of n |
| Selection.EveryAccountOncePerCycleIff | internal/accounts/pool.go:562-569 | the same for the accounts picked from an unchanged candidate set |
| Selection.WrapRepeatsAnAccount | internal/accounts/pool.go:566-568 | three candidates at the wrap get the same account twice in a row |
| Selection.LessTotal | internal/accounts/pool.go:563-565 | IDs are totally ordered, so ties have one winner |
| PoolObject.Pool.constructor | internal/accounts/pool.go:132-173 | a new pool has no states, affinities or cursors; each setting that makes no sense is replaced by its default and the others are kept |
| PoolObject.Pool.DurablyEligible | internal/accounts/pool.go:593-616 | answers the eligibility predicate of the old state and promotes an account whose cooldown is over |
| PoolObject.Pool.IsEligible | internal/accounts/pool.go:582-591 | eligible means durably eligible with a free slot |
| PoolObject.Pool.Collect | internal/accounts/pool.go:528-534 | in any walking order, the candidates are exactly the eligible accounts not excluded, each once, and exactly the tested accounts are promoted |
| PoolObject.Pool.KeepBestTier | internal/accounts/pool.go:538-550 | exactly the candidates no other candidate outranks |
| PoolObject.Pool.PickBest | internal/accounts/pool.go:571-579 | the account that beats every other by score, then by smaller ID; the `Ranking` rows say what the score prefers |
| Ranking.ChosenIsFit | internal/accounts/pool.go:582-616 | whatever strategy: the answer of a selection is not excluded, active or with its cooldown over, offers the model at its tier, is below its limit, and its quota does not block it |
| Ranking.FitIsChosenFrom | internal/accounts/pool.go:582-616 | conversely every such account is a candidate, and while there is one a selection does not come back empty |
| Ranking.TierNames | internal/accounts/pool.go:923-932 | three tiers, told by name in any case |
| Ranking.BestTierWins | internal/accounts/pool.go:538-550 | with a preference for the best tier no account of a lower tier than some candidate is chosen |
| Ranking.HigherPriorityWins | internal/accounts/pool.go:618-634 | of two candidates that differ in priority only, the lower one is never chosen |
| Ranking.HealthierWins | internal/accounts/pool.go:618-634 | nor the less healthy one |
| Ranking.FewerInFlightWins | internal/accounts/pool.go:618-634 | nor the busier one |
| Ranking.FewerFailuresWin | internal/accounts/pool.go:618-634 | nor the one with more failures, counted up to ten |
| Ranking.LongerRestWins | internal/accounts/pool.go:627-633 | nor the one used later, within the last minute |
| Ranking.MoreQuotaWins | internal/accounts/pool.go:619-639 | nor the one with the smaller part of its quota left: the scarcer of requests and tokens, an unlimited one never scarce |
| Ranking.PriorityAgainstLoad | internal/accounts/pool.go:634 | one step of priority against n more in flight: it wins below fifty, loses above, and at fifty the smaller ID wins |
| Ranking.HealthAgainstLoad | internal/accounts/pool.go:634 | full health against none is worth five in flight, in proportion |
| Ranking.FailuresAgainstLoad | internal/accounts/pool.go:634 | five failures are worth one in flight |
| Ranking.QuotaAgainstLoad | internal/accounts/pool.go:619-634 | four fifths of a quota are worth one in flight |
| Ranking.RestAgainstLoad | internal/accounts/pool.go:626-634 | a use just now is worth three quarters of one in flight, and fades evenly within a minute |
| PoolObject.Pool.Select | internal/accounts/pool.go:527-580 | the result is the account the specification singles out (affinity hit, cursor rank, or best), none exactly when there is no candidate, and the cursor advances by one modulo 2^64 under round robin only |
| PoolObject.Pool.RollbackReservation | internal/accounts/pool.go:487-500 | one reservation less, never below zero, the deadline only grows, and the counters move as in the reservation protocol |
| PoolObject.Pool.ReleaseLocked | internal/accounts/pool.go:641-794 | the locked part of release computes the release function, touches no other account, drops the entry of the conversation exactly when the account is gone or unfit and the entry is its own, and gives one reservation back; the `ReleaseCases` rows say what the function does |
| PoolObject.Pool.Switch | internal/accounts/pool.go:695-783 | the feedback switch computes the function that the `ReleaseCases` and `Feedback` rows are about |
| ReleaseCases.ReservationReturned | internal/accounts/pool.go:652-655 | a release gives one reservation back and changes nothing of the account but standing, quota and the time its use was written |
| ReleaseCases.FeedbackRecorded | internal/accounts/pool.go:684-694 | feedback on the present credentials takes a new quota, records health and failures, writes the use at most every half minute, and publishes a new quota |
| ReleaseCases.ForeignFeedback | internal/accounts/pool.go:656-683 | with other credentials by now nothing is judged or written; a blocked account is coordinated until the later of its ends, a terminal one without an end for the forbidden wait, and loses the conversation |
| ReleaseCases.ClosedMeanwhile | internal/accounts/pool.go:699-701 | an account closed while it was leased keeps its standing and is coordinated for the forbidden wait |
| ReleaseCases.RateLimited | internal/accounts/pool.go:702-732 | after a 429 the copy, its account and the coordinator have one deadline, the least one not before the old deadline, the reset of the quota and the wait, which is the upstream's, else that of the kind, else a quarter of an hour; health falls to 45 percent, a failure is counted, all is written and published and the affinity dropped |
| ReleaseCases.Forbidden | internal/accounts/pool.go:733-743 | 401, 403 and 423 disable the account without a deadline of its own, coordinate the forbidden wait and cut health to a quarter |
| ReleaseCases.QuotaSpent | internal/accounts/pool.go:744-757 | otherwise an exhausted quota cools until the later of its reset and the old deadline |
| ReleaseCases.LateSuccess | internal/accounts/pool.go:758-762 | a success over a cooldown that began meanwhile leaves it standing |
| ReleaseCases.Success | internal/accounts/pool.go:763-774 | any other success makes the account active, clears failures and deadline and adds 0.12 to health up to one; it is written and published exactly when there was something to recover from |
| ReleaseCases.ServerError | internal/accounts/pool.go:777-788 | a failure or server error cools for the back-off of one failure more |
| ReleaseCases.NoVerdict | internal/accounts/pool.go:775-776 | a cancelled request or any other answer leaves the standing alone |
| ReleaseCases.BackoffDoubles | internal/accounts/pool.go:892-901 | the first wait is the base, each further one twice as long, up to the maximum |
| ReleaseCases.ForeignWriteChangesNothing | internal/store/accounts.go:166-209 | the row of other credentials is not touched |
| ReleaseCases.CoolingRowKeepsStanding | internal/store/accounts.go:166-209 | a cooling row takes quota and use from a success and nothing else |
| ReleaseCases.OpenRowTakesFeedback | internal/store/accounts.go:166-209 | any other open row becomes what the feedback says; of two deadlines of a cooling account the later stays |
| ReleaseCases.ReloadTakesRow | internal/accounts/pool.go:214-250 | a reload replaces the account by the row, keeps the reservations and the later deadline |
| ReleaseCases.NewAccountTakesRow | internal/accounts/pool.go:214-250 | an account new to the pool has nothing in flight and the deadline of its row |
| PoolObject.Pool.ApplyListing | internal/accounts/pool.go:214-250 | exactly the listed accounts remain, each reconciled with its copy, affinities only to active accounts, and counters as in the reservation protocol |
| PoolObject.Pool.RemoveAccounts | internal/accounts/pool.go:257-277 | afterwards no account is known and no conversation bound whose ID is named, up to surrounding space; blank names, all other accounts and bindings and their counters are left alone |
| PoolObject.Pool.PruneAffinities | internal/accounts/pool.go:903-919 | expired entries go, then least recently used ones, and no more than needed to stay below the maximum |
| PoolObject.Pool.LeastRecentlyUsed | internal/accounts/pool.go:909-917 | in any walking order, an entry used no later than every other |
| PoolObject.Pool.ClearLocalAffinity | internal/accounts/pool.go:468-485 | the entry goes only while it is that of the given account |
| PoolObject.Pool.Prefer | internal/accounts/pool.go:318-348 | with or without a coordinator the reported account is bound and usable and a stale one is bound and unusable with its entry gone; the capacity flag is the local limit or a refusal; a non-empty answer of the coordinator is always reported one way or the other, and so is the pool's own entry where no unexpired entry has to make room; the entry left is that of the reported account |
| PoolObject.Pool.Reserve | internal/accounts/pool.go:359-371 | the reserved account is the one selection singles out, active again if its cooldown is over and just used; none exactly when nothing is eligible; the counters take the reservation step of the protocol |
| PoolObject.Pool.ReserveForProbe | internal/accounts/probe.go:24-46 | status is ignored, the limit is not; unknown and busy accounts change nothing, and a reservation is the step of the protocol |
| PoolObject.Pool.Coordinate | internal/accounts/pool.go:373-464 | the answers decide the end of the round: a failure exactly for a met error (an unreadable cooldown, a binding that could not be cleared, a lost slot reply, missing credentials, no bind answer), an exclusion for a cooling or full account, and else the lease, with the conversation bound as the coordinator says; every way out but a lease takes the reservation back, with the coordinated deadline if the account is cooling |
| PoolObject.Pool.Acquire | internal/accounts/pool.go:310-466 | with a coordinator the loop ends within one round per account of the pool not excluded plus two, whatever other callers do and however the table changes; every round ends as its table and its answers demand; a lease was selected, eligible and granted; a refusal means every other account was ineligible or turned down by the coordinator; a failure means the last round met an error, and where all goes well in all rounds the call leases or finds no account |
| PoolObject.FailedMetError | internal/accounts/pool.go:373-464 | a round that fails met one of the errors on its way, or could not clear a binding to an unusable account |
| PoolObject.WelcomedIsLeased | internal/accounts/pool.go:310-466 | a round that finds no unusable binding and some candidate, and whose answers are all welcome, ends with a lease of the selected account |
| PoolObject.Pool.AcquireLocally | internal/accounts/pool.go:310-466 | without a coordinator the loop goes on only while each round finds the conversation bound to an unusable account, and with affinity and room for all unexpired entries exactly while it does; without affinity it ends at once; a lease is of the account the strategy singles out, with the conversation's entry written; a refusal means nothing was eligible and a failure that credentials are missing |
| Reservations.ReservationsAreConserved | internal/accounts/pool.go:361-428 | in every interleaving the counter never exceeds pending reservations plus unreleased leases, and every slot owner will be returned or is an orphan |
| Reservations.CounterIsExactIff | internal/accounts/pool.go:214-277 | the counter equals pending reservations plus unreleased leases in every state of a run, if and only if every reload or removal that drops the account finds it at zero |
| Reservations.CounterWithinLimitIff | internal/accounts/pool.go:361-366 | the counter stays within the effective limit in every state of a run, if and only if no reload cuts the limit below it |
| Reservations.FailureLeavesSlotIff | internal/accounts/pool.go:374-428 | a finished attempt holds no reservation and, unless its slot expired, an owner in the lease set if and only if a granted request lost its reply or the return of the slot was not executed |
| Reservations.OrphansWereLeftBehind | internal/accounts/pool.go:397-401 | the orphans are exactly the attempts that some step of the run left behind |
| Reservations.QuiescenceIsEmpty | internal/accounts/pool.go:647-684 | when all attempts have ended every counter is zero |
| Reservations.SecondReleaseChangesNothing | internal/accounts/pool.go:980-986 | after any further run a second release of a lease changes nothing |
| Reservations.DroppingLosesCount | internal/accounts/pool.go:222-243 | an account dropped and listed again while leased counts one lease less |
| Reservations.LostReplyLeavesOwner | internal/accounts/pool.go:397-401 | a lost reply leaves an owner behind a failed acquire |
| LeaseSet.LeaseSetRefinesMap | internal/database/redis.go:184-219 | over any run of acquires, releases, time and evictions, the sorted set with its key expiry answers as a plain map from owner to deadline, with the same live owners |
| LeaseSet.LiveOwnersWithinLimit | internal/database/redis.go:184-199 | under one common limit the live owners never exceed it |
| LeaseSet.ReplayTakesNoSlot | internal/database/redis.go:188-194 | a replay by a live owner is granted at any limit and takes no second slot; it moves its own deadline or, with a lifetime below a millisecond, gives its slot up |
| LeaseSet.GrantedHoldsIff | internal/database/redis.go:181-200 | a granted owner is live if and only if the lifetime is at least one millisecond |
| LeaseSet.LeaseKey.AcquireLeaseSlot | internal/database/redis.go:177-205 | the script, command by command, computes the acquire function |
| LeaseSet.LeaseKey.ReleaseLeaseSlot | internal/database/redis.go:207-224 | the script, command by command, computes the release function |
| Cooldown.DeadlineNeverDecreases | internal/database/redis.go:157-173 | until it expires or is cleared a stored deadline never decreases |
| Cooldown.CooldownBindsEveryInstanceIff | internal/accounts/redis_coordinator.go:201-238 | after SetCooldown(D) no acquire on any instance that begins later gets a lease before D in whole milliseconds, in any run that clears nothing, if and only if the key does not hold a deadline of an earlier millisecond that looks no earlier to Lua |
| Cooldown.CooldownBindsUpToGrain | internal/accounts/redis_coordinator.go:201-238 | in any case none gets one before D less 256 ns in whole milliseconds |
| Cooldown.CooldownEnds | internal/accounts/redis_coordinator.go:201-238 | after any run nobody is turned away once every deadline set in the run, or held at its start, is past |
| Cooldown.MaskedOnlyWithinGrain | internal/database/redis.go:162-165 | such a masking deadline lies within 256 ns of D, in the millisecond before |
| Cooldown.MaskingHappens | internal/database/redis.go:162-167 | a deadline at the start of a millisecond is masked by the one a nanosecond earlier |
| Cooldown.LuaMonotone | internal/database/redis.go:162-165 | rounding to Lua numbers is monotone |
| Cooldown.CooldownKey.Advance | internal/database/redis.go:157-173 | the script computes the function, and reports an update exactly when no visible value is as late |
| Cooldown.CooldownKey.CooldownUntil | internal/accounts/redis_coordinator.go:201-221 | cooling exactly while the visible deadline is ahead |
| Affinity.NoSilentRebinding | internal/database/redis.go:122-153 | between two accounts of one key lies an owner-matched delete or an expiry |
| Affinity.AffinityKey.BindAffinity | internal/accounts/redis_coordinator.go:147-186 | with any operations of others between its commands, a success returns a value the key held at an instant of the call, renewed for the lifetime in milliseconds, and "created" only the own account set on an unbound key; without account or lifetime nothing is done; it fails only for these, a command that failed, an empty account in the key, or three attempts each disturbed by others, and undisturbed it answers the holder or takes the key |
| Affinity.AffinityKey.ClearAffinity | internal/accounts/redis_coordinator.go:188-199 | the binding goes only while it is that of the given account |
| Stream.HandleRecords | internal/gateway/stream.go:139-201 | writing frames never changes what was recorded but the output slots |
| StreamObject.StreamState.Record | internal/gateway/stream.go:156-201 | the in-place recorder computes the recording function |
| StreamObject.StreamState.ResponsesEvent | internal/gateway/stream.go:231-282 | the in-place Responses encoder computes the frames of the function |
| StreamObject.StreamState.MessagesEvent | internal/gateway/stream.go:284-326 | the in-place Messages encoder computes the frames of the function |
| StreamObject.StreamState.CloseBlock | internal/gateway/stream.go:328-336 | closing a block writes its stop and advances the index |
| StreamObject.StreamState.FinishResponses | internal/gateway/stream.go:361-391 | the closing frames and the output array are those of the function |
| StreamObject.StreamState.Finish | internal/gateway/stream.go:338-359 | the in-place finish computes the function |
| StreamObject.RunStream | internal/gateway/stream.go:127-154 | the object driven over a list of events ends in the state of the functional run |
| ResponsesSlots.ReachableSlots | internal/gateway/stream.go:231-282 | in every reachable state the slots handed out are distinct and exactly 0..next−1, each with one owner whose deltas add up to the recorded content |
| ResponsesSlots.ClientAccepts | internal/gateway/stream.go:361-391 | a strict client accepts every finished stream: each added item is done exactly once, every slot of the final output is filled, each done text equals its deltas, up to "{}" for blank arguments, recorded text, reasoning and tools all have entries, and the final frame carries the usage |
| ResponsesIds.IdsAgreeIff | internal/gateway/stream.go:231-391 | every part, delta and closing frame carries the ID announced at its slot if and only if, in the recording of the events, the item ID of no call changes between its announcement, its fragments and its end |
| MessagesBlocks.ReachableBlocks | internal/gateway/stream.go:284-336 | in every reachable state the client has the encoder's block open and the contents recorded |
| MessagesBlocks.ClientAccepts | internal/gateway/stream.go:338-359 | every finished run is well bracketed; deltas add up to text and reasoning, and the blocks of each tool ID to the fragments recorded under it; these are every tool's arguments if and only if tools that share an ID in the recording of the events have none |
| MessagesBlocks.NamedCallsMatch | internal/gateway/stream.go:166-199 | when every call event carries an ID the blocks of each ID add up to the arguments of its tool |
| MessagesBlocks.NonEmptyIdsAreDistinct | internal/gateway/stream.go:166-199 | calls that carry their own IDs get entries with distinct IDs |
| MessagesBlocks.EmptyIdCanCollide | internal/gateway/stream.go:170-189 | a call without an ID can get the ID of an earlier call, and then the client has the arguments of neither |
| ChatChunks.ClientAccepts | internal/gateway/stream.go:203-229 | every finished chat stream is accepted: chunks add up to text, reasoning and each call's arguments under its index, ID and first name, and the finish reason tells whether there were calls |
| ChatChunks.RecordsAsResponses | internal/gateway/stream.go:139-154 | chat and Responses streams record the same answer |
| Accumulate.AccumulatesObservations | internal/gateway/response.go:37-76 | the accumulator collects exactly the text, reasoning, usage and ordered calls of the events, an event without an ID counting for the first call with its generated ID or its index |
| Accumulate.StreamObserves | internal/gateway/stream.go:156-201 | so does the streaming recorder, for clean IDs and no media |
| Accumulate.ConsumersAgreeIff | internal/gateway/response.go:37-76 | for media-free events whose calls carry IDs both consumers have the same text, reasoning, usage and ordered tools after every event, if and only if every event that an item ID leads to another call belongs to a known call and changes neither |
| Accumulate.ItemIdCanMergeCalls | internal/gateway/stream.go:174-193 | an item ID equal to another call's ID makes the stream merge two calls |
| Accumulate.Accumulator.AddEvent | internal/gateway/response.go:37-59 | the in-place accumulator computes the function |
| Accumulate.Accumulator.AddCall | internal/gateway/response.go:61-76 | the in-place tool list computes the function |
| Parser.NothingAfterDone | internal/upstream/event_parser.go:36-90 | over any run at most one Done is emitted and nothing follows it |
| ParserCalls.CallsAreIndependent | internal/upstream/event_parser.go:101-175 | in any interleaving of distinct calls with other payloads, frames routed by item ID, call ID or an output index shown before, each call emits what its own automaton emits, in order of first appearance |
| ParserCalls.ArgumentsExactlyOnce | internal/upstream/event_parser.go:57-114 | whichever of deltas, arguments-done and item-done a call sends, the emitted fragments concatenate to its full arguments |
| ParserObject.SseParser.ToolState | internal/upstream/event_parser.go:116-161 | the in-place lookup and creation of a tool computes the function |
| ParserObject.SseParser.BindToolKeys | internal/upstream/event_parser.go:170-175 | all keys lead to the tool afterwards, as the function says |
| ParserObject.SseParser.FunctionItem | internal/upstream/event_parser.go:101-114 | the in-place item handling computes the function |
| ParserObject.SseParser.ParseData | internal/upstream/event_parser.go:36-99 | the in-place parser computes events and state of the function that the rows on whole streams below and above are about |
| ParserHears.StreamIsHeard | internal/upstream/event_parser.go:36-99 | over any stream an open parser emits exactly the errors, text, reasoning and usage of the messages up to the one that ends it, in order; a failed, incomplete or wrong message says one error with its text and no Done; only [DONE], a completed response and the end of a web answer say Done; failed and incomplete messages silence it and wrong ones do not |
| ParserShows.MediaIsShown | internal/upstream/event_parser.go:196-358 | over any stream it emits exactly the images and videos of the same messages, leaving out an image that repeats the last one of its ID and repetitions within one web answer |
| ParserShows.EventNameSpells | internal/upstream/event_parser.go:48-51 | an event name is read as the type it spells |
| Framing.ReadLoop | internal/upstream/http_client.go:511-538 | the loop over lines dispatches what the line-reading function dispatches |
| Framing.FramingRoundTrip | internal/gateway/stream.go:406-414 | written frames, with any heartbeats between them, are read back exactly |
| Framing.ReadParts | internal/upstream/http_client.go:511-538 | any list of named events with any number of data lines and of bare JSON lines is read as what it tells: data lines joined by newlines, an event ended by a blank line, a bare object or the end of the stream, its name forgotten |
| RoundTripTheorem.UsageReadBack | internal/upstream/http_client.go:605-627 | the usage object of the final frame is read back unchanged |
| RoundTripTheorem.PayloadRoundTrip | internal/gateway/stream.go:231-391 | encoding a media-free event list with stable IDs and parsing the payloads recovers text, reasoning, usage and the ordered calls, blank arguments as "{}" |
| RoundTripTheorem.MediaFreeRoundTrip | internal/upstream/http_client.go:629-646 | no media event is recovered if and only if model name, text and reasoning are no media links |
| StreamRoundTrip.WireRoundTrip | internal/upstream/http_client.go:501-538 | the same at the level of characters: encode, write with heartbeats, split into lines, parse, for any JSON codec that inverts |
| StreamRoundTrip.WireAccumulates | internal/gateway/response.go:37-76 | encoded, written, split, parsed and accumulated, the events give the same answer and stop reason as accumulated at once, blank arguments as "{}" |
| StreamRoundTrip.AccumulatedRoundTrip | internal/gateway/response.go:37-76 | two event lists with the same answer accumulate to the same answer |
| CodecWitness.CodecInverts | internal/gateway/stream.go:406-409 | every payload can be written in one line between braces and read back, so the assumption on the JSON text can be met |
| StreamRoundTrip.LateNameIsLost | internal/gateway/stream.go:243-257 | a tool name that arrives after the first event of its call is lost on the wire |
| ToolAliases.Preferred | internal/upstream/tool_names.go:39-49 | at most 64 runes, the name itself when it fits, never empty for a name |
| ToolAliases.PreferredDropsServer | internal/upstream/tool_names.go:41-45 | a long name of an MCP tool keeps the prefix and the tool and loses its server, then is cut to 64 runes |
| ToolAliases.PreferredCuts | internal/upstream/tool_names.go:39-49 | any other long name is cut to 64 runes |
| ToolAliases.CandidatesDiffer | internal/upstream/tool_names.go:58-59 | candidates for different numeric suffixes always differ |
| ToolAliases.OwnCandidateIff | internal/upstream/tool_names.go:58-59 | a base is its own candidate exactly when it has full width and ends with the marker |
| ToolAliases.SearchWithinUsedIff | internal/upstream/tool_names.go:51-61 | the search ends within n + 1 tries for any n names in use if and only if the base is not its own candidate |
| ToolAliases.FullWidthTakesThreeTries | internal/upstream/tool_names.go:51-61 | one name in use and three tries |
| ToolAliases.UniqueAlias | internal/upstream/tool_names.go:51-61 | the loop ends within n + 2 tries for n names in use, with the first free candidate |
| ToolAliases.AbsorbNamespace | internal/upstream/tool_names.go:19-24 | the loop is a walk over every alias exactly once, in any order; the aliases are added injectively and within the length |
| ToolAliases.WalksAgreeIff | internal/upstream/tool_names.go:19-24 | all walks over a namespace give one result if and only if the first free aliases of its names are all different |
| ToolAliases.NamespaceRestoresIff | internal/upstream/event_parser.go:163-168 | after any two walks the reverse map of one undoes the aliases of the other, under the same condition and only then |
| ToolAliases.BuildAliases | internal/upstream/tool_names.go:11-37 | nested namespaces included: every declared name gets an alias, the map is injective, values have 1 to 64 runes; the map is one that some walks give |
| ToolAliases.ClearDetermines | internal/upstream/tool_names.go:11-37 | where no namespace, at any depth, has names that compete for an alias, all walks give one map |
| ToolAliases.ReverseNames | internal/upstream/tool_names.go:117-121 | in any walking order the exact inverse of an injective map |
| ToolAliases.RestoreUndoesApply | internal/upstream/event_parser.go:163-168 | on such a list the separately computed maps agree, and restoring a sent alias gives the declared name |
| ToolAliases.ListRestoresIff | internal/upstream/event_parser.go:163-168 | for a list that declares no name of a namespace again after it, any two runs restore each other's aliases if and only if no namespace has names that compete |
| ToolAliases.RedeclaringHides | internal/upstream/tool_names.go:19-34 | names declared again after their namespace can be restored although they compete |
| ToolAliases.RoundTrip | internal/upstream/tool_names.go:103-122 | build, apply, build again, reverse and restore is the identity on the names of a list whose namespaces have no competing names |
| ToolAliases.NamespaceOrderMatters | internal/upstream/tool_names.go:19-24 | for one declared list with a namespace two walks of the builder disagree, and the alias one walk sends is restored to another name by the reverse map of the other |
| Sessions.RevocationIsFinal | internal/admin/redis_auth.go:80-144 | no request that begins after a tombstone was written authenticates its token at any time, whatever restores race with it |
| Sessions.RevocationIsFinalIff | internal/admin/redis_auth.go:131-144 | this holds exactly when tombstones live at least as long as sessions |
| Sessions.ShortTombstoneFails | internal/admin/redis_auth.go:138-140 | with a shorter tombstone the token comes back |
| Sessions.RotationIsFinal | internal/admin/auth.go:435-541 | after a rotation with not-before t no later request authenticates a session created before t, and one created at t only if the rotation was stored at t as well and the session inserted after it |
| Sessions.RotationBarsIff | internal/admin/auth.go:435-541 | a rotation bars every session created at or before its t, in every continuation, if and only if the clock moved past t before it was stored |
| Sessions.NextSessionAuthenticates | internal/admin/auth.go:446-458 | a session issued right after a rotation is served from the cache, without the not-before test |
| Sessions.IssueCompletes | internal/admin/auth.go:398-433 | issuing without interruption caches the session under the current revision, which it creates if there is none |
| Sessions.RequestCompletes | internal/admin/auth.go:435-491 | an unrevoked, unexpired session cached under the current revision authenticates |
| Sessions.FallbackServesIff | internal/admin/auth.go:460-535 | without a cache entry, or with one under an older revision, an uninterrupted request for an untombstoned, unexpired row authenticates if and only if the current revision has no not-before time or the row was created after it, and then the cache holds the session under the current revision |
| Sessions.RequestRefused | internal/admin/auth.go:435-535 | with neither a usable cache entry nor such a row the request is turned down |
| OAuthRefresh.SingleFlight | internal/upstream/oauth.go:393-456 | successful exchanges from the same credentials exceed the failed saves of them by at most one |
| OAuthRefresh.OneCriticalCaller | internal/database/redis.go:81-136 | at most one caller is between winning the lock and the end of its save |
| OAuthRefresh.LateCallersTakeTheNewer | internal/upstream/oauth.go:425-438 | a caller that wins the lock after a change sends no token request and leaves with other credentials, or fails |
| OAuthRefresh.UpdatedWasStored | internal/upstream/oauth.go:439-456 | a reported update was saved by this caller |
| OAuthRefresh.HeldWasExchanged | internal/upstream/oauth.go:439-456 | what a caller saves is what its own exchange returned |
| OAuthRefresh.DueRefreshUpdates | internal/upstream/oauth.go:393-456 | an undisturbed due refresh exchanges once, stores the new credentials, returns them and gives the lock back |
| OAuthRefresh.ChangedCredentialsReturned | internal/upstream/oauth.go:425-438 | a caller that finds other credentials under the lock returns them without an exchange |
| MediaStore.LowWatermark | internal/media/store.go:440-442 | exactly floor(3·maxBytes/5), with intermediate values in range |
| MediaStore.ExceedsCapacity | internal/media/store.go:444-446 | exactly usage + addition > limit, with intermediate values in range |
| MediaStore.FileStore.RemovePaths | internal/media/store.go:399-413 | data before metadata; the result says whether the data is gone |
| MediaStore.FileStore.ScanData | internal/media/store.go:284-312 | the first pass counts the regular data files it could measure and removes only special files |
| MediaStore.FileStore.ScanMetadata | internal/media/store.go:314-354 | the second pass keeps sizes and usage in step with the disk; entries are whole and unexpired with their own creation times, and every such object with counted data and readable metadata has one |
| MediaStore.FileStore.RemoveStray | internal/media/store.go:356-364 | after the third pass the usage is the bytes on disk; with no failure exactly the entries are left |
| MediaStore.FileStore.Scan | internal/media/store.go:277-366 | the returned usage is the total size of the regular data files left on disk, whichever removals fail; every fresh object that could be measured and read has an entry and keeps its bytes; only a cancellation or more bytes than an int64 holds ends it early |
| MediaStore.FileStore.Evict | internal/media/store.go:368-384 | entries are tried oldest first, no more than needed; the result never understates the bytes on disk and is exact if no removal failed |
| MediaStore.FileStore.Reopen | internal/media/store.go:77-90 | a store that opens holds at most its capacity; with no cancellation and no failed removal it opens, unless the directory holds more bytes than an int64 |
| MediaStore.FileStore.Put | internal/media/store.go:93-186 | after a stored object the bytes are within the capacity, and after an eviction without failures at or below the greater of the low watermark and the object; a failed Put never pushes them over; without failures and cancellations an object that is not too large is stored; objects are evicted only for lack of room, and none before an older one |

## Left out

- Sessions.RotationIsFinal: rotations of one administrator do not overlap, and Redis loses no key.
- PoolObject.Pool.Acquire: a failed first read of the binding, which returns before the loop, is not modelled. Without a coordinator (`AcquireLocally`) the number of rounds is that of the stale bindings other callers restore.
- PoolObject.Pool.AcquireLocally: where the pool holds an account with an empty ID, which the store never makes, the contract does not say which eligible account is leased.
- Feedback.ReloadedCopyIsAsStrict: rows that start active with a deadline ahead are excluded, because their blocked times can be freed (`FeedbackNeverEarlierIff`).
- Sessions without a Redis state, password checks and the login rate limit in front of them.
- OAuthRefresh.SingleFlight: no holder outlives the lock between winning it and the end of its save; the mode without a lock service and the status written on a failure are not modelled.
- StreamRoundTrip.WireRoundTrip: the JSON text of a payload is any codec that inverts and writes one line; numbers beyond 2^53 and lines above the scanner's 8 MB limit are not modelled.
- ToolAliases.ListRestoresIff: lists that declare a name of a namespace again after it are excluded, because the later alias can replace the one the walk gave (`RedeclaringHides`); for them the condition is sufficient (`RestoreUndoesApply`).
- ToolAliases.RoundTrip: applyToolAliases is modelled name by name, not on the payload.
- ToolAliases.BuildAliases: the list has at most 2^63 − 1 entries, as a Go slice does.
- MediaStore.FileStore.Put: bytes of files whose size cannot be read are not counted, as in the code; the copy of the upload is its length. The protected ID of an eviction is always empty in the code and is left out.
- MediaStore.FileStore.Evict: a stable insertion stands for the library sort, and the contract does not say how entries of one instant are ordered.
- Selection.ChoiceIsUnique: scores are reals, so float rounding is not modelled.
- Accumulate.ConsumersAgreeIff: calls without an ID can get different generated IDs in the two consumers, and media text differs by design.
- Media events in the round trip of the codec: streaming and non-streaming differ on them by design.
- Feedback of the coordinator itself: errors of SetCooldown and ClearAffinity in release are joined and returned, which the model omits.
- GetDelete, plain counters and publish/subscribe of the Redis client.
- AES-GCM, HMAC, Argon2, TOTP and SHA-256; network transport, proxies, image and video generation.
- HTTP handlers, routing, request logs, other SQL queries, configuration, import and export, and the web interface.
