# Verified model of the opencode proxy

The proxy relays chat requests to one upstream over several egress addresses
("buckets"), and converts what comes back. This project models the parts whose
correctness depends on more than one function, and proves what they guarantee.

* **Egress pool** (`EgressModels`, `PoolSpec`, `PoolSafety`, `PoolFairness`,
  `EgressPool`): which bucket an acquire gets, how verdicts bench a bucket and
  what ends a bench, session affinity, balance.
* **Chat walks** (`ChatWorld`, `ChatVerdicts`): any number of requests walking the pool, with
  cancellations, streams, probes and rotations interleaved.
* **Rotations** (`RotorSpec`, `RotorSafety`, `EgressRotors`): per-window
  counters, rotation gates, the retry timer, snapshots and restarts.
* **Failover** (`Failover`, `FailoverAdapter`): the breaker and the daily budget
  of the backup chain.
* **Byte streams** (`Lines`, `SseReaders`, `StreamRelays`, `RelaySafety`): the
  incremental line splitters and the relay that supplies a terminator.
* **Converters** (`Transcript`, `Aggregator`, `AnthropicEvents`,
  `AnthropicSafety`, `AnthropicConverter`, `ResponsesEvents`, `ResponsesSafety`,
  `ResponsesClosing`, `ResponsesConverter`, `StreamAgreement`): three readings of one completion
  stream, each with a client that replays what is emitted.
* **Requests** (`ToolGate`, `RequestPolicy`, `PolicySafety`): tool renaming and
  its inverse, body composition, the token budget.
* **Reverse tunnel** (`ReverseTunnel`): the gateway adapter and the ESP32
  firmware.

Where the source updates objects, a class carries the same fields, and every
method is proved to take its `View()` through a transition of the specification
module; the theorems are about those transitions. A step is a stretch of code
between two suspensions and reads the clock once. Times are whole microseconds.
What comes from outside (upstream answers, probe results, cancellations, the
moment a consumer leaves) is an argument or an event, and is arbitrary.

`dafny verify dfyconfig.toml` checks everything.

## Where the code and its documentation differ

The model follows the code. Each point below is a lemma.

* `acquire` describes a new session as preferring a bucket no live session uses;
  in-flight work decides first (`NewSessionUnboundExactly`,
  `BoundBucketBeatsUnbound`).
* The retry cooldown after a failed rotation can be cut short by a timer armed
  in the previous window (`FailureRestsExactly`, `RetryTimerOutlivesWindow`).
* Shutdown is meant to note every rotation it cancels as failed; one whose task
  has unwound while an earlier one was awaited is skipped, and its bucket is not
  retried before 08:00 (`EgressRotator.Close`, `CutRotationStuckExactly`,
  `SecondRotationIsForgotten`).
* A live rollover keeps the last rotation result although the comments call the
  record fresh; a restart across the rollover drops it (`EgressCounters.RecordFor`,
  `EgressCounters.constructor`).
* A rotation flow that raises leaves its bucket marked as rotating
  (`CrashStrandsFlag`).
* The failover successes are called consecutive; failures that do not trip may
  lie between them (`OnlyTripsBreakStreak`).
* A consumer that leaves during the synthesised terminator is reported by the
  body's outcome, not as disconnected (`DisconnectedExactly`).
* A first-chunk timeout reaches the pool as disconnected, an ok release
  (`GiveUpOnFirstChunk`).
* A synthesised terminator can be glued to an unfinished line, where no client
  reads it (`WellEndedExactly`, `CutDataHidesFinish`, `CutJsonHidesFinish`, `CutCommentHidesFinish`).
* Responses arguments sent before a call has an id or a name are never
  streamed, and a call that never gets one is closed under index 0
  (`ReadableExactly`); the closing events and the completed output still have
  every argument (`ClosingEventsAreFaithful`).
* The completed output keeps the upstream name of a renamed call, which the
  other events restore (`OutputNamesExactly`, `RenamedCallCompletesRenamed`).
* A data socket looked up just before its request gives up is stored for nobody,
  and no code relays or closes it (`StoredInTimeExactly`, `LateSocketIsStranded`).
* The output budget subtracts the estimate and its padded form; three published
  models can overrun their context (`AcceptedFitsExactly`, `PublishedModels`).

## Model

| member | source | states |
|---|---|---|
| EgressModels.WindowIsUtcDay | proxy_opencode/egress/models.py:209-228 | the 08:00 local-clock computation of the quota window is rounding down to a UTC day, for every timestamp |
| EgressModels.NormalisedExactly | proxy_opencode/egress/pool.py:118-176 | settings in range are kept, and only those; clamping twice is clamping once |
| PoolSpec.UsableIsBestRank | proxy_opencode/egress/pool.py:339-377 | the five-list fallback hands out exactly the candidates of best rank |
| PoolSpec.ExhaustedExactly | proxy_opencode/egress/pool.py:339-378 | no list has an entry exactly when no bucket is a candidate |
| PoolSpec.PickAfterSort | proxy_opencode/egress/pool.py:432-446 | after the stable sort the pick has least in-flight work; live bindings break ties only |
| PoolSafety.RefusedExactly | proxy_opencode/egress/pool.py:339-378 | an acquire raises exactly when every bucket outside `exclude` is cordoned, or healthy and rotating |
| PoolSafety.GrantIsEligible | proxy_opencode/egress/pool.py:339-515 | an immediate grant is on an uncordoned bucket, outside `exclude` for keyless callers, under the cap, and adds one in-flight slot there only |
| PoolSafety.WakeIsFromTicket | proxy_opencode/egress/pool.py:448-515 | a queued caller is served from the order fixed before the wait, over the cap only past its deadline |
| PoolSafety.EveryRunIsSound | proxy_opencode/egress/pool.py:585-869 | in every reachable state a live cordon carries one of the three verdicts, and cordon and cooldown times stay within their bounds |
| PoolSafety.CordonKeptExactly | proxy_opencode/egress/pool.py:803-1008 | over any run that ends before a live cordon is due, its deadline is kept throughout exactly when none of the lifts happens to the bucket |
| PoolSafety.CooldownKeptExactly | proxy_opencode/egress/pool.py:542-785 | over any run a cooldown is kept or extended throughout exactly when no request completes on the bucket and no rotation of it is verified |
| PoolSafety.ReleaseMeans | proxy_opencode/egress/pool.py:596-745 | what each verdict does, in numbers: a 429 without Retry-After or above an hour benches to UTC midnight or the cap, a shorter one for max(30 s, it), a flagged address for the cordon setting, a fault cools by base times streak, an ok clears streak, demotion and live cordon |
| PoolSafety.QuotaAlwaysBenches | proxy_opencode/egress/pool.py:671-709 | a 429 benches for a positive time, whatever the settings and the clock |
| PoolSafety.BenchedIsNotHandedOut | proxy_opencode/egress/pool.py:339-404 | for the whole length of a bench no acquire hands the bucket out or queues for it |
| PoolSafety.FaultOnlyDemotes | proxy_opencode/egress/pool.py:747-785 | a transport failure cools the bucket for base times streak, capped, and never cordons it |
| PoolSafety.OkReleaseClearsBench | proxy_opencode/egress/pool.py:585-640 | in every reachable state an ok release leaves its bucket neither cordoned nor cooling, and the next acquire is served unless it rotates |
| PoolSafety.SoftThrottleKeepsHardBench | proxy_opencode/egress/pool.py:803-869 | a soft 429 never shortens or relabels a longer daily-quota cordon |
| PoolSafety.TransportFaultsNeverExhaust | proxy_opencode/egress/pool.py:339-378 | over any run of transport failures and successes a keyless acquire never raises |
| PoolSafety.OutageIsBounded | proxy_opencode/egress/pool.py:655-700 | over any run, once the longest cordon has passed, an acquire succeeds as long as some bucket drew no new quota or free-tier verdict and is not healthy and rotating |
| PoolSafety.WakePicksLeast | proxy_opencode/egress/pool.py:467-482 | a queued caller gets the bucket of its order with the least in-flight work |
| PoolSafety.ProbeMeans | proxy_opencode/egress/pool.py:1038-1128 | an unanswered probe makes a bucket unhealthy at once; a ready answer makes it healthy, forgets soft failures and on a new address lifts; a not-ready one leaves it as healthy as it was below the tolerance |
| PoolSafety.RotationMeans | proxy_opencode/egress/pool.py:542-583 | a verified rotation leaves the bucket healthy on its new address without any bench, slots and flag untouched |
| PoolSafety.GrantBinds | proxy_opencode/egress/pool.py:406-503 | an acquire binds the session to a healthy bucket only, an unhealthy one leaves it unbound, and every other binding stays until it expires |
| PoolSafety.WakeBinds | proxy_opencode/egress/pool.py:482-503 | a queued session is bound exactly when its bucket is healthy and was not cordoned when it queued |
| PoolFairness.HomeIsKept | proxy_opencode/egress/pool.py:406-431 | a bound session whose bucket is usable is served there, at once or from a queue for that bucket alone, and the grant rebinds it |
| PoolFairness.OthersKeepBinding | proxy_opencode/egress/pool.py:169-176 | no request under another key drops or moves a live binding |
| PoolFairness.ConversationKeepsBucket | proxy_opencode/egress/pool.py:406-503 | a conversation with pauses of at most the TTL keeps its bucket while it stays usable, queueing included |
| PoolFairness.NewSessionPick | proxy_opencode/egress/pool.py:432-446 | while some candidate has room, a new session goes at once to the least in-flight candidate, fewest live sessions among equals |
| PoolFairness.NewSessionUnboundExactly | proxy_opencode/egress/pool.py:432-446 | it lands on an unbound bucket exactly when a least loaded candidate is unbound |
| PoolFairness.BoundBucketBeatsUnbound | proxy_opencode/egress/pool.py:432-446 | a concrete pool where a new session joins a bound idle bucket although an unbound one exists |
| PoolFairness.NewSessionsSpread | proxy_opencode/egress/pool.py:406-503 | new sessions one after another land on distinct buckets of an idle first tier, whatever else is in the pool and whenever earlier requests complete |
| PoolFairness.KeylessIsBalanced | proxy_opencode/egress/pool.py:379-446 | m keyless acquires over n idle buckets leave floor(m/n) or ceil(m/n) leases on each, under a cap as long as it holds them all |
| PoolFairness.SerialRoundRobin | proxy_opencode/egress/pool.py:379-446 | with each lease released before the next, any n consecutive acquires visit n different buckets |
| EgressPools.EgressState.EnterCordon | proxy_opencode/egress/pool.py:803-869 | in place: extend a cordon of the same verdict, never shorten a longer one of another |
| EgressPools.EgressState.EnterCooldown | proxy_opencode/egress/pool.py:747-785 | in place: escalating, capped, never earlier |
| EgressPools.EgressState.LiftCordonOnSuccess | proxy_opencode/egress/pool.py:912-945 | in place: an ok release ends a live cordon |
| EgressPools.EgressState.LiftIpScopedCordon | proxy_opencode/egress/pool.py:947-1008 | in place: a new address ends the two IP-scoped verdicts |
| EgressPools.EgressState.ProbeAnswer | proxy_opencode/egress/pool.py:1064-1128 | in place: soft failures tolerated, recovery clears the streak, a changed address lifts |
| EgressPools.EgressPool.Acquire | proxy_opencode/egress/pool.py:276-515 | in place: the synchronous part of an acquire is the specified transition |
| EgressPools.EgressPool.Poll | proxy_opencode/egress/pool.py:467-515 | in place: one pass of the wait loop is the specified wake-up |
| EgressPools.EgressState.Judge | proxy_opencode/egress/pool.py:604-745 | in place: an ok verdict clears the streak and lifts, every other one adds to the streak and benches as its kind says |
| EgressPools.EgressPool.Release | proxy_opencode/egress/pool.py:585-745 | in place: releases once, then is a no-op; the bucket changes as its verdict says |
| EgressPools.EgressPool.Abandon | proxy_opencode/egress/pool.py:787-801 | in place: returns the slot once without judging the bucket |
| EgressPools.EgressPool.ApplyRotationSuccess | proxy_opencode/egress/pool.py:542-583 | in place: a verified rotation clears every bench |
| EgressPools.EgressPool.MarkRotating | proxy_opencode/egress/pool.py:533-540 | in place: sets the flag of the named bucket, false for an unknown one |
| ChatVerdicts.AnswerJudges | proxy_opencode/upstreams/zen/client.py:442-545 | for every answer, what the bucket that gave it becomes: 429 a quota bench, 5xx, transport fault and broken aggregate a demotion, a flagged 403 of an anonymous client a cordon, any other status and an aggregate cleared, a lost body and an opened stream nothing |
| ChatVerdicts.AnswerWalksOnExactly | proxy_opencode/upstreams/zen/client.py:244-371 | the walk goes on to, or queues for, buckets it has not visited exactly after a 429, 5xx, flagged 403 or transport fault, while it has visited fewer than min(pool size, 4) and one is selectable; otherwise it ends |
| ChatVerdicts.ClosedWalksOnExactly | proxy_opencode/upstreams/zen/client.py:484-512 | the same after an aggregate that stalled, broke in transport, or whose closing failed |
| ChatVerdicts.AnswerHeld | proxy_opencode/upstreams/zen/client.py:484-512 | any other answer keeps the walk on its lease or leaves only the response to close |
| ChatVerdicts.RelayJudges | proxy_opencode/upstreams/zen/client.py:565-589 | completed, disconnected and cut relays clear their bucket, stalled and interrupted ones demote it; the walk is over |
| ChatVerdicts.CancelledJudgesNothing | proxy_opencode/upstreams/zen/client.py:275-281 | a client that hangs up before the answer only gives the slot back |
| ChatVerdicts.OnlyFirstAcquireBinds | proxy_opencode/upstreams/zen/client.py:199-209 | no retry binds, moves or forgets a session |
| ChatVerdicts.ArrivesAtHome | proxy_opencode/upstreams/zen/client.py:199-214 | a request of a bound session with a usable bucket starts there, at once or from its queue |
| ChatWorld.EveryRunIsOk | proxy_opencode/upstreams/zen/client.py:163-371 | in every interleaving of walks, cancellations, stream closes and probes, in-flight equals unresolved leases on every bucket |
| ChatWorld.ResolveKeepsCore | proxy_opencode/egress/pool.py:596-604 | giving back a held lease lowers its bucket by one: the clamp at zero never acts |
| ChatWorld.StepProgress | proxy_opencode/upstreams/zen/client.py:186-371 | every step resolves a lease at most once and brings each walk it moves nearer its end; none exchanges after a relay is returned |
| ChatWorld.WalkIsBounded | proxy_opencode/upstreams/zen/client.py:186-371 | a walk visits distinct buckets, at most min(pool size, 4) |
| ChatWorld.SilentExactly | proxy_opencode/upstreams/zen/client.py:213-245 | a request touches no bucket exactly when all are cordoned, or healthy and rotating |
| ChatWorld.IdleSlotsExactly | proxy_opencode/upstreams/zen/client.py:484-512 | with no request in progress, all slots are back exactly when no lease was lost |
| ChatWorld.OnlyLeaksLose | proxy_opencode/upstreams/zen/client.py:442-482 | a lease is lost only by a non-200 body whose read raises or a relay never iterated |
| ChatWorld.EverySlotComesBack | proxy_opencode/upstreams/zen/client.py:163-371 | without those two faults every finished run leaves every bucket at zero in flight |
| ChatWorld.ALeakIsPermanent | proxy_opencode/upstreams/openai_http.py:105-135 | a relay that is never iterated keeps its slot for good |
| RotorSafety.CountersAreTally | proxy_opencode/egress/counters.py:266-339 | over any run, restarts included, count and tokens are the ok releases since the later of window start and last successful rotation |
| RotorSafety.StartsNeverPassCap | proxy_opencode/egress/rotate.py:212-266 | no window sees more unforced rotations than the cap, restarts included |
| RotorSafety.OkStartsExactly | proxy_opencode/egress/counters.py:266-317 | over any run an ok release starts a rotation exactly when none runs, the cap leaves room, the trigger is ready, and the releases tallied since window start or renewal reach the threshold, or their tokens the budget |
| RotorSafety.VerdictStartsExactly | proxy_opencode/egress/counters.py:176-264 | a 429 starts one exactly when switched on, beyond the hard limit or without Retry-After, ready, past the floor and under the cap; a rejected address without the first two; an admin for any idle metered bucket |
| RotorSafety.OthersStartExactly | proxy_opencode/egress/rotate.py:378-395 | of the other events only a due retry starts one, exactly after a failure with room under the cap |
| RotorSafety.OutcomeMeans | proxy_opencode/egress/rotate.py:303-376 | a failure arms one retry a cooldown later unless one is pending or the cap is reached; a success empties the counters |
| RotorSafety.RolloverMeans | proxy_opencode/egress/counters.py:525-553 | a new window starts the counters again and keeps the last result |
| RotorSafety.RestartMeans | proxy_opencode/egress/counters.py:425-502 | a restart reads back the saved record, of an earlier window nothing, of an unmetered bucket none |
| RotorSafety.UnmeteredNeverStarts | proxy_opencode/egress/rotate.py:153-238 | over any run a bucket without a threshold or budget is never rotated, forced or not |
| RotorSafety.FlagFollowsTask | proxy_opencode/egress/rotate.py:258-342 | over every run without a crash, restarts included, the pool flag is up exactly while the one rotation task runs |
| RotorSafety.CrashStrandsFlag | proxy_opencode/egress/rotate.py:303-342 | after a crashed flow the flag stays up, over any run, exactly until a later rotation ends or the process restarts |
| RotorSafety.FailureRestsExactly | proxy_opencode/egress/rotate.py:346-395 | after a failed attempt nothing automatic starts for the cooldown, over every run inside the window, exactly when no earlier retry is due within both while the cap leaves room |
| RotorSafety.PendingRetryCutsRestShort | proxy_opencode/egress/rotate.py:369-395 | otherwise that retry starts the bucket early |
| RotorSafety.RetryTimerOutlivesWindow | proxy_opencode/egress/rotate.py:378-395 | a concrete run across 08:00 in which that happens |
| RotorSafety.CutRotationStuckExactly | proxy_opencode/egress/rotate.py:272-299 | a rotation cut by shutdown leaves its bucket without another automatic attempt until 08:00 exactly when the record read back shows no failure that can be retried in time |
| RotorSafety.StraddlingRotationIsFree | proxy_opencode/egress/rotate.py:272-299 | a rotation begun before 08:00 and cut after it leaves its bucket rotatable in the new window, noted or not, once the floor of its last success is over |
| RotorSafety.SecondRotationIsForgotten | proxy_opencode/egress/rotate.py:279-299 | of two rotations cut by one shutdown, the one already unwound when reached is not retried before 08:00 |
| EgressRotors.EgressCounters.constructor | proxy_opencode/egress/counters.py:425-502 | reading the snapshot back: rows of an earlier window replaced, unmetered buckets dropped |
| EgressRotors.EgressCounters.RecordFor | proxy_opencode/egress/counters.py:525-553 | the record for now: created, kept, or rolled over with its last result kept |
| EgressRotors.EgressCounters.Record | proxy_opencode/egress/counters.py:266-317 | one ok request counted and saved; the trigger fires by the specified rule |
| EgressRotors.EgressCounters.ShouldRotateOn429 | proxy_opencode/egress/counters.py:176-235 | true exactly for a hard quota verdict on an armed bucket past the floor |
| EgressRotors.EgressCounters.ShouldRotateOnFreeTier | proxy_opencode/egress/counters.py:237-264 | true exactly for an armed bucket past the floor |
| EgressRotors.EgressRotator.OnRelease | proxy_opencode/egress/rotate.py:158-208 | a release drives the bucket through the specified step; other buckets see at most a snapshot write |
| EgressRotors.EgressRotator.RequestRotation | proxy_opencode/egress/rotate.py:212-266 | starts exactly when metered, idle and under the cap or forced |
| EgressRotors.EgressRotator.Finish | proxy_opencode/egress/rotate.py:310-342 | the end of a rotation task is the specified step |
| EgressRotors.EgressRotator.RetryLater | proxy_opencode/egress/rotate.py:378-395 | the retry timer is the specified step |
| EgressRotors.EgressRotator.Close | proxy_opencode/egress/rotate.py:272-299 | shutdown notes a running rotation as failed in the snapshot exactly when its task is not done by the time the loop reaches it |
| Failover.DailyChargesBounded | proxy_opencode/upstreams/failover.py:266-305 | with at most k requests inside the backup at once, a day is charged at most M + k - 1 answers |
| Failover.SequentialNeverOverspends | proxy_opencode/upstreams/failover.py:266-305 | one request at a time: at most M |
| Failover.PeakIsLargest | proxy_opencode/upstreams/failover.py:561-644 | the k of the bound is the largest number of requests ever inside the backup |
| Failover.OverspendIsAttained | proxy_opencode/upstreams/failover.py:335-422 | for every M and k, request-scoped or not, a run reaches exactly M + k - 1 |
| Failover.BudgetRefusesExactly | proxy_opencode/upstreams/failover.py:335-422 | after any run a request is refused for budget exactly when its day is fully charged |
| Failover.RecoveryIsEarned | proxy_opencode/upstreams/failover.py:414-422 | a recovery follows at least `recover_after` primary successes with no trip between |
| Failover.OnlyTripsBreakStreak | proxy_opencode/upstreams/failover.py:374-412 | failures that do not trip leave the streak standing |
| Failover.ClosesAtTheStreak | proxy_opencode/upstreams/failover.py:414-422 | a breaker past its hold closes at exactly the success that completes the streak |
| Failover.ScopedNeverOpens | proxy_opencode/upstreams/failover.py:475-500 | request-scoped, no run opens the breaker or announces a recovery |
| Failover.HoldIsBounded | proxy_opencode/upstreams/failover.py:475-500 | after any run an open breaker runs out within one hold, and requests go to the primary again |
| Failover.AnswerMeans | proxy_opencode/upstreams/failover.py:359-422 | after any run: a transport fault or an error status other than 400, 401, 404, 422 goes to the backup and opens the breaker for exactly one hold, unless the budget is spent; every other answer goes to the client |
| Failover.BackupMeans | proxy_opencode/upstreams/failover.py:590-644 | an answer is relayed and charged, an error ends the hold, silence changes nothing |
| FailoverAdapters.FailoverAdapter.Chat | proxy_opencode/upstreams/failover.py:335-358 | in place: an open breaker is served by the backup or refused for budget, a closed one by the primary |
| FailoverAdapters.FailoverAdapter.PrimaryAnswered | proxy_opencode/upstreams/failover.py:359-422 | in place: pass through, relay, trip or count towards recovery |
| FailoverAdapters.FailoverAdapter.SecondaryAnswered | proxy_opencode/upstreams/failover.py:590-644 | in place: charge an answer, release the hold on an error relay |
| FailoverAdapters.FailoverAdapter.BudgetBlocked | proxy_opencode/upstreams/failover.py:266-275 | in place: the day rolls over before the budget is read |
| FailoverAdapters.FailoverAdapter.NoteBackupServed | proxy_opencode/upstreams/failover.py:296-305 | in place: one answer charged to today |
| Lines.SplitIsInverse | proxy_opencode/formats/sse_iter.py:14-33 | joining the lines of a byte string gives it back |
| Lines.SplitIsUnique | proxy_opencode/formats/sse_iter.py:14-33 | there is no other reading as newline-free lines and rest |
| Lines.Concat | proxy_opencode/formats/sse_iter.py:14-33 | of what was read only the unfinished line matters for what comes next |
| SseReaders.ParseSseChunks | proxy_opencode/formats/sse_iter.py:14-47 | the payload list is a function of the bytes, not of the chunks |
| SseReaders.MaskModelField | proxy_opencode/sse_mask.py:74-104 | the masked bytes are a function of the bytes, not of the chunks |
| SseReaders.AiterLines | proxy_opencode/upstreams/zen_bun_transport.py:286-304 | the decoded lines are a function of the bytes, not of the chunks |
| StreamRelays.StreamRelay.Pump | proxy_opencode/upstreams/openai_http.py:137-235 | the finish and done flags are a function of the bytes, and the chunks pass verbatim |
| SseReaders.TransportsAgree | proxy_opencode/upstreams/zen_bun_transport.py:286-304 | reading carriage-return-stripped lines or raw bytes gives the same payloads |
| SseReaders.MaskingKeepsLines | proxy_opencode/sse_mask.py:41-104 | line for line, what starts with `data:` is masked and everything else is as it was, the unfinished line included |
| SseReaders.MaskedIsGone | proxy_opencode/sse_mask.py:41-104 | what the mask takes out of every data line is in no data line of the output |
| SseReaders.PayloadMeans | proxy_opencode/formats/sse_iter.py:36-47 | `data:`, blanks, a text, blanks: the payload is what the text parses to; which texts are end and finish marks |
| SseReaders.OtherLinesMeanNothing | proxy_opencode/formats/sse_iter.py:36-47 | any other line carries no payload and no mark |
| SseReaders.PayloadsInOrder | proxy_opencode/formats/sse_iter.py:14-33 | the payloads of a stream are those of its lines, in order |
| Lines.ContainsExactly | proxy_opencode/upstreams/openai_http.py:187-228 | the substring test of the marker scan finds exactly the texts that stand somewhere in the line |
| SseReaders.FlagsExactly | proxy_opencode/upstreams/openai_http.py:187-228 | a stream holds a mark exactly when one of its lines does |
| SseReaders.DroppedExactly | proxy_opencode/upstreams/zen_bun_transport.py:286-304 | each decoded line is the line without one trailing carriage return |
| SseReaders.NothingToMask | proxy_opencode/sse_mask.py:41-104 | with nothing to mask the bytes are unchanged |
| StreamRelays.StreamRelay.Chunks | proxy_opencode/upstreams/openai_http.py:105-135 | body, terminator and close: delivered chunks as specified, the hook called exactly once |
| StreamRelays.StreamRelay.Stream | proxy_opencode/upstreams/openai_http.py:137-258 | the producer for every ending and every moment the consumer may leave |
| StreamRelays.StreamRelay.Close | proxy_opencode/upstreams/openai_http.py:125-135 | reports the outcome once, disconnected if none is known |
| StreamRelays.StreamRelay.GiveUpOnFirstChunk | proxy_opencode/upstreams/failover.py:443-469 | on a first-chunk timeout the pool has been told disconnected before stalled is written |
| RelaySafety.CompletedExactly | proxy_opencode/upstreams/openai_http.py:105-242 | completed is reported exactly when the whole body was taken, ended cleanly and held a finish marker |
| RelaySafety.DisconnectedExactly | proxy_opencode/upstreams/openai_http.py:125-242 | disconnected is reported exactly when the consumer left within the body or an unclassified fault ended it |
| RelaySafety.OtherEndingsExactly | proxy_opencode/upstreams/openai_http.py:187-242 | cut, stalled, interrupted and raised, each exactly for its ending of a body taken whole |
| RelaySafety.LeavingTakesPrefix | proxy_opencode/upstreams/openai_http.py:187-258 | a consumer that leaves has the first chunks of what one that stays gets |
| RelaySafety.EveryByteInOrder | proxy_opencode/upstreams/openai_http.py:187-258 | a full reader gets all upstream bytes in order, then the terminator |
| RelaySafety.WellEndedExactly | proxy_opencode/upstreams/openai_http.py:230-258 | when a client that parses the lines reads both a finish reason and an end mark: the exact condition on the marker the scan went by and on the unterminated tail |
| RelaySafety.PlainUpstreamExactly | proxy_opencode/upstreams/openai_http.py:230-258 | with finish reasons the scan recognises: exactly when the tail is blank or both marks were there already |
| RelaySafety.TerminatorAlwaysSupplied | proxy_opencode/upstreams/openai_http.py:230-258 | a body that is empty or ends in a newline always gets both, each only if missing |
| RelaySafety.TerminatorIsRead | proxy_opencode/upstreams/openai_http.py:168-176 | such a body is read as ended exactly when the marker the scan went by, if any, is a real one |
| RelaySafety.CutCommentHidesFinish | proxy_opencode/upstreams/openai_http.py:243-258 | a body cut inside a comment hides the synthesised finish |
| RelaySafety.CutDataHidesFinish | proxy_opencode/upstreams/openai_http.py:243-258 | any body cut inside a data line before a finish or an end mark: a parsing client reads no proper end from the wire, although the scan sees both marks there |
| RelaySafety.CutJsonHidesFinish | proxy_opencode/upstreams/openai_http.py:243-258 | a body cut inside the JSON of a data line hides it from clients, though not from the scan |
| Aggregator.AggregateSse | proxy_opencode/upstreams/zen/aggregate.py:91-171 | the answer holds the text, thinking, calls, finish reason and usage of everything before the end mark |
| Aggregator.MergeToolCallDelta | proxy_opencode/upstreams/zen/aggregate.py:67-88 | after each delta every slot is its whole description so far |
| AnthropicConverter.StreamAnthropicEvents | proxy_opencode/formats/anthropic_proto.py:261-452 | the object fed chunk by chunk emits the specified events |
| AnthropicConverter.AnthropicStreamState.ToolCall | proxy_opencode/formats/anthropic_proto.py:350-408 | in place: the slot registered, named, announced and fed |
| AnthropicConverter.AnthropicStreamState.End | proxy_opencode/formats/anthropic_proto.py:410-452 | in place: open block closed, leftover calls flushed, message ended |
| AnthropicSafety.AnthropicStreamIsFaithful | proxy_opencode/formats/anthropic_proto.py:261-452 | every stream replays on a protocol client: blocks from 0 each started and stopped before the next; same text, thinking, usage; one block per call with its arguments; strict nesting exactly when no call was interrupted; the stop reason for each finish reason |
| AnthropicSafety.FoldIsGood | proxy_opencode/formats/anthropic_proto.py:294-408 | the invariant behind it, at every point of the stream |
| ResponsesConverter.StreamResponsesEvents | proxy_opencode/formats/responses_proto.py:317-504 | the object fed chunk by chunk emits the specified events |
| ResponsesConverter.StreamState.ToolCall | proxy_opencode/formats/responses_proto.py:397-445 | in place: delta merged, item announced, fragment sent |
| ResponsesConverter.StreamState.Content | proxy_opencode/formats/responses_proto.py:355-396 | in place: the message item opened once, text appended and sent |
| ResponsesConverter.StreamState.End | proxy_opencode/formats/responses_proto.py:447-504 | in place: items closed in key order, output completed |
| ResponsesSafety.EveryPrefixReads | proxy_opencode/formats/responses_proto.py:340-445 | before closing, numbers rise by one, indices are 0, 1, 2, ..., deltas follow their item, all the text so far is heard, and of a call its arguments short of the lost ones |
| ResponsesSafety.ReadableExactly | proxy_opencode/formats/responses_proto.py:340-504 | a checking client reads the whole stream exactly when each call had an id or name by its first argument fragment |
| ResponsesSafety.CompletedOutputMatches | proxy_opencode/formats/responses_proto.py:284-310 | with at least one item and calls introduced in time, entry k of the completed output is the item streamed and closed under index k, a renamed call under its upstream name |
| ResponsesSafety.EmptyStreamInventsMessage | proxy_opencode/formats/responses_proto.py:284-296 | an empty stream completes with a message that was never added |
| ResponsesClosing.ClosingEventsAreFaithful | proxy_opencode/formats/responses_proto.py:284-504 | for every stream the text deltas and the closing events give the whole text, each call its whole arguments, and the last usage, and the completed output lists the same once each |
| ResponsesClosing.OutputNamesExactly | proxy_opencode/formats/responses_proto.py:294-308 | the completed output has every call as it was closed exactly when none was renamed |
| ResponsesClosing.RenamedCallCompletesRenamed | proxy_opencode/formats/responses_proto.py:294-308 | whatever the two names, a renamed call is closed under the client name and completed under the upstream one |
| StreamAgreement.StrictClientIsFaithful | proxy_opencode/formats/responses_proto.py:340-504 | a checking client that reads the stream to the end has the text, usage and every call in full |
| StreamAgreement.ThreeReadingsAgree | proxy_opencode/upstreams/zen/aggregate.py:91-171 | aggregated answer, Anthropic client and Responses closing events agree on text, usage and arguments, the completed output lists the answer's calls once each, and the first two agree on thinking |
| StreamAgreement.TextAgreesExactly | proxy_opencode/upstreams/zen/aggregate.py:112-118 | the aggregator hears the same text as the streaming converters exactly when none follows the end mark |
| ToolGate.RequestContext.RenameCollisions | proxy_opencode/upstreams/zen/tools.py:125-176 | colliding tools and historical calls renamed, the way back stored; nothing stored when nothing collides |
| ToolGate.MergeTools | proxy_opencode/upstreams/zen/tools.py:86-122 | what each mode puts ahead of the client tools |
| ToolGate.RequestContext.BuildBody | proxy_opencode/upstreams/zen/body.py:64-109 | the composed turns, tools and tool choice; invalid exactly when no turn is usable; behind the marker exactly the usable turns in order, unchanged but for call names; calls to declared tools name offered ones |
| ToolGate.CleanMessages | proxy_opencode/upstreams/zen/body.py:22-39 | the loop keeps exactly the turns with content or calls, in order |
| ToolGate.CleanedExactly | proxy_opencode/upstreams/zen/body.py:22-39 | nothing is left exactly when no turn has content or calls |
| ToolGate.CleanedInOrder | proxy_opencode/upstreams/zen/body.py:22-39 | what is kept is exactly the turns with content or calls, at rising places |
| ToolGate.ToolsRenamedExactly | proxy_opencode/upstreams/zen/tools.py:125-158 | tool by tool, a reserved name gets its prefix and everything else stays |
| ToolGate.KeptInOrder | proxy_opencode/upstreams/zen/tools.py:86-122 | in the reduced modes exactly the four small builtins go ahead, without the declared ones in captured mode, in order |
| ToolGate.FullListDistinctExactly | proxy_opencode/upstreams/zen/tools.py:86-176 | in full mode all names are distinct exactly when the declared ones are and none is the renamed form of a declared builtin |
| ToolGate.CallsFollowTools | proxy_opencode/upstreams/zen/tools.py:86-176 | in every mode, each call of the composed turns whose original name was declared names a tool of the composed list |
| ToolGate.RoundTripExactly | proxy_opencode/sse_mask.py:133-142 | every declared name survives renaming and restoring exactly under the same condition |
| ToolGate.MinimalInjectsFour | proxy_opencode/upstreams/zen/tools.py:108-121 | in minimal mode exactly four free pool names are injected whenever four are free |
| RequestPolicy.EstimateRequest | proxy_opencode/model_profile.py:233-269 | the estimate is the sum over texts, calls and tool declarations |
| PolicySafety.TextCostIsNearest | proxy_opencode/model_profile.py:208-213 | a text costs a quarter of its length to the nearest, halves to even |
| RequestPolicy.Outgoing.ApplyRequestPolicy | proxy_opencode/upstreams/zen/policy.py:60-111 | in place: screened, refused or budgeted as specified |
| RequestPolicy.Outgoing.ApplyReasoningPolicy | proxy_opencode/upstreams/zen/policy.py:117-143 | in place: exactly the keepable thinking controls stay |
| RequestPolicy.Outgoing.ApplyOutputBudget | proxy_opencode/upstreams/zen/policy.py:169-206 | in place: the output field per mode, coerced or tightened |
| PolicySafety.AcceptedFitsExactly | proxy_opencode/upstreams/zen/policy.py:87-112 | every accepted request fits the context exactly when window plus the smallest budget does |
| PolicySafety.PublishedModels | proxy_opencode/model_profile.py:124-180 | big-pickle meets that condition, the models without an input limit do not |
| PolicySafety.BudgetNeverGrows | proxy_opencode/model_profile.py:299-314 | a larger estimate never gets a larger budget |
| PolicySafety.BudgetIsLargest | proxy_opencode/model_profile.py:292-314 | the largest number within output limit and maximum that is the minimum or fits the context on top of the estimate and 115 percent of it |
| PolicySafety.EstimateIsQuarter | proxy_opencode/model_profile.py:208-269 | the estimate is a quarter of all characters of messages, calls and tools, give or take half a token a text |
| PolicySafety.RefusesExactly | proxy_opencode/upstreams/zen/policy.py:60-100 | a request is refused exactly when the guard is on and the estimate is over the override, else the input limit, else the context |
| PolicySafety.BudgetMeans | proxy_opencode/upstreams/zen/policy.py:169-206 | what becomes of the output field in each mode: left, left out, cut down, or set |
| PolicySafety.PolicyIsIdempotent | proxy_opencode/upstreams/zen/policy.py:60-112 | applying the policy twice is applying it once |
| PolicySafety.ControlSurvivesExactly | proxy_opencode/upstreams/zen/policy.py:117-143 | which thinking controls reach upstream |
| PolicySafety.OnlyTightens | proxy_opencode/upstreams/zen/policy.py:169-206 | a client budget never grows and no other field changes |
| ReverseTunnel.EveryRunIsSound | egress-agent-esp32/gateway-adapter/esp32_bucket_adapter.py:60-153 | the invariant over every interleaving of requests, adapter threads and firmware tasks |
| ReverseTunnel.SlotsConserved | egress-agent-esp32/firmware/src/main.cpp:206-262 | free slots plus jobs holding one make four |
| ReverseTunnel.RelaysAreOwn | egress-agent-esp32/gateway-adapter/esp32_bucket_adapter.py:394-431 | a socket is relayed only to the request whose id and target its job was started for, and never to two |
| ReverseTunnel.OneStatusLine | egress-agent-esp32/gateway-adapter/esp32_bucket_adapter.py:379-431 | a CONNECT gets one status line once decided and none before; one being relayed got exactly a 200 |
| ReverseTunnel.StatusMeans | egress-agent-esp32/gateway-adapter/esp32_bucket_adapter.py:360-431 | over any run a CONNECT that is over was told 503 exactly when the device was offline as it came, else 200 or 502 |
| ReverseTunnel.DecisionMeans | egress-agent-esp32/gateway-adapter/esp32_bucket_adapter.py:410-431 | 200 and a relay on the stored socket exactly when one is stored at the decision, else 502 |
| ReverseTunnel.OneJobPerId | egress-agent-esp32/firmware/src/main.cpp:305-324 | an id is worked on by at most one job |
| ReverseTunnel.StoredInTimeExactly | egress-agent-esp32/gateway-adapter/esp32_bucket_adapter.py:141-150 | a socket looked up in time can still be relayed exactly when its request has not given up by the time it is stored |
| ReverseTunnel.VerdictIsFinal | egress-agent-esp32/gateway-adapter/esp32_bucket_adapter.py:141-153 | a socket the handler closed is never relayed, one it stored it never closes |
| ReverseTunnel.LateSocketIsStranded | egress-agent-esp32/gateway-adapter/esp32_bucket_adapter.py:134-152 | a concrete run after which no code relays or closes the socket, whatever happens next |

## Left out

- HTTP, sockets, subprocesses, JSON, regular expressions, hashing and random ids are outcomes, parameters or uninterpreted functions.
- Logging, event ledgers and admin snapshots have no effect on decisions.
- ChatWorld.Step: the `chat` loop, its leases and its relays are interleaved steps on values and not one object, because other requests run between its suspensions; sharing of the response object is not captured.
- ChatWorld.OnAnswer: a body read that raises is one event; which exception class it was matters only as far as the walk goes on or stops.
- ReverseTunnel.Step: adapter threads and firmware tasks are interleaved steps on values, within one adapter process; a TREADY line is taken to arrive in one read; byte pumping, heartbeats and the `active` statistic are not modelled; sockets announce themselves only from the firmware, although the adapter does not authenticate a TREADY line; a reboot of the device, which frees its slots, is not modelled.
- EgressRotors.EgressCounters.Record: counter records are values reassigned in a table, so aliasing of a record is not captured; snapshot writes succeed, and the upgrade of snapshots without a result time is not modelled.
- EgressRotors.EgressRotator.Close: which cancelled tasks have unwound when the loop reaches them is an argument, since the event loop decides it; a task that ends with another exception, which is re-raised, and releases during the shutdown are not modelled.
- EgressRotors.EgressRotator.Finish: agent calls and the wait for a new address are one outcome; the bucket is one of the pool's.
- RotorSafety.StartsNeverPassCap: assumes the wall clock does not run backwards; the retry timer's clock and the wall clock advance together.
- Failover.DailyChargesBounded: assumes calendar days never go back.
- Failover.Step: provenance markers, the model map and the time of the last trip are not modelled; the latter only grades log lines.
- StreamRelays.StreamRelay.Stream: the completion id and the usage captured on the way are not modelled; the terminator's JSON is a parameter known to be an object with a finish reason; `resp.aclose()` raising after the body is not modelled.
- RelaySafety.WellEndedExactly: which texts parse is a parameter, of which only two things are assumed: the terminator's JSON parses as an object that ends the completion, and no text ending in `data: ` followed by it parses.
- Aggregator.AggregateSse: completion id, creation time and the stall watchdog are not modelled here; a stall is an outcome of an exchange in ChatWorld.
- Transcript.OfChunks: entries that are not objects are dropped by the parser before the model begins; absent and empty fields are not distinguished, as in the source's tests of truth.
- AnthropicEvents.Ended: the usage block is passed on as upstream reported it, its reshaping is not modelled.
- SseReaders.Rewritten: what the regular expressions do to a data line is a function of the line; SseReaders.MaskingKeepsLines assumes it adds no newline.
- ToolGate.RequestContext.BuildBody: marker texts, stream options and fields passed through unchanged are not modelled; `tool_choice` naming a renamed tool is not renamed by the source either.
- RequestPolicy.Policy: the shares 0.15 and 1.15 are exact fractions; integer parsing and case folding are functions of the profile; unknown policy names, which raise, have no counterpart.
- Compaction ceiling, model catalogue, key store, configuration, edge proxy, reports and scripts would only add easy members.
