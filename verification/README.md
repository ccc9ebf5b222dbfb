# Verified model of the routing gateway's core

This project models the stateful core of an upstream routing gateway in Dafny and proves what
its protocols keep over every run. It covers five parts.

* **Routing circuits.** Gateways and recovery workers share one circuit row per key and one per
  request dimension. Admissions, first outputs, outcomes, synthetic checks and balance releases
  are steps of one state machine, and every interleaving of them is covered.
  `Circuits` holds what a transaction does to the rows, `CircuitStore` the operations as the
  program runs them, `CircuitRuns`, `CircuitWindows`, `CircuitCooldowns` and `CircuitLaws` the
  properties.
* **Dashboard settlement and range queries.** A retrying queue with an idempotency ledger folds
  events into minute and day aggregates; queries mix day rows with minute edges. `Aggregates`,
  `Settlement`, `Settler`, `SettlerQueue`, `RangeQueries`; properties in `SettlementRuns`,
  `SettlementBalance`, `SettlementCounts` and `LedgerPurges`.
* **Gateway streams and requests.** The incremental event-stream parser (a subset of sections
  9.2.5 and 9.2.6 of the WHATWG HTML Living Standard), the hold-then-forward copy, the attempt
  loop, and the revisioned log rows: `SseParser`, `SseChunks`, `SseLaws`, `StreamCollector`,
  `SseCopy`, `ProxyLoop`, `ProxyLaws`, `LogRows`, `LogRuns`.
* **Picker.** Gate filtering, the stable-latency decision with its bindings, and capacity
  reservations: `GateFilter`, `GateAdmission`, `GateLaws`, `StablePool`, `StableDecisions`,
  `StableRuns`, `StableLaws`, `StablePicker`, `Capacity`, `CapacityRuns`.
* **Balance projection.** `Projection`, over exact reals.

Conventions: a SQL or Redis transaction is one atomic step, and one that fails changes nothing.
Time is a parameter in milliseconds, with 0 for the zero time in the circuit rows. Uuids and
tokens are fresh values. Money is an integer number of 1e-8 USD. Hashed scopes are modelled by
what they hash. Everything that comes from outside (picks, upstream answers, clocks, storage
failures, timers, network writes) is a parameter that may behave in any way the program allows.

Imperative operations are methods, most of them on a class with the program's fields; each is
proved equal to a function on values, and the properties are proved about that function. The
modules named Laws, and `SettlementCounts`, say what these functions mean without naming them: by
the fields of the rows and the flags of the call, by what the loop meets from outside, by the
candidates' numbers, by the bytes of the stream, and by counting the settled events.

## Where the code differs from what one would expect

Each of these has a lemma or method with a concrete input that shows it, and a statement of
exactly when the code does meet the expectation.

* `circuitThreshold` caps the threshold at 8 even when the configured base is above 8; the
  comment at backend/internal/domain/scheduler.go:13-15 takes the larger of the two.
  `CircuitWindows.ThresholdCapsLargeBase` is the input, `ThresholdMatchesDocument` the condition.
* A range whose edge starts inside a minute bucket that is just being purged is accepted, but
  its first bucket may be gone. `RangeQueries.AcceptedRangeLoses` is the input,
  `FastIsPlainExactlyWhen` the condition.
* A commit without a session that carries a response id overwrites whatever is bound under the
  digest of that id; every other binding moves only by a commit whose decision saw the old key.
  `StableRuns.ResponseIdMovesBinding` is the run, `MovesExactlyWhen` the condition.
* A concurrency refusal compacts the window of a key in place without storing its new length, so
  that a reservation may be in the window twice and the rate check refuses too early.
  `CapacityRuns.OneReservationCountsTwice` is the run. `TryKeepsExact` says that a window stays
  exact except at a counter refusal that drops some of its entries and keeps others, and
  `RateCheckCounts` that the rate check counts reservations until then. It never lets too many
  through: `RunIsSound`.
* `releaseHeld` ignores the result of its write. A copy can therefore report success although the
  held bytes did not reach the client. `SseCopy.LoseSilently` is the run, one of the family of
  `CopySilent`; `CopySSE` says what the client has after a success, by what became of the first write to the network.
* A line over 16 MiB is cut into an oversized event or not, depending on the reads.
  `SseChunks.BufferedReadsDiffer` are two such cuts, and `IndependentExactlyWhen` says that the
  parser is independent of the reads exactly for lines within the limit.

## Model

| member | source | states |
|---|---|---|
| Circuits.Normalize | backend/internal/domain/scheduler.go:173-197 | any stored circuit settings become valid ones, and valid ones stay as they are |
| Circuits.CheckLimit | backend/internal/routinghealth/recovery.go:30-35 | the number of concurrent checks is always between 1 and 64 |
| CircuitRuns.RunIsSafe | backend/internal/routinghealth/store.go:151-200 | in every reachable state no row has a live lease and a live check, held rows are open, and a held key-wide row excludes checks and foreign leases on the key's other rows |
| CircuitRuns.StepKeepsSafe | backend/internal/routinghealth/recovery.go:83-189 | each of the six kinds of step keeps that exclusion |
| CircuitRuns.AdmitKeepsSafe | backend/internal/routinghealth/store.go:151-187 | an admission over both gates of a request keeps the exclusion |
| CircuitRuns.ClaimKeepsSafe | backend/internal/routinghealth/recovery.go:83-142 | claiming a check keeps the exclusion |
| CircuitRuns.BalanceKeepsSafe | backend/internal/ops/balance_recovery.go:14-45 | releasing quota gates keeps the exclusion |
| CircuitRuns.StepChangesRow | backend/internal/routinghealth/store.go:263-360 | every step rewrites any row in one of six ways and leaves all other rows alone |
| CircuitRuns.RunAdvances | backend/internal/routinghealth/store.go:189-261 | over every run generations never decrease, and a row with the same generation has the same gate: open flag, times, backoff and reason |
| CircuitRuns.AdmitCaptures | backend/internal/routinghealth/store.go:151-187 | an admission records the generations of exactly its two gates, as its transaction leaves them |
| CircuitRuns.OutputCaptures | backend/internal/routinghealth/store.go:204-235 | after the first output the admission carries the new generation of each gate it closed, and the old one of the others |
| CircuitRuns.LateOutcomeIsHarmless | backend/internal/routinghealth/store.go:285-297 | an outcome of an admission step changes a row only if the row has had the admission's generation, and so the same gate, in every state since, and an open row only under the admission's own live lease |
| CircuitRuns.LateOutcomeAfterOutput | backend/internal/routinghealth/store.go:204-235 | the same after the admission's first output: since that output for the gates it closed, since the admission for the others |
| CircuitRuns.ClosingFencesOff | backend/internal/routinghealth/store.go:188-200 | closing a gate forgets its windows and starts a generation in which no lease, check, release or outcome from before has any effect |
| CircuitRuns.OpeningFencesOff | backend/internal/routinghealth/store.go:237-261 | opening a gate does the same, and keeps it closed to traffic for at least a second |
| CircuitRuns.ChecksStayWithinLimit | backend/internal/routinghealth/recovery.go:83-142 | over every run the rows with an unexpired check never exceed the configured limit |
| CircuitRuns.FinishSettlesOnlyItsClaim | backend/internal/routinghealth/recovery.go:144-189 | a finish takes effect only while its claim is current and unexpired, with no open, close or reclaim in between |
| CircuitRuns.RunKeepsMark | backend/internal/routinghealth/recovery.go:146-163 | a claim's token on a row at a later moment means that the same claim has stood there all along |
| CircuitWindows.WindowsRefineHistory | backend/internal/routinghealth/store.go:305-352 | in every reachable state the stored windows are the last 120 attempts and the last 64 weighted failures of the full outcome history within the time window |
| CircuitWindows.ObserveRefines | backend/internal/routinghealth/store.go:285-352 | one outcome takes the windows from the history before to the history after it |
| CircuitWindows.OncePerRequest | backend/internal/routinghealth/store.go:275-283 | the second outcome of a request on a dimension changes nothing and adds nothing to the history |
| CircuitWindows.OpensExactlyWhen | backend/internal/routinghealth/store.go:119-142 | a plain failure opens a closed gate exactly when the recent history reaches the traffic-scaled threshold or the sustained share |
| CircuitWindows.ThresholdMatchesDocument | backend/internal/routinghealth/store.go:119-132 | the threshold is the documented one exactly when the base is at most 8 or the scaling is off |
| CircuitWindows.ThresholdCapsLargeBase | backend/internal/routinghealth/store.go:119-132 | a concrete setting in which the code caps a base of 20 at 8 |
| CircuitWindows.RecentExtends | backend/internal/routinghealth/store.go:101-115 | trimming a window at every step gives the same as trimming the whole history at the end |
| CircuitCooldowns.CooldownLadder | backend/internal/routinghealth/store.go:237-261 | openings in a row start from the configured cooldown, at least double it each time, never pass the maximum, and each starts a generation |
| CircuitCooldowns.CooldownSaturates | backend/internal/routinghealth/store.go:237-261 | thirteen openings in a row reach the maximum under any valid settings |
| CircuitCooldowns.HintIsHonoured | backend/internal/routinghealth/store.go:237-261 | a retry hint is waited out in full, and less than a second longer |
| CircuitCooldowns.CheckLadder | backend/internal/routinghealth/recovery.go:164-188 | failed checks are repeated after 1, 30, 60 and then every 90 seconds without touching the gate |
| CircuitStore.Store.OpenCircuit | backend/internal/routinghealth/store.go:237-261 | the step-by-step opening of a gate is the specified one |
| CircuitStore.Store.StaysSafe | backend/internal/routinghealth/store.go:146-200 | after any sequence of calls the stored rows are in the exclusion invariant and within the limit of checks, because the calls form a run of the protocol |
| CircuitStore.Store.AdmitRequest | backend/internal/routinghealth/store.go:151-187 | the loop over both gates does what the admission transaction specifies, or changes nothing, and is a step of the run |
| CircuitStore.Store.ReleaseRecovery | backend/internal/routinghealth/store.go:204-235 | the first output closes exactly the gates that its admission owns |
| CircuitStore.Store.ObserveOutcome | backend/internal/routinghealth/store.go:263-359 | the outcome updates both gates as specified and is remembered by its request id, as a step of the run that the laws below are about |
| CircuitLaws.StrangersChangeNothing | backend/internal/routinghealth/store.go:285-304 | an outcome of another generation or of no holder of an open gate leaves a row as it is; one that says nothing only drops the holds of its own live lease |
| CircuitLaws.SuccessLaw | backend/internal/routinghealth/store.go:305-324 | a success closes an open gate exactly when its own live lease is on it, forgives the failures of a closed one, and otherwise is only counted |
| CircuitLaws.SuccessIsTraffic | backend/internal/routinghealth/store.go:305-309 | a success that closes nothing adds itself to the attempts of its dimension's recent history |
| CircuitLaws.KeyFailureLaw | backend/internal/routinghealth/store.go:325-329 | a failure opens the key-wide gate exactly when it is one of the credentials or comes from the holder of the gate's live lease, with a new generation and the right cooldown; any other leaves the row as it is |
| CircuitLaws.DimensionFailureLaw | backend/internal/routinghealth/store.go:330-352 | a failure opens a dimension's gate exactly when it holds the lease, or is no failure of the credentials and is a rate limit, immediate, or one too many of the recent history; an unowned failure of the credentials leaves the row as it is |
| CircuitLaws.OutcomeReachesItsGates | backend/internal/routinghealth/store.go:275-285 | over every run an outcome reaches both of its gates the first time that its request reports it, and neither ever again |
| CircuitLaws.CredentialsTakeOutTheKey | backend/internal/routinghealth/store.go:325-329 | the law of the key-wide gate in every reachable state |
| CircuitLaws.FailuresTakeOutTheDimension | backend/internal/routinghealth/store.go:330-352 | the law of a dimension's gate in every reachable state, by the outcomes that the run has recorded there |
| CircuitLaws.HoldersSuccessCloses | backend/internal/routinghealth/store.go:305-324 | in every reachable state a success closes an open gate exactly when its own live lease is on it |
| CircuitLaws.RefusedKeyStaysOut | backend/internal/routinghealth/store.go:151-187 | over every run, after the credentials of a key were refused nothing is admitted on any dimension of the key in that generation, but recoveries after the cooldown |
| CircuitLaws.AdmitsExactlyWhen | backend/internal/routinghealth/store.go:151-187 | a request is admitted exactly when each of its gates is closed, or is past its cooldown and idle and the request comes to recover it, the key-wide one with all rows of the key idle; it then leases its open gates and changes nothing else |
| CircuitLaws.OutputClosesOwnedGates | backend/internal/routinghealth/store.go:204-235 | a first output closes exactly the open gates of its admission's generation that its live lease is on, and takes over their new generations |
| CircuitLaws.CheckDecidesItsGate | backend/internal/routinghealth/recovery.go:144-189 | the current claim's success closes its gate, anything else leaves the gate open with a next check no earlier than was asked for; other claims and other rows are untouched |
| CircuitLaws.ClaimsExactlyWhen | backend/internal/routinghealth/recovery.go:83-142 | a check starts exactly when fewer than the limit are running, its gate is open, idle, of the expected generation and due, and the key's gate and, for a key-wide check, all rows of the key allow it; only the claim is written |
| CircuitLaws.BalancesCloseQuotaGates | backend/internal/ops/balance_recovery.go:14-45 | exactly the gates of the given keys that exhausted quota opened no later than the balances were read are closed, and every other row stays |
| CircuitStore.Store.TrackTimestamp | backend/internal/routinghealth/store.go:101-115 | the in-place filter keeps the entries after the cut, adds the new one and keeps the last ones up to the cap |
| CircuitStore.Store.ClaimCheck | backend/internal/routinghealth/recovery.go:83-142 | claims as specified, or reports the fault and changes nothing |
| CircuitStore.Store.FinishCheck | backend/internal/routinghealth/recovery.go:144-189 | settles as specified, and changes nothing for any claim but the current one |
| CircuitStore.Store.ReleaseBalanceCooldowns | backend/internal/ops/balance_recovery.go:14-45 | the nested loops over keys and gates release exactly the quota gates opened before the balance check |
| Aggregates.MergeAssociates | backend/internal/dashboard/query.go:619-650 | merging rows is associative over all counters, money, histogram and peak |
| Aggregates.MergeCommutes | backend/internal/dashboard/query.go:619-650 | merging rows is commutative |
| Aggregates.ObserveTTFT | backend/internal/dashboard/models.go:330-343 | a slot counts one exactly if the latency is above the bound before it and not above its own, and zero otherwise |
| Aggregates.MinuteKeepsDay | backend/internal/dashboard/settle.go:687-691 | a minute bucket lies wholly within the Shanghai day of any instant in it |
| Aggregates.AddKeepsDays | backend/internal/dashboard/settle.go:634-666 | adding one delta to a minute row and to its day keeps every day equal to the merge of its minutes |
| Aggregates.DaysSumToMinutes | backend/internal/dashboard/query.go:533-573 | a run of day rows merges to all minutes of those days |
| RangeQueries.FastIsPlain | backend/internal/dashboard/query.go:533-573 | day rows plus minute edges give the plain merge of every minute bucket of the range, none missed or counted twice, even after a purge |
| RangeQueries.FastIsPlainExactlyWhen | backend/internal/dashboard/query.go:533-573 | that holds for every database exactly when no edge starts in a purged bucket |
| RangeQueries.PurgedEdgeLoses | backend/internal/dashboard/query.go:562-571 | an edge that starts in a purged bucket can lose what was in it |
| RangeQueries.AcceptedRangeLoses | backend/internal/dashboard/query.go:562-571 | a range that the query accepts, starting exactly thirty days back in the middle of a minute, whose first bucket a purge removes |
| RangeQueries.AcceptedEdgesAreRetained | backend/internal/dashboard/query.go:562-565 | an accepted edge that starts on a minute never starts in a purged bucket |
| RangeQueries.RangeRows | backend/internal/dashboard/query.go:533-573 | the rows collected merge to the fast sum; it fails exactly for edges older than the retention |
| RangeQueries.SumQuery | backend/internal/dashboard/query.go:502-512 | the sum over a range is the plain merge of the minutes ever written |
| RangeQueries.Trends | backend/internal/dashboard/query.go:324-401 | it fails exactly for ranges that the granularity does not allow; the points tile the range without gap or overlap, and merging them gives the sum over the whole range |
| RangeQueries.ListDim | backend/internal/dashboard/query.go:514-529 | for every id of a dimension the listed row is the plain merge of its minutes, and ids without a row have none |
| Settlement.ReasonsAreDistinct | backend/internal/dashboard/settle.go:329-400 | the list of missing-data reasons never repeats one |
| SettlementRuns.ExactlyOnce | backend/internal/dashboard/settle.go:231-327 | any order, duplication and retry that settles all events leaves the facts and aggregates of applying each once in canonical order |
| SettlementRuns.OrderDoesNotMatter | backend/internal/dashboard/settle.go:231-327 | two histories that settled the same events agree on all facts and in every slot |
| SettlementRuns.EndSeesItsAttempts | backend/internal/dashboard/settle.go:295-307 | when an end settles, it sees exactly the sent attempts of its request |
| SettlementRuns.SentDecides | backend/internal/handler/dash_hooks.go:164-168 | attempts that were never sent have no influence on a request's fact or contributions |
| SettlementRuns.EndIsReady | backend/internal/dashboard/settle.go:286-307 | an end settles once everything it depends on has settled |
| SettlementRuns.CanonicalSettlesAll | backend/internal/dashboard/settle.go:231-327 | the canonical order settles every event |
| SettlementBalance.ProvidersMakeGlobal | backend/internal/dashboard/settle.go:530-588 | in every attempt bucket the provider rows merge to the global row: results, money, latencies |
| SettlementBalance.ProviderCostsMakeGlobal | backend/internal/dashboard/settle.go:409-441 | in every request bucket the provider costs add up to the global cost |
| SettlementBalance.ProviderRevenueMakesGlobal | backend/internal/dashboard/settle.go:477-494 | provider revenue adds up to global revenue when each winner has a sent attempt |
| SettlementCounts.EarnsByRule | backend/internal/dashboard/settle.go:354-397 | a success earns base × multiplier within half a unit, a plain failure nothing, and the money counts as covered exactly when group, multiplier, prices, usage and the costs of all sent attempts are known and the request was not interrupted |
| SettlementCounts.ReasonsByRule | backend/internal/dashboard/settle.go:361-392 | each reason is listed exactly when what it names is missing |
| SettlementCounts.EffectCounts | backend/internal/dashboard/settle.go:402-588 | settling an event adds one to exactly the columns of the slots that it counts in, told by the event and the facts it met |
| SettlementCounts.ColumnsCount | backend/internal/dashboard/settle.go:402-588 | after any deliveries every counting column of every slot is the number of settled events that count there: started, completed, successful and retried requests, attempts by result, latency samples and histogram slots, covered ones and reasons |
| SettlementCounts.FactsTellEvents | backend/internal/dashboard/settle.go:248-279 | the facts that an end meets are those of the delivered starts and attempts: group, multiplier, source and time of a start, and attempts unchanged |
| SettlementCounts.SettledIsKnown | backend/internal/dashboard/settle.go:248-279 | every settled start and attempt is among the facts from then on |
| SettlementCounts.ProviderQuality | backend/internal/dashboard/settle.go:530-567 | a provider's successes, failures and latency samples are its settled business attempts of the minute with that result |
| SettlementCounts.RequestSuccesses | backend/internal/dashboard/settle.go:429-474 | the global successes are all settled successful business requests of the minute; a provider's are those that it finished and that an attempt of was sent to it |
| SettlementCounts.ProviderSuccessesMakeGlobal | backend/internal/dashboard/settle.go:434-442 | they add up when every winner has a sent attempt |
| SettlementCounts.MoneyAddsUp | backend/internal/dashboard/settle.go:402-588 | every money column of every slot is what its settled events are worth |
| SettlementCounts.SamplesAddUp | backend/internal/dashboard/settle.go:590-612 | the in-flight time of a slot is that of its settled samples, and its peak the highest of theirs |
| Settler.CountAttempt | backend/internal/dashboard/settle.go:530-588 | counting an attempt into a row and into the delta gives the same increase |
| Settler.CountReasons | backend/internal/dashboard/settle.go:495-520 | incrementing the row per reason and setting the delta to one agree, as reasons do not repeat |
| Settler.CountEnd | backend/internal/dashboard/settle.go:402-525 | counting a completed request into a row and into the delta gives the same increase |
| Settler.UpdateRequestFact | backend/internal/dashboard/settle.go:329-400 | the end event and the attempts determine the completed fact |
| Settler.CollectCosts | backend/internal/dashboard/settle.go:402-441 | one pass over the attempts gives the total cost and the cost of each provider with a sent attempt |
| Settler.Dims | backend/internal/dashboard/settle.go:402-441 | each series that a request counts for is listed once, with its contribution, and no other; what those are is the subject of SettlementCounts.EffectCounts |
| Settler.Database.Save | backend/internal/dashboard/settle.go:608-666 | saving a minute row and its day delta keeps days equal to their minutes |
| Settler.Database.ApplyAttempt | backend/internal/dashboard/settle.go:530-588 | an attempt adds its effect to every slot, which is one in exactly the columns that SettlementCounts.EffectCounts names, and days stay equal to their minutes |
| Settler.Database.ApplyRequest | backend/internal/dashboard/settle.go:402-525 | a completed request adds its effect to every slot, which is one in exactly the columns that SettlementCounts.EffectCounts names, and days stay equal to their minutes |
| Settler.Database.ApplySample | backend/internal/dashboard/settle.go:590-606 | a concurrency sample adds its integral and raises the peak, in the minute and in the day |
| Settler.Database.SettleEnd | backend/internal/dashboard/settle.go:281-316 | an end completes its request, or waits and changes nothing |
| Settler.Database.Process | backend/internal/dashboard/settle.go:231-327 | an event settles, is a duplicate, is too old or must wait; only in the first case anything changes, and then exactly as specified |
| Settler.Database.Purge | backend/internal/dashboard/service.go:173-192 | a purge removes minute rows past the retention and leaves the day rows and what they equal |
| SettlerQueue.PassLosesNothing | backend/internal/dashboard/settle.go:138-166 | after a pass every due event is queued again, settled, or past the replay age |
| SettlerQueue.WaitsDouble | backend/internal/dashboard/settle.go:152-163 | failed events wait 2, 4, 8 and 16 seconds, and then 30 |
| SettlerQueue.SplitIsByTime | backend/internal/dashboard/settle.go:138-151 | a drain takes exactly the entries whose time has come, each as often as it was queued |
| SettlerQueue.StalledPass | backend/internal/dashboard/settle.go:117-136 | a pass that shortens nothing changed nothing, and each event met a storage failure or waits for another event |
| SettlerQueue.StuckMeansSettled | backend/internal/dashboard/settle.go:117-136 | a queue that is stuck on sound storage and has lost nothing has settled all events |
| SettlerQueue.Worker.Enqueue | backend/internal/dashboard/settle.go:61-81 | an event is taken unless it is past the replay age or the queue is full, which sets the overflow flag |
| SettlerQueue.Worker.DrainOnce | backend/internal/dashboard/settle.go:138-166 | due events are applied in order and failures come back with a longer wait; no accepted event is lost, and the database is what the deliveries so far leave |
| SettlerQueue.Worker.DrainFinal | backend/internal/dashboard/settle.go:117-136 | shutdown ends, loses nothing, applies only accepted events, and leaves only events that met a storage failure in its last pass or wait for others |
| SettlerQueue.DrainIsKnown | backend/internal/dashboard/settle.go:138-166 | a pass queues and applies only events that were accepted |
| SettlerQueue.ShutdownSettlesEverything | backend/internal/dashboard/settle.go:117-166 | when the queue is stuck on sound storage and all events were accepted in time, the database holds exactly what applying each once in canonical order gives |
| SettlerQueue.ShutDown | backend/internal/dashboard/settle.go:117-166 | so after every shutdown on sound storage |
| LedgerPurges.PurgesAreInvisible | backend/internal/dashboard/service.go:173-192 | a run with ledger purges leaves the request and attempt facts, and every aggregate, that it leaves without them |
| LedgerPurges.SettlesOnce | backend/internal/dashboard/service.go:188-190 | no event settles twice, however often it comes back and whatever ledger rows were deleted in between, because the ledger outlives the replay age |
| SseChunks.ChunkIndependent | backend/internal/handler/gateway.go:1765-1817 | for every stream whose lines fit the limit and every way of cutting it, parser state, consumed count and stored prefix are those of the whole stream |
| SseChunks.IndependentExactlyWhen | backend/internal/handler/gateway.go:1771-1784 | at every point and for every cut the parser is in the state that the bytes define, exactly when no unfinished line before a terminal event is over the limit |
| SseChunks.CutsAgree | backend/internal/handler/gateway.go:1765-1817 | two ways of cutting one stream end in the same state |
| SseChunks.DrainExtends | backend/internal/handler/gateway.go:1771-1810 | parsing a longer buffer continues where parsing the shorter one ended |
| SseChunks.TerminalPointIsFixed | backend/internal/handler/gateway.go:1787-1792 | what follows a terminal event has no influence on the result |
| SseChunks.TerminalEndsFrame | backend/internal/handler/gateway.go:1787-1792 | the consumed part ends with the blank line of the terminal event |
| SseChunks.FrameMeaning | backend/internal/handler/gateway.go:1793-1804 | a frame has the name of its last event line and the payloads of its data lines in order, and is oversized exactly when these are over the limit |
| SseChunks.WhatEndsAStream | backend/internal/handler/gateway.go:1819-1889 | exactly which frames end a stream, and which of those end it well |
| SseChunks.LongLineDependsOnCut | backend/internal/handler/gateway.go:1773-1781 | however the first 16 MiB of a comment line are read, one byte more passes together with its newline and ends the stream as oversized without it |
| SseChunks.BufferedReadsDiffer | backend/internal/handler/gateway.go:1905-1915 | two such cuts that consist of the 32 KiB reads the copy makes |
| SseChunks.NamesStayBounded | backend/internal/handler/event_diagnostics.go:16-39 | however many kinds of event a stream has, at most 65 counters are kept |
| StreamCollector.ResumedSearchAgrees | backend/internal/handler/gateway.go:1772-1784 | resuming the newline search at the scan offset finds what a search from the start finds |
| StreamCollector.StreamCollector.FinishEvent | backend/internal/handler/gateway.go:1819-1889 | closing a frame drops, refuses or dispatches it as specified and starts a new one |
| StreamCollector.StreamCollector.NoteEvent | backend/internal/handler/event_diagnostics.go:16-39 | noting an event raises the total of all counters by one and keeps their number bounded |
| StreamCollector.StreamCollector.TakeLines | backend/internal/handler/gateway.go:1771-1810 | the loop takes the complete lines up to a terminal event and keeps the rest |
| StreamCollector.StreamCollector.FeedChunk | backend/internal/handler/gateway.go:1765-1817 | one read takes the collector to the specified next state and returns the consumed part |
| SseLaws.WhatAFrameShows | backend/internal/handler/gateway.go:1845-1889 | exactly which frames are the first output, allow an early commit, begin a compaction and count as an event, and what usage they add |
| SseLaws.WhatAFrameLeaves | backend/internal/handler/gateway.go:1819-1875 | a frame with data is counted once and validated once, and its error is its size, the validator's complaint, or the failure it reports |
| SseLaws.WhatALineShows | backend/internal/handler/gateway.go:1804-1809 | a line adds its usage, and is output by itself only in a stream that is not strict |
| SseLaws.CountsByName | backend/internal/handler/event_diagnostics.go:16-39 | an event raises the counter of its own name, or the shared one once 64 names are in use, and no other; terminal names are remembered |
| SseLaws.LineEndsDoNotMatter | backend/internal/handler/gateway.go:1784-1784 | a stream with a carriage return before every newline is parsed exactly like the one without |
| SseLaws.ReadsWithReturnsAgree | backend/internal/handler/gateway.go:1765-1817 | two streams that differ in their line ends only leave the same parse, however each is cut into reads |
| SseCopy.Hold.Buffer | backend/internal/handler/gateway.go:1689-1700 | bytes are held unless the hold is released, dead or full |
| SseCopy.Hold.Release | backend/internal/handler/gateway.go:1712-1729 | the held bytes go out once, behind one commit of the headers, and never after the copy is over |
| SseCopy.Forward | backend/internal/handler/gateway.go:1936-1975 | with the timer firing anywhere, every consumed byte is held, handed over or in the tail, in order; while the copy goes on, the hold is released once the stream so far has output, or a committable event without error and no wait for output, without the timer exactly then; behind the release nothing is kept back between events, nothing more goes out within one, a rejected event goes out not at all and the upstream's own error in full |
| SseCopy.CopySSE | backend/internal/handler/gateway.go:1905-1998 | the client's bytes are a prefix of the consumed ones; success means that all through the terminal event, or to the end of a body that needs none, were handed over, and the client has them all or the part that went out before the first write failed; failure with the hold unspent means none; and with a quiet timer and a network that never fails, a copy fails only for an error in the stream, a body that ends as it must not, or a hold that is full before its release; after every read that leaves it going the client has been served: nothing while the hold lasts, which is no longer than the bytes read so far allow, everything between two events, and, for strict streams, only whole events behind the release |
| SseCopy.CopySilent | backend/internal/handler/gateway.go:1712-1729 | over a connection that takes nothing, every body without output ends in success with all bytes consumed and none at the client |
| SseCopy.LoseSilently | backend/internal/handler/gateway.go:1712-1729 | a concrete such run, with two bytes |
| SseCopy.FireLate | backend/internal/handler/gateway.go:804-810 | a timer that fires after the copy changes nothing the client sees |
| ProxyLoop.TryKey | backend/internal/handler/gateway.go:421-458 | one key gets at most one send more than there are retries, and only one as a recovery validation |
| ProxyLoop.PlayRound | backend/internal/handler/gateway.go:276-489 | one pass through the loop's branches is the specified round, tries only an allowed key that is not ruled out, and sends within its share |
| ProxyLaws.TriesOfAKey | backend/internal/handler/gateway.go:421-458 | a key is tried again exactly as long as the try asks for it, retries are left, the round is no recovery and the client stays; the outcome is that of the last try, and the sends are those of all of them |
| ProxyLaws.FailsOver | backend/internal/handler/gateway.go:459-489 | over every run, a round whose last try failed, allows another key, was no local skip and kept its client is followed by a round with one attempt more used and just that failure excluded; the request gives up only when that was the last attempt |
| ProxyLaws.SkipsForFree | backend/internal/handler/gateway.go:472-482 | a locally skipped key leaves the allow set without using an attempt, and the request ends only when no key is left |
| ProxyLaws.ResortsOnce | backend/internal/handler/gateway.go:305-318 | when nothing can be picked, the next round has no exclusions if a transient failure made some, there is time and no resort was taken, and otherwise there is no route |
| ProxyLaws.SelectsAgain | backend/internal/handler/gateway.go:356-380 | a refused admission leads to the same round again, while there is time and the client stays |
| ProxyLaws.EndsExactly | backend/internal/handler/gateway.go:289-492 | each of the ten ends of a request, if and only if, by what its last round met |
| ProxyLaws.GoesThroughTheKeys | backend/internal/handler/gateway.go:289-489 | while every key fails over, the k-th round is reached with k attempts used up, and after the last attempt the request gives up |
| ProxyLaws.ExcludesExactly | backend/internal/handler/gateway.go:464-471 | in every round the exclusions are those made by the failures since the last resort, no more and no fewer, and the attempts used are the tries that were no skips |
| ProxyLaws.SendsAreTries | backend/internal/handler/gateway.go:421-458 | a round sends exactly what its tries sent |
| ProxyLoop.EndsMean | backend/internal/handler/gateway.go:303-483 | a request ends for disabled probes only after every allowed key was skipped, for lack of a route only when nothing can be picked and no last resort is open, and by refusal only after a try that forbids a failover |
| ProxyLoop.Proxy | backend/internal/handler/gateway.go:276-489 | the rounds form a run, and the end is that of its last round or the attempts used up; the loop ends in spite of its decrements, its sends are those of its rounds, it sends at most attempts × (retries + 1) times (plus the retries of skipped keys for diagnostics), stays in the allow set, and repeats nothing it ruled out except after the one last resort |
| LogRows.LiveLog.WriteLog | backend/internal/handler/gateway.go:1407-1429 | an issued write carries the next revision and everything said so far; none follows the final one |
| LogRows.MergeInto | backend/internal/handler/gateway.go:1418-1427 | later updates win column by column |
| LogRows.LogTable.PersistLog | backend/internal/handler/gateway.go:1454-1471 | a write takes effect exactly on a row in flight with a lower revision |
| LogRows.LogTable.Persist | backend/internal/handler/gateway.go:1430-1444 | a final write is applied if one of three tries reaches the storage, and repeating it changes nothing |
| LogRows.LogTable.FinalizeStale | backend/internal/ops/logs.go:47-91 | the sweep finalizes a row only if it is still the one it read |
| LogRuns.RowIsHighestSnapshot | backend/internal/handler/gateway.go:1407-1471 | for any reordering, repetition and loss, the row is the snapshot of the highest revision delivered until a sweep takes it |
| LogRuns.OneTerminalWriter | backend/internal/ops/logs.go:47-91 | a row is terminal exactly when a sweep took it or the final write arrived, and a sweep takes only rows that are not terminal |
| LogRuns.TerminalRowsAreFrozen | backend/internal/handler/gateway.go:1454-1458 | no write and no sweep changes a terminal row |
| LogRuns.SweepFindsWhatItRead | backend/internal/ops/logs.go:84-88 | a sweep that takes a row finds exactly the row it read |
| LogRuns.OnlyStaleRowsAreSwept | backend/internal/ops/logs.go:40-53 | a sweep finalizes only rows that were read past the age limit |
| LogRuns.SweepLaw | backend/internal/ops/logs.go:47-91 | a sweep leaves a terminal row that tells of the last attempt, if it succeeded, and otherwise of a request left behind; it touches no revision and, in that case, no other column |
| LogRuns.FinalWriteTakesEffect | backend/internal/handler/gateway.go:1461-1469 | the final write always leaves a terminal row, so its error case never occurs |
| GateFilter.ApplyRoutingHealth | backend/internal/picker/routing_health.go:80-217 | an open gate takes its candidate out; at most one comes back, marked as recovery, the first of those offered, and exactly when the rules allow it |
| GateFilter.AssessAll | backend/internal/picker/routing_health.go:80-175 | the loop finds the first offered candidate of each kind and the number of normal ones |
| GateFilter.FindGate | backend/internal/picker/routing_health.go:103-115 | the loops find the deciding gate: the most pressing one, and of two equals the one that stays closed longer |
| GateFilter.AssessOne | backend/internal/picker/routing_health.go:116-172 | the progressive overwriting of reason and status ends in the specified ones, and decides whether the candidate is offered |
| GateLaws.ReasonMeans | backend/internal/picker/routing_health.go:117-155 | on rows of a run, a candidate is taken out for the one thing that stands in its way: a validation, a check, the cooldown, the delay of a failed check, or nothing but waiting |
| GateLaws.OfferMeans | backend/internal/picker/routing_health.go:136-168 | a waiting gate is offered to requests exactly when no synthetic check can test it, and as a last resort otherwise |
| GateLaws.OrderMeans | backend/internal/picker/routing_health.go:219-233 | the candidate recovered longest ago, or never, comes first, then the one whose gate ended first, then the lower key |
| GateLaws.ReasonsInRuns | backend/internal/picker/routing_health.go:117-155 | so in every reachable state |
| GateAdmission.OffersAreAdmitted | backend/internal/picker/routing_health.go:102-175 | in every reachable state a gated candidate is offered exactly when the store would admit its recovery request, and an ungated one is admitted as normal |
| GateAdmission.OfferedWhenFree | backend/internal/picker/routing_health.go:235-253 | the most pressing gate is offered exactly when nothing holds a gate of the candidate and all cooldowns are over |
| GateAdmission.PressingIsTop | backend/internal/picker/routing_health.go:102-115 | the deciding gate has the highest priority of all gates considered |
| GateAdmission.RunIsDisciplined | backend/internal/routinghealth/recovery.go:83-189 | over every run a gate is under check, or waiting for the next one, only after its cooldown |
| StablePool.CandidatePool | backend/internal/picker/stable.go:242-272 | the pool is all reliable candidates, or else the usable ones of the best quality; it is empty exactly when none is usable |
| StablePool.FastestCandidate | backend/internal/picker/stable.go:274-293 | the choice is the cheapest of the members close to the fastest latency, and exists unless the pool is empty |
| StableDecisions.Coldest | backend/internal/picker/stable.go:396-416 | exploration takes the longest unsampled usable candidate that is not known to be bad |
| StableRuns.MovesExactlyWhen | backend/internal/picker/stable.go:461-497 | a live binding changes its key exactly by a commit whose decision saw the old key bound, or by one that claims the session's name for a response |
| StableRuns.ResponseIdMovesBinding | backend/internal/picker/stable.go:486-494 | a run in which two commits without a session share a response id and the second moves a live binding it never saw |
| StableRuns.SwitchesAreConfirmed | backend/internal/picker/stable.go:326-378 | over every run a decision leaves a usable, reliable bound key only for a challenger found better by every decision that kept the binding in play, for the confirmation time, with three fresh successes; what better means is stated by StableLaws.SwitchesAreFaster |
| StableRuns.MovesAreJustified | backend/internal/picker/stable.go:461-497 | over every run a session's binding moves only after its key dropped out for that decision, or to a confirmed challenger |
| StableLaws.WeighLaw | backend/internal/picker/stable.go:339-376 | a standing binding is left for the best candidate exactly when that outpaces it, has done so for the confirmation time and has three successes measured since; without one the best is taken |
| StableLaws.BoundDecisionLaw | backend/internal/picker/stable.go:339-395 | a session with a standing binding gets its key, or the best candidate when that is ripe, or is to be tried out; each with its reason |
| StableLaws.UnboundDecisionLaw | backend/internal/picker/stable.go:396-423 | a request without a standing binding gets the coldest candidate when it may explore and there is one, and the best otherwise |
| StableLaws.UnboundReasonLaw | backend/internal/picker/stable.go:368-376 | why there is no reuse: no binding, a bound key that is gone, not usable, or no longer reliable |
| StableLaws.NamelessDecisionLaw | backend/internal/picker/stable.go:396-423 | requests without a session explore in spite of the binding they share |
| StableLaws.ReuseReturnsTheBoundKey | backend/internal/picker/stable.go:341-343 | a reuse returns the bound key |
| StableLaws.BindingLaw | backend/internal/picker/stable.go:344-367 | a decision stores the best candidate as challenger from the first time it outpaces the bound key, for as long as it does, and nothing else |
| StableLaws.SwitchesAreFaster | backend/internal/picker/stable.go:344-360 | over every run a decision that leaves a standing binding goes to a key with a latency below the bound one's by the configured milliseconds or share, with enough samples on both sides and no lower success rate, there and at every decision since a step one confirmation time before, and with three successes measured after that step |
| StableLaws.ConfirmedChallengerWins | backend/internal/picker/stable.go:344-360 | over every run the converse: a key that outpaces the bound one at every decision for the confirmation time, with three successes measured, is chosen |
| StableLaws.CommitLaw | backend/internal/picker/stable.go:461-497 | a success binds its session for the sticky time, keeps the challenger only on the same key, gives way to a newer success, and remembers its response |
| StableLaws.NamelessCommitLaw | backend/internal/picker/stable.go:461-497 | without a session the shared binding lasts fifteen minutes, and the response gets a session of its own |
| StableLaws.ExpiryLosesNothing | backend/internal/picker/stable.go:32-55 | dropping the whole state when it expires drops no live binding or response and forgets no recent exploration |
| StableLaws.RunsLast | backend/internal/picker/stable.go:32-85 | in every run with a clock that does not go back the state is of the kind that this needs |
| StableRuns.DecideKeeps | backend/internal/picker/stable.go:316-378 | a decision reports the bound key it saw, and changes no binding but its session's challenger |
| StablePicker.DecisionsAreUsable | backend/internal/picker/stable.go:295-433 | binding reuse, challenger trial, exploration and initial choice all return a usable key |
| StablePicker.Picker.Prepare | backend/internal/picker/stable.go:32-55 | the loops drop exactly what has expired |
| StablePicker.Picker.MakeDecision | backend/internal/picker/stable.go:313-425 | the decision and the stored state are the specified ones, whose meaning the laws of StableLaws state |
| StablePicker.Picker.CommitSuccess | backend/internal/picker/stable.go:461-497 | the commit stores the specified state and is a step of the run; a recovery validation commits nothing |
| StablePicker.Picker.StableDecision | backend/internal/picker/stable.go:295-433 | a key is returned exactly when some candidate is usable, and it is a usable one; it is a recovery validation, and leaves the state alone, exactly when a usable candidate is one; any other decision is the next step of the run, on the view that the pool and the fastest candidate give |
| Capacity.Reserves | backend/internal/picker/band.go:634-663 | a reservation within the limits keeps counters equal to outstanding reservations, within their limits, and every minute within the rate |
| Capacity.Releases | backend/internal/picker/band.go:610-632 | giving a reservation back, sent or refunded, keeps all of that |
| Capacity.Compacts | backend/internal/picker/band.go:642-658 | dropping old entries, even without storing the new length, keeps the window covering the last minute |
| Capacity.Runtime.TryAcquire | backend/internal/picker/band.go:634-663 | refuses by the first limit that is reached, where the rate counts the entries of the window, and otherwise reserves; the books afterwards, windows included, are the specified ones |
| CapacityRuns.AcquiresExactlyWhen | backend/internal/picker/band.go:634-663 | capacity is reserved exactly when the entries of the key's window in the last minute, its reservations held and those of the provider are below every limit set; the refusal is the provider's exactly when the key has room |
| CapacityRuns.RunIsSound | backend/internal/picker/band.go:589-681 | over every run of tries, looks and releases the counters are the outstanding reservations within their limits, and no minute has more unrefunded reservations than allowed |
| CapacityRuns.TryKeepsExact | backend/internal/picker/band.go:642-658 | a try keeps the last minute of a window equal to the unrefunded reservations exactly when it is not a counter refusal that drops some entries and keeps others |
| CapacityRuns.RefusalKeepsExact | backend/internal/picker/band.go:642-658 | a counter refusal keeps a window exact exactly when the compaction drops nothing or everything |
| CapacityRuns.ReleaseKeepsExact | backend/internal/picker/band.go:610-632 | a release keeps every window exact, and a refund takes out just its own entry |
| CapacityRuns.ExactUntilCut | backend/internal/picker/band.go:634-663 | over every run a window is exact until the first such refusal, and not right after it |
| CapacityRuns.RateCheckIsRight | backend/internal/picker/band.go:649-652 | the rate check never lets too much through, and with an exact window it refuses exactly when the reservations of the last minute have reached the limit |
| CapacityRuns.RightExactlyWhenCounted | backend/internal/picker/band.go:649-652 | the rate check is right for every limit exactly when the last minute of the window is that of the unrefunded reservations |
| CapacityRuns.RateCheckCounts | backend/internal/picker/band.go:634-663 | so over every run without such a refusal |
| CapacityRuns.OneReservationCountsTwice | backend/internal/picker/band.go:642-658 | a run after which a try is refused by a rate of two with one reservation in the minute |
| Capacity.Runtime.ReleaseAttempt | backend/internal/picker/band.go:610-632 | only the first call of a release has an effect |
| Capacity.Runtime.ResourceSnapshot | backend/internal/picker/band.go:589-603 | reports the exact in-flight counters, and stores and reports the compacted window, which holds at least the reservations of the last minute |
| Projection.ProjectDiurnal | backend/internal/dashboard/recommend.go:273-296 | the result is the first time at which the piecewise-linear consumption equals the balance, or the 240-hour cap when the walk does not use it up |
| Projection.ProjectionGrows | backend/internal/dashboard/recommend.go:273-296 | the projection is monotone in the balance, unique, positive and never above the cap |
| Projection.FlatProfile | backend/internal/dashboard/recommend.go:268-272 | a flat profile gives balance × 24 / daily total, up to the cap |
| Projection.BurnGrows | backend/internal/dashboard/recommend.go:273-296 | the consumption curve never falls |

## Left out

- SQL, GORM, Redis WATCH, JSON and HTTP: a transaction is one atomic step and a stored row a record.
- Deleting old circuits and observations: a deleted closed row would restart its generation, which the protocol does not allow for.
- Deleting old request and attempt facts: an end that comes near the end of the replay age may then wait for attempts that are gone.
- LedgerPurges.SettlesOnce: every entry of an event is taken to carry the event's own time, as the service enqueues it, and that time to have come when the event is processed.
- Exploration slots and the recovery budget per minute: they appear as a yes or no from outside.
- Interrupted ends, including those made for stale requests: exactly-once is stated for the start, attempt and non-interrupted end events of a request.
- Events that arrive while a pass is running: they are modelled as arriving before or after it.
- Prices: the base cost billed by the price card is an input, and floating-point rounding is exact arithmetic here.
- The Shanghai time zone is a fixed offset of eight hours.
- The store of the flag that ends a copy is not under the hold's lock in the program; here it is one atomic step.
- SseCopy.CopySSE: does not count oversized events reported by the reader itself, because the counter only feeds diagnostics.
- The text detector, usage parser, stream validator and JSON decoding of events are arbitrary functions; the reader that re-frames strict streams is not part of this model.
- Latencies and progress callbacks of the collector: only whether and by which event the first output was seen is modelled.
- ProxyLoop.Proxy: the waiting inside a pick is part of the pick, and the picker is assumed to honour exclusions and the allow set.
- The picker reads the clock once per step here, and the circuit rows in one query.
- RangeQueries.Trends: reads the clock once, where the program reads it again for every point, so that the oldest point of a range may age out meanwhile.
- Read-only previews of a decision, the other ranking modes and the sticky keys they use.
- Rates, quantiles, rankings order, renewal and investment advice, alerts, catalog, administration and the frontend: easy or presentational.
