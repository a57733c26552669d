# Verification of the storage and queue backends

A Dafny model of the protocols at the heart of the Scrapy backends, and proofs about it.
Six components are modelled; in all of them the driver library is an environment that
may succeed, fail, raise in the middle or call back.

- **Kafka delivery** (`Kafka*.dfy`).  `KafkaDelivery` holds the effect of each critical
  section on the maps that one consumer generation owns; `KafkaProtocol` interleaves them
  as a state machine with the broker log (gaps included), the consumer position, the
  committed offsets, rebalances, disconnects and commits that fail or are interrupted;
  `KafkaRuns` proves what holds over all runs.  `KafkaBackend` has the mutable objects,
  each method tied to the same functions; `KafkaCohorts` relates the commits of one
  cohort, `KafkaInFlight` says which steps leave a record in flight below the committed
  offset, `KafkaLedger` what each step does to the maps, entry by entry, and what an
  acknowledgement commits; `KafkaLag` is the lag query, and `KafkaRegress` has two concrete runs in which a
  committed offset goes back.
- **Circuit breaker** (`Breaker*.dfy`).  Calls settle at any later step, in any order, with
  a multiset of outstanding admissions; `BreakerTimes` measures deadlines from the events
  themselves and says which outcomes still count.
- **Generation lease gate** (`LeaseGate*.dfy`).  Publish, lease, retire and drain over any
  number of threads, with sleeping, notification and interrupts; finalizers deferred to
  the last release.  `LeaseGateDrains` says when a drain leaves, is woken, or never leaves,
  `LeaseGateFinalizers` which finalizer runs and who holds what, from the history alone.
- **Pulsar pumps** (`Pulsar*.dfy`).  `PulsarPumps` is the machine of workers, tombstones
  and disconnects, `PulsarRuns` its invariant, `PulsarExclusive` exclusivity and
  `PulsarStranded` which topics can never be subscribed again, `PulsarStrands` which steps
  bring that about, `PulsarOverlap` when a close call is still out beside a new
  subscription;
  `PulsarBackend` has the same critical sections as methods; `PulsarDelivery` and
  `PulsarObjects` the bounded buffer and token settlement, `PulsarHistory` what callers
  are answered, from the events alone.
- **JSON codec** (`Json*.dfy`, `Base64.dfy`) **and DynamoDB storage** (`Dynamo*.dfy`).
  `JsonCodec` is the codec, `JsonWire` its wire format and refusals spelled out;
  `DynamoClear` is the paginated clear for arbitrary replies, `DynamoClearRuns` what it
  may call, `DynamoClearCoverage` what it leaves behind, `DynamoTable` and
  `DynamoTableRuns` the races between writers, clears and lazy expiry, `DynamoBackend`
  the single-caller operations.

## Reading the results

- An *origin* is the offset at which a partition's consumption last started without a
  committed offset.  At-least-once is stated from the origin on, because with
  `auto_offset_reset=latest` a restart without a commit skips records by design.
- `committed <= every in-flight offset` does not hold: a nack can bring an acknowledged
  offset back into flight (`KafkaRegress.InFlightBelowCommitted`), and so can, without any
  nack, a commit that fails although the broker recorded it
  (`KafkaInFlight.FailedCommitBelow`) and a rebalance during a commit
  (`KafkaInFlight.RebalanceBelow`).  `KafkaInFlight.BelowBeginsIff` names the steps exactly,
  and what lies below is acknowledged already (`KafkaRuns.BelowCommittedIsAcked`).
- Names ending in `Exactly` say in terms of the inputs, the history or the state before a
  step what comes out of it, in every case, without naming the function that computes it.
- Commits can go back.  Across cohorts any commit can (`KafkaRegress.CommitsCanGoBack`).
  Within one, token commits increase (`KafkaCohorts.TokenCommitsIncrease`), but a bare
  commit of a record below the commit base does not (`KafkaRegress.BareCommitGoesBack`);
  `KafkaCohorts.CommitAboveBaseIff` and `KafkaCohorts.CommitAboveLastIff` give the exact
  condition.
- A breaker call that meets a probe which is not yet overdue, and the call one timeout
  later that declares it hung, are both rejected.  `Breaker.TwoCalls` gives the exact
  condition, `Breaker.NeverWedges` the guarantee without it.
- The comment on `_probe_started_at` says that it is None whenever the slot is free; in
  the code `_release_probe` (`src/scrapy_extension/backends/circuit_breaker.py:512-519`)
  keeps the old start (`Breaker.ReleasedProbeKeepsItsStart`).  The start is recorded
  exactly while the breaker is half open, so the comment fails exactly when it is half
  open with a free slot (`Breaker.ProbeStartRecorded`).
- A drain that waits although its thread holds a lease of the record itself is not woken
  when all other leases come back, because the exit of `lease` notifies only at zero
  (`LeaseGateDrains.LostWakeup`).  It leaves only after a notification that has nothing to
  do with the record: a publication, a retirement, another record's last return, an
  interrupt.  `LeaseGateDrains.WokenByReturnsIff` is exact.
- Even with such notifications, threads that drain while each waits for a lease of
  another one never leave (`LeaseGateDrains.TwoHoldersDeadlock`), and
  `LeaseGateDrains.NeverLeavesIff` says that nothing else keeps a drain for ever.
- A retired Pulsar consumer can be closed twice: by its retirement's thread, and by the
  pump's worker, which looks before that thread is recorded or after its start has failed
  and a fallback runs.  The first close to return releases the topic, so a new
  subscription can start while the other call is out (`PulsarOverlap.TwoClosesOverlap`).
  What holds always is that some close of every earlier consumer has returned
  (`PulsarExclusive.SubscriptionExclusive`); `PulsarOverlap.OverlapExactly` and
  `PulsarOverlap.OverlapIff` say exactly when another one has not.
- A Pulsar worker reads its retirement outside the lifecycle lock, and a thread start can
  fail without telling whether the thread runs.  Exclusivity does not depend on either,
  but both can leave a tombstone nobody finishes (`PulsarStranded.TombstoneCanStrand`,
  `PulsarStranded.AmbiguousStartStrands`).  `PulsarStranded.NeverAgainIff` says exactly
  which topics can never be subscribed again.
- Lazy cleanup never removes a live row, but it can remove a row written after the read,
  when a writer stalls between its clock reading and its put for as long as the lifetime
  (`DynamoTableRuns.StalledWriterIsReaped`, exact in `DynamoTableRuns.LateRowReapedIff`).

## Model

| member | source | states |
|---|---|---|
| KafkaRuns.AtLeastOnce | src/scrapy_extension/backends/kafka.py:2439-2586 | in every run, when a commit is handed to the broker, each log record from the origin of that consumption up to the committed offset was acknowledged at or before that step, by a token active then or through the legacy slot |
| KafkaRuns.AtLeastOnceFromStart | src/scrapy_extension/backends/kafka.py:2439-2586 | the same from a fixed start offset per partition, when every reset names that offset |
| KafkaLedger.AckCommitsExactly | src/scrapy_extension/backends/kafka.py:2498-2529 | in every run, acknowledging an active token whose record is in flight commits up to the least other offset in flight from the cohort's base on, or up to the frontier if there is none, when that moves the base, and otherwise sends nothing |
| KafkaLedger.AckCommitsNothing | src/scrapy_extension/backends/kafka.py:2457-2494 | in every other case an acknowledgement with a token sends no commit |
| KafkaLedger.BareAckCommitsExactly | src/scrapy_extension/backends/kafka.py:2300-2340 | in every run, a legacy acknowledgement commits the record in the slot if and only if no token of its partition is active and nothing but that record is in flight there |
| KafkaRuns.AckedMeansAcknowledged | src/scrapy_extension/backends/kafka.py:2457-2494 | a record counts as acknowledged only through an ack step with a token that was active at that moment, or a legacy ack of that record |
| KafkaRuns.IssuedIsCovered | src/scrapy_extension/backends/kafka.py:2506-2520 | a commit, by token or bare, never passes a record of the log that has not been acknowledged, also after pruning and rewinding |
| KafkaRuns.NothingIsLost | src/scrapy_extension/backends/kafka.py:1887-1921 | an unacknowledged record of an assigned partition is in flight or still ahead of the consumer's position, unless a legacy record of it was dropped while the consumer no longer held the partition |
| KafkaRuns.RestartRedelivers | src/scrapy_extension/backends/kafka.py:541-576 | after an assignment change or a reconnect the consumer restarts at or before every unacknowledged record |
| KafkaLedger.NackRedelivers | src/scrapy_extension/backends/kafka.py:2623-2665 | in every run, once a live token is rejected and the seek has returned, the token is dead and the rejected record is the one record of its partition that a fetch can deliver |
| KafkaLedger.PositionExactly | src/scrapy_extension/backends/kafka.py:541-576 | where the consumer of a partition stands after any step: where its assignment starts it, past the record a fetch delivered, or back at the record a rejection seeks |
| KafkaRuns.StepKeeps | src/scrapy_extension/backends/kafka.py:1887-2769 | every step of the protocol keeps the world invariant: covered base, delivered range acknowledged or in flight, sane attempts, agreeing index, covered broker commits |
| KafkaRuns.FencedForever | src/scrapy_extension/backends/kafka.py:582-620 | a token that is superseded, settled or outlived by its assignment never becomes active again, whatever happens, and acknowledging or rejecting it changes nothing and sends no commit and no seek |
| KafkaLedger.TokensExactly | src/scrapy_extension/backends/kafka.py:582-648 | after any step a token is active if and only if the step delivers it, or it was active and the step does not end its assignment, deliver its record again, or settle it |
| KafkaRuns.ActiveInOneSession | src/scrapy_extension/backends/kafka.py:582-620 | no token is active in two consumer generations |
| KafkaRuns.AttemptsOnlyForgotten | src/scrapy_extension/backends/kafka.py:516-539 | each step only forgets attempts, or adds one under a number never used before |
| KafkaLedger.InFlightExactly | src/scrapy_extension/backends/kafka.py:2457-2529 | after any step an offset is in flight if and only if the step delivers it or puts it back after a failed commit, or it was in flight and none of the four ways out of flight was taken |
| KafkaLedger.SlotExactly | src/scrapy_extension/backends/kafka.py:2185-2224 | the legacy slot holds the record popped without a token last, until its commit succeeds, its rejection returns, or the assignment ends |
| KafkaLedger.CohortExactly | src/scrapy_extension/backends/kafka.py:2554-2586 | where a partition's cohort stands after any step: seeded by a delivery, moved by a successful token commit, ended by an assignment or by a settlement that leaves nothing in flight |
| KafkaLedger.OutstandingExactly | src/scrapy_extension/backends/kafka.py:2506-2529 | which settlement is out after any step, and whether its legacy record was in flight |
| KafkaLedger.CountersStep | src/scrapy_extension/backends/kafka.py:516-576 | the generation, the assignment epoch, the last attempt number and the live session after any step |
| KafkaLedger.IdentityStep | src/scrapy_extension/backends/kafka.py:1350-1399 | a session keeps its generation, its epoch changes only by an assignment, and only a disconnect retires it |
| KafkaRuns.FailedCommitRestores | src/scrapy_extension/backends/kafka.py:2531-2552 | after a commit that fails with a Kafka error and nothing in between, the delivery state equals the state before the ack and the same ack plans the same commit |
| KafkaRuns.InterruptedCommitStrands | src/scrapy_extension/backends/kafka.py:2474-2494 | an interrupted commit leaves the attempt active with its offset out of flight; a second ack settles it without another commit |
| KafkaCohorts.BaseFollowsCommits | src/scrapy_extension/backends/kafka.py:2554-2581 | while a cohort lives a step leaves its commit base alone, unless a token commit succeeds whose token still counts; then the base becomes that watermark, which is not below the old base |
| KafkaCohorts.TokenCommitsIncrease | src/scrapy_extension/backends/kafka.py:2567-2581 | within one cohort every later token commit is above every earlier successful one |
| KafkaCohorts.CommitAboveBaseIff | src/scrapy_extension/backends/kafka.py:2300-2340 | a commit from a living cohort is above its base if and only if it is a token commit, or a bare one whose record the base has not passed |
| KafkaCohorts.CommitAboveLastIff | src/scrapy_extension/backends/kafka.py:2300-2340 | over whole runs, a commit, by token or bare, is above the last successful token commit of its cohort under exactly that condition |
| KafkaRegress.BareCommitGoesBack | src/scrapy_extension/backends/kafka.py:2310-2340 | within a cohort a bare commit can go back: a concrete run commits 3, and an accepted bare ack then sends 2 |
| KafkaRegress.CommitsCanGoBack | src/scrapy_extension/backends/kafka.py:2575-2581 | across cohorts commits can go back: a concrete run over three records commits 3 and then, after a rewind, 2 |
| KafkaRuns.BelowCommittedIsAcked | src/scrapy_extension/backends/kafka.py:2498-2520 | an in-flight offset, from the origin of the committed consumption on, lies below the committed offset only if its record is acknowledged already |
| KafkaRegress.InFlightBelowCommitted | src/scrapy_extension/backends/kafka.py:2623-2665 | that happens: in the same run offset 1 is in flight while 3 is committed |
| KafkaInFlight.BelowBeginsIff | src/scrapy_extension/backends/kafka.py:2498-2586 | a step brings an in-flight offset below the committed one exactly when it delivers it there, or puts it back there because its commit failed, or records a commit above it while it is in flight and stays so |
| KafkaInFlight.FailedCommitBelow | src/scrapy_extension/backends/kafka.py:2531-2552 | a concrete run without a nack: a commit that fails after the broker recorded it puts its record back in flight below the committed offset |
| KafkaInFlight.RebalanceBelow | src/scrapy_extension/backends/kafka.py:541-576 | another: the record is delivered again below the committed offset after a rebalance that landed during its commit |
| KafkaRuns.AttemptsAreInFlight | src/scrapy_extension/backends/kafka.py:1887-1914 | unless a commit was interrupted, every active attempt's offset is in flight whenever no settlement is under way |
| KafkaRuns.IndexAlwaysAgrees | src/scrapy_extension/backends/kafka.py:622-648 | in every reachable state the per-partition index is the grouping of the attempt table and attempt numbers are unique |
| KafkaDelivery.FinishKeepsIndex | src/scrapy_extension/backends/kafka.py:622-648 | finishing an attempt keeps that agreement |
| KafkaDelivery.PopKeepsIndex | src/scrapy_extension/backends/kafka.py:1899-1914 | so does a delivery under a new number, redelivery over an older attempt included |
| KafkaDelivery.WatermarkIsLeast | src/scrapy_extension/backends/kafka.py:2498-2504 | the watermark is the least offset at or above the base that is in flight, or the pop frontier if there is none |
| KafkaProtocol.RegisterKeeps | src/scrapy_extension/backends/kafka.py:1897-1921 | recording a delivered offset keeps a session's invariant, redelivery below an advanced base included |
| KafkaProtocol.AckBeginKeeps | src/scrapy_extension/backends/kafka.py:2457-2520 | the opening section of an ack keeps it and its watermark is covered |
| KafkaProtocol.CommitReturnedKeeps | src/scrapy_extension/backends/kafka.py:2531-2586 | so does each way a commit can return, with a rebalance or a disconnect landed in between |
| KafkaProtocol.SeekKeeps | src/scrapy_extension/backends/kafka.py:2623-2665 | so does the backward seek of a nack |
| KafkaProtocol.BareAckCovers | src/scrapy_extension/backends/kafka.py:2300-2340 | an accepted bare ack covers every record below what it commits |
| KafkaProtocol.BareNackReturnedKeeps | src/scrapy_extension/backends/kafka.py:2667-2769 | a bare nack leaves at most one hole, at the offset that is fetched next; when the partition is no longer held the record is dropped without a seek and the partition is fetched no more |
| KafkaBackend.Generation.WalkWatermark | src/scrapy_extension/backends/kafka.py:2500-2504 | the loop ends at the least in-flight offset from the base on, or at the frontier, and equals the specification |
| KafkaBackend.Generation.TokenIsActive | src/scrapy_extension/backends/kafka.py:582-620 | the exact condition under which a token is active |
| KafkaBackend.Generation.FinishAttempt | src/scrapy_extension/backends/kafka.py:622-648 | the maps after the attempt is finished |
| KafkaBackend.Generation.RecordPop | src/scrapy_extension/backends/kafka.py:1896-1921 | the maps after a token delivery |
| KafkaBackend.Generation.RecordLegacyPop | src/scrapy_extension/backends/kafka.py:2185-2224 | the maps after a bare delivery |
| KafkaBackend.Generation.AckBegin | src/scrapy_extension/backends/kafka.py:2457-2524 | the maps and the plan after the opening section of an ack |
| KafkaBackend.Generation.Advance | src/scrapy_extension/backends/kafka.py:516-539 | an assignment change empties every map under the new epoch |
| KafkaBackend.Backend.PopWithAck | src/scrapy_extension/backends/kafka.py:1886-1929 | the token returned carries a number never used, is active, and the maps record it |
| KafkaBackend.Backend.OnAssignmentChanged | src/scrapy_extension/backends/kafka.py:541-576 | only the listener of the accepting generation advances the epoch and clears its maps |
| KafkaBackend.Backend.Disconnect | src/scrapy_extension/backends/kafka.py:1350-1399 | the retired generation keeps maps and epoch, the counters move on, nothing accepts |
| KafkaBackend.Backend.AckToken | src/scrapy_extension/backends/kafka.py:2439-2586 | a whole token ack, with a callback landed inside the commit and each outcome of it: what is committed, the resulting maps, the result |
| KafkaBackend.Backend.AckLegacy | src/scrapy_extension/backends/kafka.py:2300-2384 | the same for a bare ack, with its two refusals |
| KafkaBackend.Backend.NackToken | src/scrapy_extension/backends/kafka.py:2623-2665 | the same for a token nack: the seek, the second check, the finished attempt |
| KafkaLag.ConsumerGroupLag | src/scrapy_extension/backends/kafka.py:2936-3001 | the lag is the number of offsets the assigned partitions still owe the group, and an invalid reply for any of them fails |
| KafkaLag.LagCoversUnfinished | src/scrapy_extension/backends/kafka.py:2971-3001 | with a current reply, every in-flight unacknowledged record is owed, so the lag is at least their number |
| Breaker.SingleProbe | src/scrapy_extension/backends/circuit_breaker.py:417-462 | in every reachable state the probe slot is taken exactly when one outstanding call carries a half-open admission of the current epoch, and there is never a second one |
| Breaker.CountsTrailingRun | src/scrapy_extension/backends/circuit_breaker.py:464-510 | while closed the count is the trailing run of failures of this epoch and below the threshold; a failure trips exactly when it completes the run; an older epoch's outcome changes nothing |
| Breaker.TransitionsReported | src/scrapy_extension/backends/circuit_breaker.py:375-394 | what observers were told plus what is pending is, in order, exactly the sequence of transitions the run made, each one once, and each a legal one |
| Breaker.CoolDown | src/scrapy_extension/backends/circuit_breaker.py:417-433 | an open breaker admits nothing before its deadline, whatever late outcomes arrive, short of a reset |
| BreakerTimes.CoolDownExactly | src/scrapy_extension/backends/circuit_breaker.py:417-433 | from the event that opens the breaker, a failed probe or a call that finds a probe overdue included, no call gets through before that event's own time plus the timeout, whatever comes back late and short of a reset, and the first call from then on is the next probe |
| BreakerTimes.ProbeExactly | src/scrapy_extension/backends/circuit_breaker.py:434-462 | from the call that begins a probe, no other call gets through while it is out, and the first call a timeout or more after it, and no earlier one, declares it hung |
| BreakerTimes.OutcomeCountsIff | src/scrapy_extension/backends/circuit_breaker.py:464-519 | an outcome counts if and only if since the call was admitted the breaker was not reset and did not change state; otherwise it changes nothing |
| BreakerTimes.AdmitsExactly | src/scrapy_extension/backends/circuit_breaker.py:400-462 | which calls get through: all while closed, none while open before the deadline, one at a time while half open |
| BreakerTimes.CountAndTimeStep | src/scrapy_extension/backends/circuit_breaker.py:464-510 | how any step moves the failure count and the time of the last failure |
| Breaker.TwoCalls | src/scrapy_extension/backends/circuit_breaker.py:434-462 | of two calls a reset timeout apart one is admitted if and only if the first does not meet a probe that is not overdue |
| Breaker.NeverWedges | src/scrapy_extension/backends/circuit_breaker.py:417-462 | of three calls a reset timeout apart one is admitted, from any reachable state |
| Breaker.YoungProbeCostsTwoCalls | src/scrapy_extension/backends/circuit_breaker.py:441-462 | two calls are not always enough: a concrete run rejects both |
| Breaker.ProbeStartRecorded | src/scrapy_extension/backends/circuit_breaker.py:417-462 | in every reachable state a probe start is recorded exactly while the breaker is half open, so a free slot without a recorded start fails exactly when it is half open with a free slot |
| Breaker.ReleasedProbeKeepsItsStart | src/scrapy_extension/backends/circuit_breaker.py:512-519 | that happens: a released probe leaves the slot free and its start recorded |
| BreakerObject.CircuitBreaker.AllowCall | src/scrapy_extension/backends/circuit_breaker.py:400-462 | the admission and the fields after it |
| BreakerObject.CircuitBreaker.RecordSuccess | src/scrapy_extension/backends/circuit_breaker.py:464-485 | the fields after a recorded success |
| BreakerObject.CircuitBreaker.RecordFailure | src/scrapy_extension/backends/circuit_breaker.py:487-510 | the fields after a recorded failure |
| BreakerObject.CircuitBreaker.ReleaseProbe | src/scrapy_extension/backends/circuit_breaker.py:512-519 | the fields after a call that is not counted |
| BreakerObject.CircuitBreaker.Reset | src/scrapy_extension/backends/circuit_breaker.py:337-352 | the fields after a reset |
| BreakerObject.CircuitBreaker.NotifyPending | src/scrapy_extension/backends/circuit_breaker.py:375-394 | the batch taken is all that was pending |
| BreakerObject.CircuitBreaker.FinishCall | src/scrapy_extension/backends/circuit_breaker.py:552-620 | the outcome of a protected call dispatched to its record |
| LeaseGate.FinalizerSafety | src/scrapy_extension/backends/_generation.py:161-209 | over every interleaving: a record runs at most one finalizer, none while a lease is held or new leases are admitted, and exactly one is handed out once a drain registered it and all leases are back |
| LeaseGateFinalizers.FinalizerExactly | src/scrapy_extension/backends/_generation.py:196-209 | in every run, the finalizers of a record that have run, are handed out, or wait for the last lease are the one of the first drain that ended with one, and nothing else; it is handed out or has run as soon as no lease is held |
| LeaseGateFinalizers.FinalizerForever | src/scrapy_extension/backends/_generation.py:196-209 | and that never changes afterwards |
| LeaseGateFinalizers.GateFollowsHistory | src/scrapy_extension/backends/_generation.py:68-154 | in every run the current record is the one the publications and retirements say, a lease is granted to every thread that asks while there is one, and each thread holds what it was granted less what it gave back |
| LeaseGate.LeaseAccounting | src/scrapy_extension/backends/_generation.py:124-154 | the lease count is the sum of the per-thread counts, and the accepting record, if any, is the current one |
| LeaseGate.RetiredOnlyDrains | src/scrapy_extension/backends/_generation.py:83-91 | a retired record grants no lease and stays retired; what other threads hold never grows and shrinks with each return |
| LeaseGate.StepKeeps | src/scrapy_extension/backends/_generation.py:68-209 | every atomic step keeps the gate's invariant, sleeping, notification and interrupted waits included: whoever sleeps in a drain by a thread without leases waits for somebody else's |
| LeaseGateDrains.LeavesExactly | src/scrapy_extension/backends/_generation.py:189-195 | in every run a step takes a thread out of its drain exactly when the thread is awake, looks, and no other thread holds a lease on the record |
| LeaseGateDrains.EntersExactly | src/scrapy_extension/backends/_generation.py:185-195 | in every run a thread goes to sleep exactly when it begins to drain a retired record on which another thread holds a lease |
| LeaseGateDrains.WokenByReturnsIff | src/scrapy_extension/backends/_generation.py:150-154 | when all other threads' leases are back and nothing outside the record notified, a thread that slept in the drain sleeps on if and only if it held leases of its own when it began |
| LeaseGateDrains.LostWakeup | src/scrapy_extension/backends/_generation.py:189-195 | a concrete run in which a reentrant drain sleeps on although no other thread holds a lease |
| LeaseGateDrains.DrainGetsThrough | src/scrapy_extension/backends/_generation.py:150-154 | when no other holder is inside a drain and the drainer owns no lease, as many returns as the others hold leases, and one look, end the drain |
| LeaseGateDrains.NeverLeavesIff | src/scrapy_extension/backends/_generation.py:185-195 | a drain can never leave, whatever happens, if and only if its thread belongs to a set of draining threads each of which waits for a lease another of them holds |
| LeaseGateDrains.TwoHoldersDeadlock | src/scrapy_extension/backends/_generation.py:185-195 | such a set is reached: a concrete run of two holders that both drain |
| LeaseGateObject.GenerationRecord.Take | src/scrapy_extension/backends/_generation.py:128-134 | the record after a lease is granted |
| LeaseGateObject.GenerationRecord.Return | src/scrapy_extension/backends/_generation.py:138-154 | the record after a lease is returned, the finalizers that return must run, and that it notifies exactly at zero leases |
| LeaseGateObject.GenerationRecord.DrainLook | src/scrapy_extension/backends/_generation.py:189-205 | one look of a drain: it sleeps on while others hold leases, otherwise it registers the finalizer and leaves |
| LeaseGateObject.GenerationRecord.Register | src/scrapy_extension/backends/_generation.py:196-205 | the end of a drain: registered once, run now or deferred |
| LeaseGateObject.GenerationLeaseGate.Publish | src/scrapy_extension/backends/_generation.py:68-81 | an accepting record is kept, otherwise a new one with a larger generation becomes current; it notifies only for a new one |
| LeaseGateObject.GenerationLeaseGate.Retire | src/scrapy_extension/backends/_generation.py:83-91 | the current record stops accepting and is detached; it notifies only if there was one |
| LeaseGateObject.GenerationLeaseGate.Lease | src/scrapy_extension/backends/_generation.py:124-134 | a lease is granted on the current accepting record or refused |
| PulsarExclusive.SubscriptionExclusive | src/scrapy_extension/backends/pulsar.py:1695-1768 | in every run at most one pump of a topic is subscribing or has a consumer on which no close has returned, and a new subscription of the topic starts only when there is none and some close of every earlier consumer has returned; a second close of one consumer may still be out |
| PulsarOverlap.OverlapExactly | src/scrapy_extension/backends/pulsar.py:1588-1651 | in every run, where a new subscription of a topic can start, a close call on an earlier consumer of it has not returned if and only if the worker adopted the close that the retirement's thread ran too, and not both calls have returned |
| PulsarOverlap.OverlapIff | src/scrapy_extension/backends/pulsar.py:1926-1942 | outside a running disconnect, some continuation starts a new subscription of a topic beside an outstanding close call of a given tombstone if and only if the topic is not stranded, the tombstone's thread runs or ran the close, and the worker's own call overlaps with it or is still to come |
| PulsarOverlap.TwoClosesOverlap | src/scrapy_extension/backends/pulsar.py:1606-1651 | a concrete run: the worker adopts a close that a thread already runs, the thread's call returns first, and after a reconnect the topic can be subscribed while the worker's call is out |
| PulsarExclusive.EnsureKeeps | src/scrapy_extension/backends/pulsar.py:1699-1760 | asking for a pump serves a live one unchanged, waits behind an incomplete tombstone, and adds a pump only when nothing of the topic is occupied |
| PulsarExclusive.EnsureAnswers | src/scrapy_extension/backends/pulsar.py:1699-1768 | what asking answers: the live pump if there is one, else to wait behind an incomplete tombstone, else that there is no client, else a new pump |
| PulsarRuns.StepKeeps | src/scrapy_extension/backends/pulsar.py:1784-1942 | every step keeps the invariant: each occupied pump is its topic's live pump or stands behind an incomplete tombstone of its topic; the close by a retirement's thread and the close by the worker are separate calls |
| PulsarRuns.CreateKeeps | src/scrapy_extension/backends/pulsar.py:1712-1760 | so does creating a pump, ambiguous and failed thread starts included |
| PulsarRuns.StaleKeeps | src/scrapy_extension/backends/pulsar.py:1678-1693 | so does closing a late candidate, with or without a placeholder |
| PulsarRuns.TerminalKeeps | src/scrapy_extension/backends/pulsar.py:1496-1526 | so does a caller that retires its failed pump |
| PulsarRuns.FenceKeeps | src/scrapy_extension/backends/pulsar.py:909-932 | so does each pump a disconnect fences, reentrant or not |
| PulsarRuns.EndKeeps | src/scrapy_extension/backends/pulsar.py:939-948 | and clearing the topic map at the end of it |
| PulsarRuns.PlaceholderKeeps | src/scrapy_extension/backends/pulsar.py:1928-1932 | a worker that finishes a placeholder leaves nothing subscribed |
| PulsarStranded.NeverAgainIff | src/scrapy_extension/backends/pulsar.py:1695-1768 | outside a running disconnect, a topic can never be subscribed again, in any continuation, if and only if its tombstone is hopeless: nobody runs its close, and its worker never ran, is done, looked too early, or cannot adopt it |
| PulsarStrands.StrandsIff | src/scrapy_extension/backends/pulsar.py:1570-1622 | exactly which steps strand a topic: an ambiguous thread start that did not run, a fence after the worker's unlocked look, or a tombstone whose close no thread runs and its worker will not adopt |
| PulsarStranded.StrandedForever | src/scrapy_extension/backends/pulsar.py:1703-1766 | behind a hopeless tombstone no run starts a subscription of the topic |
| PulsarStranded.CanSubscribeAgain | src/scrapy_extension/backends/pulsar.py:1695-1768 | whenever it is not, some legal continuation starts one |
| PulsarStranded.AmbiguousStartStrands | src/scrapy_extension/backends/pulsar.py:1745-1760 | a thread start that fails ambiguously, and whose thread did not run, strands its topic at once |
| PulsarStranded.TombstoneCanStrand | src/scrapy_extension/backends/pulsar.py:1926-1942 | a disconnect that fences a pump after its worker's unlocked look strands its topic: a concrete run |
| PulsarBackend.Backend.EnsureReceivePump | src/scrapy_extension/backends/pulsar.py:1695-1768 | one look of the method equals its specification and keeps the invariant |
| PulsarBackend.Backend.PublishCandidate | src/scrapy_extension/backends/pulsar.py:1811-1850 | a candidate is published exactly when its pump is live and is otherwise closed behind a tombstone |
| PulsarBackend.Backend.CloseStale | src/scrapy_extension/backends/pulsar.py:1678-1693 | the maps after a late candidate is handed to its retirement |
| PulsarBackend.Backend.RetireFailed | src/scrapy_extension/backends/pulsar.py:1496-1526 | the maps after a failed pump is retired |
| PulsarBackend.Backend.NewRetirement | src/scrapy_extension/backends/pulsar.py:1570-1622 | the maps after a tombstone is published |
| PulsarBackend.Backend.FencePump | src/scrapy_extension/backends/pulsar.py:909-932 | the maps after one pump is fenced |
| PulsarBackend.Backend.Disconnect | src/scrapy_extension/backends/pulsar.py:885-948 | every live pump stops accepting, the others are untouched, no pump stays live, and the invariant holds, whatever becomes of the close tasks it starts |
| PulsarBackend.Backend.WorkerEnds | src/scrapy_extension/backends/pulsar.py:1926-1942 | the end of a worker: it finishes a placeholder, adopts a close it finds unowned, or leaves everything alone |
| PulsarBackend.Backend.FinishRetirement | src/scrapy_extension/backends/pulsar.py:1633-1651 | the retirement is completed and only its own tombstone is dropped, for the first closer and for a second one |
| PulsarDelivery.RunKeeps | src/scrapy_extension/backends/pulsar.py:1459-1486 | over every run of a pump: the buffer stays within capacity, callers get an in-order prefix of what the worker received, each record once, and a fenced pump hands out nothing more |
| PulsarDelivery.NothingLost | src/scrapy_extension/backends/pulsar.py:1850-1924 | while a pump is live, what was received is what was handed out followed by what is buffered |
| PulsarDelivery.NextInOrder | src/scrapy_extension/backends/pulsar.py:1476-1486 | a live pump with records hands out the first one not yet handed out |
| PulsarHistory.AnswersFollowHistory | src/scrapy_extension/backends/pulsar.py:1459-1526 | after any events a caller is answered the first message not handed out yet; when none waits, the pump's failure, which ends the pump, if and only if some receive failed; and nothing once the pump is fenced or its failure reported |
| PulsarDelivery.AtMostOneSuccess | src/scrapy_extension/backends/pulsar.py:178-204 | at most one broker action of a token succeeds; the token stays pending exactly as long as every attempt failed; the first other attempt decides |
| PulsarDelivery.EachAttempt | src/scrapy_extension/backends/pulsar.py:178-204 | what each ack or nack is told and leaves behind, given those before it |
| PulsarDelivery.ConsumerExactly | src/scrapy_extension/backends/pulsar.py:2159-2187 | which consumer settles a token, tokens of earlier versions included |
| PulsarDelivery.SettledByItsOwner | src/scrapy_extension/backends/pulsar.py:2159-2187 | whatever calls are made with a delivered token in whatever generations, at most one broker action succeeds, and one does exactly when the first call that does not fail comes through the consumer that delivered the record, in the generation that issued the token |
| PulsarObjects.ReceivePump.Take | src/scrapy_extension/backends/pulsar.py:1459-1526 | the buffer after one look, and the record handed out is the next one received |
| PulsarObjects.ReceivePump.Deliver | src/scrapy_extension/backends/pulsar.py:1870-1924 | the buffer after one receive |
| PulsarObjects.ReceivePump.CheckRoom | src/scrapy_extension/backends/pulsar.py:1856-1860 | the worker goes on only with room for one more record |
| PulsarObjects.AckToken.Settle | src/scrapy_extension/backends/pulsar.py:191-204 | the state and outcome of one attempt, and never a second successful action |
| JsonCodec.ExactRoundTrip | src/scrapy_extension/backends/_json_codec.py:178-220 | None, booleans, finite numbers, strings, bytes, datetimes, dates, and lists and string-keyed dicts of these, dicts shaped like any marker included, are accepted and come back exactly |
| JsonCodec.RoundTrip | src/scrapy_extension/backends/_json_codec.py:178-271 | whatever is accepted comes back, up to lists for sequences and sets, bytes for byte arrays, text for decimals and the like; decoding encoder output never fails |
| JsonCodec.AcceptedExactly | src/scrapy_extension/backends/_json_codec.py:180-220 | a value is accepted exactly when no secret, non-finite number, foreign object or non-string key occurs in it at any depth |
| JsonCodec.EncodingDetermines | src/scrapy_extension/backends/_json_codec.py:207-213 | two values with one encoding come back equal |
| JsonWire.WireFormat | src/scrapy_extension/backends/_json_codec.py:180-200 | the form bytes, datetimes and dates are written in |
| JsonWire.EscapeFormat | src/scrapy_extension/backends/_json_codec.py:206-213 | a dict that looks like a marker is written as the list of its members |
| JsonWire.TaggedTextDecodes | src/scrapy_extension/backends/_json_codec.py:223-271 | what a tagged object with text decodes to, malformed text included |
| JsonWire.LegacyDecodes | src/scrapy_extension/backends/_json_codec.py:134-160 | what an object under the legacy marker decodes to, malformed text included |
| JsonWire.ErrorOccurs | src/scrapy_extension/backends/_json_codec.py:180-220 | the error reported is that of something refused that occurs in the value |
| JsonCodec.UnescapedStaysDict | src/scrapy_extension/backends/_json_codec.py:162-176 | an object the encoder does not escape is decoded as the dict it was |
| JsonCodec.EscapedRoundTrip | src/scrapy_extension/backends/_json_codec.py:207-213 | the members of a dict, escaped or not, decode to that dict |
| JsonCodec.OrdinaryDictsStayPlain | src/scrapy_extension/backends/_json_codec.py:206-213 | a dict with more than two members, or without the keys of either marker, is written as the plain object of its members |
| JsonCodec.LegacyBytesRead | src/scrapy_extension/backends/_json_codec.py:134-160 | the legacy bytes marker is still read |
| JsonCodec.FillEscaped | src/scrapy_extension/backends/_json_codec.py:244-251 | the loop rebuilds the escaped dict or reports the first duplicate key |
| JsonCodec.ObjectFromPairs | src/scrapy_extension/backends/_json_codec.py:293-309 | the object hook refuses duplicate names and otherwise decodes the marker |
| Base64.RoundTrip | src/scrapy_extension/backends/_json_codec.py:187-189 | base64 of section 4 of RFC 4648: every byte string comes back |
| Base64.EncodeIsStandard | src/scrapy_extension/backends/_json_codec.py:187-189 | the encoding is that of section 4 of RFC 4648, character by character: alphabet, bit order and padding |
| Base64.ValueIs | src/scrapy_extension/backends/_json_codec.py:187-189 | a character has a value exactly if it stands in the alphabet, and its place is that value |
| DynamoTableRuns.ClearDeletesOnlyWhatItSaw | src/scrapy_extension/backends/dynamodb.py:675-736 | in every interleaving with writers, what a clear's conditional delete removes is the very write its scan saw, and the key has its prefix |
| DynamoTableRuns.CleanupDeletesOnlyTheExpired | src/scrapy_extension/backends/dynamodb.py:1010-1045 | lazy cleanup removes only rows expired when judged; a removed store had read its clock a whole lifetime before, and a row landed after the judgement was dead on arrival |
| DynamoTableRuns.LateRowReapedIff | src/scrapy_extension/backends/dynamodb.py:1025-1034 | cleanup removes the row that stands at its key, however late it landed, exactly when that row carries the expiry that was read; one that landed after the judgement and before its own expiry stays |
| DynamoTableRuns.StalledWriterIsReaped | src/scrapy_extension/backends/dynamodb.py:1072-1092 | cleanup can remove a row written after the read: a concrete run with a stalled writer |
| DynamoTableRuns.EveryLossAccounted | src/scrapy_extension/backends/dynamodb.py:1010-1375 | a row that is gone was overwritten, deleted by another program, or is in the log of clears and cleanups |
| DynamoTableRuns.RowExactly | src/scrapy_extension/backends/dynamodb.py:675-736 | what any step leaves at a key |
| DynamoTableRuns.ReaderExactly | src/scrapy_extension/backends/dynamodb.py:1010-1045 | a reader goes on to a cleanup exactly when the row it read is due at its judgement |
| DynamoTable.StepKeeps | src/scrapy_extension/backends/dynamodb.py:1010-1092 | every step of writers, clears and readers keeps the table's invariant |
| DynamoTable.ClearRemovesWhatItSaw | src/scrapy_extension/backends/dynamodb.py:713-728 | the revision condition holds only for the write that was seen |
| DynamoBackend.CleanupInvisible | src/scrapy_extension/backends/dynamodb.py:1010-1045 | after any reads, each with a cleanup that works or fails, the answers about any key are those of the table nobody cleaned |
| DynamoBackend.ReadsExactly | src/scrapy_extension/backends/dynamodb.py:1105-1277 | the three reads against each other: when they fail, when the row is there, and how much is left of it |
| DynamoBackend.StoreThenRetrieve | src/scrapy_extension/backends/dynamodb.py:1056-1150 | a stored value is served up to the first full second that is not before the end of its lifetime, and for ever without one; a read that comes too late takes the row away if its cleanup works |
| DynamoBackend.StoreThenExists | src/scrapy_extension/backends/dynamodb.py:1197-1228 | a stored row exists exactly as long as it is served |
| DynamoBackend.StoreThenTimeToLive | src/scrapy_extension/backends/dynamodb.py:1237-1277 | and has that long left, in full seconds |
| DynamoBackend.SameExpiry | src/scrapy_extension/backends/dynamodb.py:1010-1045 | an expiry is written and judged by one rule, for one caller and for many |
| DynamoBackend.Backend.Store | src/scrapy_extension/backends/dynamodb.py:1072-1092 | only the stored key changes, under the rounded-up expiry; a lifetime that is not positive is refused |
| DynamoBackend.Backend.LazyReap | src/scrapy_extension/backends/dynamodb.py:1010-1045 | expired means due by now; the delete is conditional on the expiry read, and when it fails the failure is swallowed and the row stays |
| DynamoBackend.Backend.Retrieve | src/scrapy_extension/backends/dynamodb.py:1105-1148 | the answer and the table after a retrieve, a failed cleanup included |
| DynamoBackend.Backend.Exists | src/scrapy_extension/backends/dynamodb.py:1197-1228 | the answer and the table after an existence check, a failed cleanup included |
| DynamoBackend.Backend.TimeToLive | src/scrapy_extension/backends/dynamodb.py:1237-1277 | the answer and the table after a lifetime query, a failed cleanup included |
| DynamoClear.ClearStorage | src/scrapy_extension/backends/dynamodb.py:1287-1375 | the calls and the error of the clear for any replies; it ends because every continued page adds a digest to a finite set |
| DynamoClear.DeletePage | src/scrapy_extension/backends/dynamodb.py:1364-1371 | the inner loop over one page |
| DynamoClear.ValidatedScanPage | src/scrapy_extension/backends/dynamodb.py:595-632 | the items of a readable page in order with the next cursor, or the error of the first bad item |
| DynamoClearRuns.EveryCallAllowed | src/scrapy_extension/backends/dynamodb.py:675-736 | every delete call is for an item an earlier scan of this clear returned, in scope, with a revision in the generated grammar unless the override is on, and every delete but a failing last one was confirmed by the row returned |
| DynamoClearRuns.NoCursorTwice | src/scrapy_extension/backends/dynamodb.py:1350-1363 | no page is asked for twice |
| DynamoClearRuns.WhyItStops | src/scrapy_extension/backends/dynamodb.py:1332-1375 | the error a clear reports is the one the reply to its last call stands for, or, without the override, that a page held an item without a revision |
| DynamoClearCoverage.ClearStorageEmptiesPrefix | src/scrapy_extension/backends/dynamodb.py:1332-1375 | with honest pages, no other writer and only clearable rows, a normal return leaves exactly the rows outside the prefix, and the clear does return normally unless two cursors share a digest |

## Left out

- Driver calls, sockets, TLS, credentials, settings, logging and error redaction: they are outcomes given to the steps, or have no functional property.
- Kafka connection variants, topic creation and policy checks, `push`, and the cleanup of a consumer whose creation fails half-way: flat validation, or no delivery state; connecting and creating the consumer are one step.
- Kafka tokens with attempt number 0 and directly injected mirror maps: compatibility with older callers.
- Kafka rebalances between a nack's assignment check and its seek: rebalance callbacks come from inside the driver's poll or commit, which the consumer lock keeps apart from a seek.
- Kafka groups with several members: one consumer is live at a time, and a commit by another member is not modelled.
- KafkaLag.LagCoversUnfinished: assumes a reply that reports the present commit, a log start at or before it and an end past the delivered range, because otherwise the records it would count no longer exist or are not yet reported.
- Breaker proxies for queue, set and storage backends, and observers that drain concurrently: the emission order is taken where the batch is swapped out.
- Breaker.NeverWedges: for a positive reset timeout, because with a timeout of 0 the code has no probe deadline by design.
- Times are real numbers and clocks are monotone.
- Lease gate: only retired records are drained, and a thread inside a drain takes and returns no lease; a wait that raises is a wake-up, and the signal re-raised after the drain, a finalizer's own error and a drain of no record are not modelled.
- Pulsar producers, the client's own close, close tasks and shutdown timeouts, legacy single-message settlement, and the diagnostic in-flight set: no part in exclusivity or delivery order.
- Pulsar: what a second `close` of one consumer does inside the SDK; each call returns at a time of its own, in either order.
- Pulsar: whether a worker later finds the close of its tombstone unowned, which depends on how far the starting of a close task got, is an outcome of the step that publishes the tombstone.
- Pulsar publication faults are taken before the consumer is set; the failed-connect path fences pumps in the same steps as a disconnect.
- PulsarBackend.Backend.Disconnect: the threads it starts appear as one outcome per pump, and its waits on retirements are left out, because they change no map.
- Pulsar pumps and retirements are values in maps that the methods reassign, not heap objects; a worker that holds its pump by reference finds it by number.
- JSON text, the text of numbers and of dates: the codec works on JSON trees, with dates through a pair of inverse functions; decimals, UUIDs and paths are their text.
- Strings are sequences of Unicode scalars. In Python two distinct keys, one that holds a surrogate pair as two code points and one that is the single character, give the same JSON name, and decoding the result raises the duplicate-key error.
- Base64.RoundTrip: covers what the encoder writes; what Python's decoder accepts beyond that, such as surplus padding, is not modelled.
- DynamoDB keys are not validated for grammar or size, item sizes are not limited, and a put that the driver repeats lands once.
- DynamoDB rows without a revision under the maintenance override are cleared by `DynamoClear` but take no part in the races of `DynamoTable`: an identical rewrite cannot be told apart.
- Elasticsearch, MongoDB, Memcached, the registry, physical naming, retries and the core types: simpler lifecycles that would add easy members.
