# A verified model of the online coding judge

This project models the parts of the judge in which several processes have to agree, and proves what they guarantee. It
verifies with `dafny verify dfyconfig.toml`.

## How the model is built

The judging protocol is modelled twice and the two are tied together.

- `Protocol` is a state machine over rows, stream, program counters of all workers and publishers, and two clocks. One
  action is one remote call. Every call may be refused, may take effect with its reply lost, and any worker or
  publisher may stop between any two calls. Clock readings of workers are arbitrary; the database clock and the clock of
  Redis advance independently. A transaction that waits for its row writes the time at which it began, and a
  reconciliation inserts for what it saw when it began. `Invariant` holds in every reachable state; `Safety`, `Timing`
  and `Recovery` draw the guarantees from it, and `Scenarios` builds the runs that show what is not guaranteed.
  `Answers` says, from the columns of the rows alone, which call commits and what the others are told; `History` shows
  rows and stream to be an account of the calls along the run.
- `Repository.Store` and `Transport.Stream` are objects with the fields and branches of the original. Each of their
  methods is proved to compute exactly the transaction (`ClaimTx`, `RetryTx`, ...) or the queue step that the state
  machine uses. `Deployment.Cluster` holds both objects; each of its methods is one call and one action, and
  `Interfere` stands for any number of calls of everyone else. `Engine.Worker` (`Evaluate`, `Handle`, the consumer loop)
  and `Outbox.Publisher` are programs over the cluster, so everything they do is a run of the state machine.

The verdict has a definition of its own: `Judging.Deserved` says, without a loop, which result the observed outcomes
deserve; the loop of `Evaluate`, the stages of the protocol and the stored row are proved to agree with it. What a worker
observed is recorded for each attempt, so that the stored verdict can be traced to one attempt.

`Docker` models containers with every command allowed to fail, `Output` the shared output budget and the launch marker
over arbitrarily cut chunks, `EventStream` the event stream of a submission from the polling loop of the server to the
reader of the web client, and `RateLimit` the fixed-window counter.

| file | module | original |
|---|---|---|
| lifecycle.dfy, tokens.dfy, judging.dfy | Lifecycle, Tokens, Judging | internal/submissions/state.go, internal/judge/engine.go |
| database.dfy, fence.dfy, store.dfy | Database, FenceProofs, Repository | internal/database/judging.go, internal/database/store.go |
| queue.dfy, stream.dfy | Queue, Transport | internal/queue/redis.go |
| protocol.dfy, invariant.dfy, answers.dfy, safety.dfy, history.dfy, timing.dfy, recovery.dfy, scenarios.dfy, cluster.dfy | Protocol, Invariant, Answers, Safety, History, Timing, Recovery, Scenarios, Deployment | the processes together |
| worker.dfy, publisher.dfy | Engine, Outbox | internal/judge/engine.go, cmd/worker/main.go, internal/outbox/publisher.go |
| docker.dfy, output.dfy | Docker, Output | internal/judge/docker.go, internal/judge/output.go |
| sse.dfy, limiter.dfy | EventStream, RateLimit | internal/api/api.go, web/app/page.jsx, internal/queue/redis.go |
| basics.dfy, counting.dfy | Basics, Counting | shared definitions |

## Findings

- `Retry` and `Fail` check that the attempt is current, but not its status (internal/database/judging.go:162-170,
  189-195). They respect terminal rows if and only if the attempt is still active
  (`FenceProofs.RetryAdvancesIffActive`, `FenceProofs.FailAdvancesIffActive`; `FenceProofs.LateWritesThaw` is an
  example). Terminal rows are frozen nevertheless (`Safety.TerminalRowsAreFrozen`), because every attempt belongs to one
  call of `Handle`, which makes at most one of the three closing calls.
- The number of attempts is not bounded by `MaxDeliveries`. It passes the limit if and only if the lease of an attempt at
  or past the limit expires, by exactly the number of these leases (`Timing.AttemptBudget`), and there are runs that pass
  it by as many as one likes (`Scenarios.ExpiriesPassAnyLimit`).
- The lease is compared with the claiming worker's own clock (internal/database/judging.go:36). A claim displaces an
  attempt if and only if that clock has reached the end of the lease (`Timing.ClaimDisplacesIffPastLease`). So
  claims whose clocks have not reached it are harmless, and so are claims of other submissions
  (`Timing.LeaseExcludesOthers`); a clock that has reached it displaces a lease that is still running
  (`Scenarios.ClockAheadDisplacesLiveLease`). Everything in `Safety` holds for arbitrary readings.
- A transaction's rows carry the time at which it began, while the retry delay is checked once the row is locked. At
  that moment the delay has passed by the claiming worker's clock, in every run, and on the database clock as well if
  the worker's is not ahead (`Timing.RetriesBackOff`). The stored times keep it if and only if every
  claim began no earlier than the delay ended (`Timing.RowsAreSpacedIffClaimsBeganInTime`); a claim that waits for its
  row can miss it (`Scenarios.WaitingClaimIsStoredTooEarly`).
- `ReconcileOutbox` locks no submission, and every API process runs it (cmd/api/main.go:71-90). Reconciliations that do
  not overlap space their events by more than five minutes (`Timing.ReconciliationsAreSpaced`); a second one that begins
  before the first has inserted picks the same submissions (`Timing.SecondPicksIffFirstIsPending`,
  `Scenarios.OverlapIsReachable`). Extra events are harmless: everything else is proved with them.
- After `Retry` the current attempt is NULL. A displaced worker's next call then fails with a scan error where
  `ErrStaleAttempt` would be expected, exactly while the submission is QUEUED (`Safety.SupersededGets`,
  `Scenarios.StaleCallIsNullScan`). Nothing is written, but the consumer loop goes on only for `ErrBusy` and
  `ErrStaleAttempt` (cmd/worker/main.go:107-110), so this error ends it.
- `PublishBatch` has marked one event more than it counts if and only if its last mark took effect and only the reply was
  lost (`Outbox.Publisher.PublishBatch`, `Scenarios.LostReplyMarksOneMore`).
- The web client trims leading blanks and replaces line ends chunk by chunk. `EventStream.RoundTripIffExact` and
  `EventStream.ChunkwiseNormalisation` give the exact conditions under which neither matters; encoded JSON objects meet
  the first, and bodies without carriage returns the second.
- The rate limiter permits up to `2 * limit - 1` requests within some interval as long as its window, and no more
  (`RateLimit.AnyIntervalIsBounded`, `RateLimit.BoundIsReached`).

## Model

| member | source | states |
|---|---|---|
| Safety.NothingIsLost | internal/judge/engine.go:176-245 | in every reachable state, a non-terminal submission has an unpublished event that no publisher is about to mark, or an unacknowledged message that no worker has decided to acknowledge or dead-letter |
| Safety.NoExhaustedJobVanishes | internal/judge/engine.go:178-183 | in every reachable state, a FAILED_INTERNAL submission ended with exhausted attempts, and is in the dead stream or still has an event or message that leads there, even if its worker died between Fail and DeadLetter |
| Safety.DeadEntriesAreExhausted | internal/queue/redis.go:76-82 | every dead-stream entry names a FAILED_INTERNAL submission whose current attempt ended as ATTEMPTS_EXHAUSTED |
| Safety.TerminalRowsAreFrozen | internal/database/judging.go:148-199 | over any run, a FINAL or FAILED_INTERNAL row never changes in any modelled column, its end included, although Retry and Fail have no status guard; the snapshot, source and language never change at all |
| Safety.SnapshotIsCreationTime | internal/database/store.go:129-171 | whatever authors save later, a submission keeps the problem it was created against |
| Safety.FinalVerdictIsDeserved | internal/judge/engine.go:98-129 | a FINAL submission has exactly one FINAL attempt, and its stored result is the one that this attempt's observations of the frozen tests deserve: COMPILATION_ERROR if and only if one of the four compile signals was raised; ACCEPTED if and only if each of at least one tests was solved, which means exit code 0, no signal and the expected tokens; else what the first run that did not solve its test signals, by the order of precedence |
| Safety.AttemptsAreNumbered | db/migrations/002_scale.sql:9-19 | attempt numbers of a submission are exactly 1..attempt_count, each once, for arbitrary clock readings |
| Safety.ClaimNeverViolatesUniqueness | internal/database/judging.go:54-56 | the UNIQUE(submission, number) constraint never rejects a claim |
| Safety.WorkerAndStoreAgree | internal/judge/engine.go:92-106 | while its attempt is current, every Transition, Finish, Retry and Fail that a worker issues passes the guards of the store |
| Safety.SupersededIsRejected | internal/database/judging.go:84-89 | once its attempt is not current, nothing a worker asks of the store is written, renewals included |
| Safety.SupersededForever | internal/database/judging.go:99-113 | a superseded attempt never becomes current again and its row never changes again |
| Safety.SupersededGets | internal/database/judging.go:79-86 | a superseded worker's calls behind the row lock all get the same error: a scan error if and only if its submission is QUEUED, ErrStaleAttempt if and only if another attempt is current |
| Safety.AtMostThreeStatusWrites | internal/submissions/state.go:4-17 | over any run an attempt changes its status at most three times |
| Safety.EachWriteIsAnEdge | internal/submissions/state.go:4-17 | in every state of the invariant, whatever one action of anyone does to the status of an attempt is a lifecycle edge and climbs |
| Safety.MarkedMeansAppended | internal/outbox/publisher.go:50-57 | an event is marked published only after a message for its submission was appended |
| Answers.ClaimAnswers | internal/database/judging.go:36-46 | in every state of the invariant, a well-formed claim that is answered gets AlreadyTerminal if and only if the row is FINAL or FAILED_INTERNAL (for the dead stream in the second case), ErrBusy if and only if the row is open and its retry delay or a running lease lies past the worker's clock, and otherwise a job made of the row |
| Answers.TransitionAnswers | internal/database/judging.go:79-91 | a transition commits if and only if the attempt is current and the step leads one stage on, past COMPILING, or to failure |
| Answers.FinishAnswers | internal/database/judging.go:123-129 | a result is stored if and only if the attempt is current and RUNNING, or COMPILING with a compilation error |
| Answers.EndAnswers | internal/database/judging.go:148-189 | Retry and Fail ask for the fence alone, and Retry for a delay of at most five minutes |
| Answers.RenewAnswers | internal/database/judging.go:99-113 | a renewal moves the end of one lease if and only if the attempt is current and active; anything else is stale and writes nothing |
| Answers.LeaseAnswers | internal/database/judging.go:204-214 | a batch is leased to a named publisher for any limit from 1 to 100; only its events change, in owner and end of lease |
| Answers.MarkAnswers | internal/database/judging.go:228-236 | an event is marked once: the second mark finds no row |
| Answers.CreateAnswers | internal/database/store.go:131-171 | a submission is accepted if and only if its problem exists, is published and lists the language, and the source has 1 to 65536 bytes; then it is QUEUED with an event that is due at once |
| Answers.ReachableIsAdmissible | internal/database/store.go:145-156 | in every reachable state, each submission's snapshot is published and lists its language, and its source has 1 to 65536 bytes, whatever authors have done since |
| Answers.LastSaveDecides | internal/database/store.go:136-156 | over any run, the problem as last saved decides whether a submission is accepted and is what it is judged against |
| History.QueueLedger | internal/queue/redis.go:26-82 | over any run the log is what publishers have sent, in order, and the dead stream what workers have buried; a message is unacknowledged until it is answered, and its pending entry tells how often it was handed out and to whom and when last |
| History.TakesAreSpaced | internal/queue/redis.go:40-46 | over any run, two calls that take the same message are apart by at least the idle time for which the second one asks |
| History.EveryTimeHasItsWriter | internal/database/judging.go:47-199 | over any run, an attempt was started at the beginning of a claim of its worker, has an end if and only if it has ended, and ended, as its code says, at the beginning of a call of its worker or of a claim whose clock had reached the end of its lease |
| History.RetriedEventIsDue | internal/database/judging.go:165-173 | the event of a retry becomes available when the retry delay of its submission ends |
| History.RetriesAreNotPublishedEarly | internal/database/judging.go:168-210 | over any run, no batch contains the event of a retry before its delay has passed on the database clock |
| History.BatchIsDue | internal/database/judging.go:209-210 | no batch contains an event that is published, not due yet, or under a lease that has not ended |
| History.LeasableIffDue | internal/database/judging.go:209-210 | every other event can be leased as soon as nobody has it locked |
| History.OldestGoFirst | internal/database/judging.go:210 | an event that is due and unlocked is left out only for a full batch of events that are no younger |
| History.PublishedHasItsMark | internal/database/judging.go:227-237 | over any run, a published event was marked at the stored time and is under no lease |
| Timing.AttemptBudget | internal/judge/engine.go:223-239 | where every worker has MaxDeliveries = max, or a value below one that stands for 3: at most max - 1 transient retries, at least max attempts behind every FAILED_INTERNAL; more than max attempts if and only if the lease of an attempt numbered max or higher expired, and then exactly as many more as such leases |
| Timing.ThreeDeliveries | cmd/worker/main.go:90 | with MaxDeliveries set to 3 in every worker, over any run: at most two retries, none of an attempt numbered 3 or higher, and at least three attempts behind every failure |
| Timing.LateExpiriesCount | internal/database/judging.go:47-61 | from the limit on, every attempt but the last was displaced, so they are counted by the late expiries |
| Timing.TransientsAreFew | internal/judge/engine.go:236-239 | transient attempts carry different numbers below max, so there are fewer than max of them |
| Timing.LeaseExcludesOthers | internal/database/judging.go:36-46 | over any run in which no claim of its submission reads a clock that has reached the end of its lease, an attempt stays current unless its own worker ends it; claims of other submissions and the database clock are unrestricted |
| Timing.ClaimDisplacesIffPastLease | internal/database/judging.go:36-52 | a well-formed claim of a submission being judged displaces its attempt if and only if the claiming worker's own clock has reached the end of the lease |
| Timing.RetriesBackOff | internal/database/judging.go:36-43 | in every run, a claim that starts the attempt behind transient failure k reads, with the row locked, a time of its own clock at least RetryDelay(k) past that failure; if that clock is not ahead, the database clock is past it as well |
| Timing.RowsAreSpacedIffClaimsBeganInTime | internal/database/judging.go:47-61 | in every run, the stored start of each attempt keeps its distance to the stored end of the one before (the retry delay, or none behind an expired lease) if and only if every claim that started one began no earlier than the retry_after that it found |
| Timing.LeasedEventsAreExclusive | internal/database/judging.go:204-225 | until a publisher's lease ends, no batch of any publisher contains its event |
| Timing.BatchIsReserved | internal/database/judging.go:209-211 | a leased batch is reserved for the length of the lease |
| Timing.ReconciliationsAreSpaced | internal/database/judging.go:239-249 | a reconciliation that begins after another has inserted an event for a submission picks it again only more than five minutes later |
| Timing.PickedOnceQuiet | internal/database/judging.go:242-244 | a submission is picked if and only if it is QUEUED and past its delay, all of its events are published, and the newest is more than five minutes old |
| Timing.SecondPicksIffFirstIsPending | internal/database/judging.go:239-249 | from every state in which a submission needs an event, with nothing but d of time in between, a second statement picks it as well if and only if the first has not inserted its event by then |
| Timing.OverlappingReconciliationsDuplicate | internal/database/judging.go:240-244 | from every such state there is a run of two overlapping statements that gives the submission two events d apart, for every d |
| Scenarios.ClockAheadDisplacesLiveLease | internal/database/judging.go:36-52 | a reachable state and a claim with a clock ahead of the database's that displaces an attempt whose lease is still running |
| Scenarios.WaitingClaimIsStoredTooEarly | internal/database/judging.go:36-61 | a reachable state and a claim that waited for its row: its attempt is stored with a start before the end of the retry delay, with no clock to blame |
| Scenarios.StaleCallIsNullScan | internal/database/judging.go:79-86 | a reachable state in which a displaced worker's Transition, Retry and Fail all fail with a scan error |
| Scenarios.ExpiriesPassAnyLimit | internal/database/judging.go:47-61 | for every limit and every n, a run in which n leases of one submission expire, so that it has n + 1 attempts |
| Scenarios.LostReplyMarksOneMore | internal/outbox/publisher.go:54-57 | a run of one publishing call that has marked an event and counts none |
| Scenarios.OverlapIsReachable | internal/database/judging.go:240-244 | a reachable state from which two overlapping reconciliations give a submission two more events d apart, for every d |
| Recovery.EverySubmissionRecovers | internal/judge/engine.go:176-245 | from every reachable state there is a finite fault-free continuation by one new worker and one new publisher after which every submission is terminal and every failed one is in the dead stream; a submission that was open ends FINAL, with the verdict its program's behaviour deserves, if and only if the sandbox takes it all the way (supported language and limits, and no oversized input among the tests that are reached) |
| Recovery.JudgeableMeans | internal/judge/docker.go:51-58 | the condition above in figures: a supported language, 1 to 65536 bytes of source, 100 to 10000 ms, 32 to 512 MB, and an input of at most 65536 bytes for each test behind solved ones, unless a compile signal is raised |
| Recovery.DeservedIsJudgeable | internal/judge/docker.go:50-58 | what was judged is what Open and Run do not refuse |
| Recovery.Recover | internal/outbox/publisher.go:36-60 | the backlog of unpublished events and unacknowledged messages can be worked off completely, by a decreasing measure over attempts left and backlog |
| Recovery.NothingLeftMeansSettled | cmd/worker/main.go:91-112 | once nothing is unpublished or unacknowledged, every submission is terminal and every exhausted one is in the dead stream |
| Recovery.HandleDelivery | internal/judge/engine.go:176-245 | handling one delivery without faults ends with less work left on submissions, or with as much and one message less |
| Recovery.Evaluate | internal/judge/engine.go:75-132 | from any stage of its evaluation, a worker without faults comes to rest, and the work left on submissions does not grow; it shrinks unless a retry is left |
| Recovery.Serve | internal/queue/redis.go:31-55 | when everything is overdue, the next message is received and handled, and the measure decreases |
| Recovery.Publish | internal/outbox/publisher.go:36-60 | a fault-free batch publishes and marks events, and the backlog decreases |
| Invariant.InvStep | internal/judge/engine.go:176-245 | one remote call of anyone, stale reconciliations and transactions that waited for their row included, keeps the invariant over rows, stream, workers, publishers, verdicts and carriers |
| Invariant.InvAlways | internal/judge/engine.go:176-245 | so does every run, with arbitrary interleaving, lost replies, crashes and clock readings |
| Invariant.ReachableIsInv | cmd/worker/main.go:91-112 | every reachable state satisfies the invariant |
| Invariant.DatabaseAdvances | internal/database/judging.go:16-249 | whatever happens, attempts only climb along lifecycle edges, finished rows stay, terminal submissions stay, and published events stay published |
| Invariant.ClaimDecidesSafely | internal/judge/engine.go:177-183 | a claim that finds a terminal row decides to acknowledge only what is FINAL and to dead-letter only what is exhausted |
| Invariant.EndsDecideSafely | internal/judge/engine.go:241-244 | a worker decides to acknowledge after Finish only if the row is FINAL, after Retry only if it is QUEUED with its new unpublished event, and to dead-letter after Fail only if it is FAILED_INTERNAL |
| Invariant.CarryPastPost | internal/outbox/publisher.go:51-56 | between publishing and marking, the new message already carries what the event carried |
| FenceProofs.ClaimKeepsFence | internal/database/judging.go:16-69 | a claim keeps the fence: QUEUED means no current attempt, a current attempt mirrors its row and carries the highest number, every other attempt is FAILED_INTERNAL |
| FenceProofs.ClaimRows | internal/database/judging.go:37-68 | a committed claim writes exactly the displaced attempt, the new attempt and the four fencing columns |
| FenceProofs.NumberIsFree | internal/database/judging.go:47-59 | the number of the next attempt is never taken |
| FenceProofs.TransitionKeepsFence | internal/database/judging.go:71-97 | a transition that commits follows a lifecycle edge on both rows; it keeps the fence if and only if its target is CLAIMED, COMPILING or RUNNING |
| FenceProofs.FinishKeepsFence | internal/database/judging.go:115-145 | Finish keeps the fence |
| FenceProofs.RetryKeepsFence | internal/database/judging.go:147-175 | Retry keeps the fence, provided that the attempt is still active |
| FenceProofs.FailKeepsFence | internal/database/judging.go:177-199 | Fail keeps the fence, provided that the attempt is still active |
| FenceProofs.RetryAdvancesIffActive | internal/database/judging.go:147-175 | a Retry that commits leaves final rows and lifecycle edges alone if and only if the attempt is still active: the code has no status guard |
| FenceProofs.FailAdvancesIffActive | internal/database/judging.go:177-199 | so does Fail, except that failing an exhausted attempt again within the same instant writes what is there |
| FenceProofs.LateWritesThaw | internal/database/judging.go:148-199 | a concrete database in which a late Retry takes an ACCEPTED submission back to the queue, and a late Fail fails it |
| FenceProofs.RenewFences | internal/database/judging.go:99-113 | Renew succeeds if and only if the attempt is current and active, and otherwise writes nothing |
| FenceProofs.RenewKeepsFence | internal/database/judging.go:99-113 | Renew keeps the fence |
| FenceProofs.RenewTouchesOneLease | internal/database/judging.go:104-105 | Renew changes nothing but the end of the lease of the submission that the attempt is current for |
| FenceProofs.CreateKeepsFence | internal/database/store.go:129-171 | creating a submission with its event keeps the fence |
| FenceProofs.ReconcileKeepsFence | internal/database/judging.go:239-249 | reconciliation keeps the fence, whatever has happened since its snapshot |
| Repository.Store.CreateSubmission | internal/database/store.go:129-171 | one transaction: validation, submission with snapshot, outbox event; all rows and the reply, for every fault; accepted if and only if the problem is published and lists the language, and the source has 1 to 65536 bytes |
| Repository.Store.Claim | internal/database/judging.go:15-69 | the complete new rows and reply of a claim, with all refusals in order; ErrBusy if and only if the row is open and its delay or lease lies past the worker's clock |
| Repository.Store.Transition | internal/database/judging.go:71-97 | both rows move together, behind the fence and the lifecycle graph |
| Repository.Store.Renew | internal/database/judging.go:99-113 | lease extension behind the fence; success only when one row was affected |
| Repository.Store.Finish | internal/database/judging.go:115-145 | attempt and submission become FINAL together with the result |
| Repository.Store.Retry | internal/database/judging.go:147-175 | attempt TRANSIENT, submission QUEUED with its delay, and a delayed event, in one transaction |
| Repository.Store.Fail | internal/database/judging.go:177-199 | attempt ATTEMPTS_EXHAUSTED and submission FAILED_INTERNAL in one transaction |
| Repository.Store.SelectReady | internal/database/judging.go:209-210 | the selected rows are an oldest-first choice of ready, unlocked events, as many as there are up to the limit |
| Repository.Store.ClaimOutbox | internal/database/judging.go:204-225 | leases exactly the selected rows and returns them in order |
| Repository.Store.MarkPublished | internal/database/judging.go:227-237 | marks an unpublished event once; anything else is refused |
| Repository.Store.SelectUncarried | internal/database/judging.go:242-244 | the SELECT of reconciliation picks exactly the queued, due submissions without an unpublished event and without one of the last five minutes |
| Repository.Store.InsertEvents | internal/database/judging.go:241-248 | its INSERT adds one event for each picked submission, also when the rows have changed since they were picked |
| Deployment.Cluster.Reconcile | internal/database/judging.go:239-249 | one statement in two instants: it picks from the rows as they are when it begins, everyone else goes on, and it inserts |
| Transport.Stream.Publish | internal/queue/redis.go:26-29 | appends one message, also when only the reply is lost |
| Transport.Stream.FirstIdle | internal/queue/redis.go:40 | finds the lowest pending message that has been idle for long enough, if there is one among the first ten pending ones |
| Transport.Stream.AutoClaim | internal/queue/redis.go:40-46 | hands that message to the caller, idle since now and with one delivery more |
| Queue.TakenIsFresh | internal/queue/redis.go:40-50 | a message that is taken belongs to the caller with one more delivery, is idle for a time only that much later, and no other message is touched |
| Queue.TenEntriesBlock | internal/queue/redis.go:40 | the first idle message is taken if and only if at most nine pending ones are in front of it |
| Transport.Stream.ReadGroup | internal/queue/redis.go:47-55 | hands out the next new message and makes it pending |
| Transport.Stream.Describe | internal/queue/redis.go:57-68 | describes a message if and only if it is still pending |
| Transport.Stream.Ack | internal/queue/redis.go:70-73 | removes exactly one message from the pending list |
| Transport.Stream.DeadLetter | internal/queue/redis.go:75-82 | appends to the dead stream and acknowledges in one step |
| Judging.TallyIsDeserved | internal/judge/engine.go:106-131 | the running result of the test loop is, when the loop stops, the one that the runs deserve: first failing test, peaks over the runs |
| Judging.DeservedIsUnique | internal/judge/engine.go:75-132 | the observations determine the result |
| Judging.AcceptedIffAllPassed | internal/judge/engine.go:106-131 | a deserved result is ACCEPTED if and only if passed equals total, which is positive |
| Judging.VerdictMeans | internal/judge/engine.go:98-129 | what a deserved verdict says of the program, in terms of signals and tokens alone, for all seven verdicts; passed counts the runs in front of the failing one, and time and memory are peaks |
| Judging.RunVerdictSignals | internal/judge/engine.go:114-125 | the verdict of a run is the first of its signals in the order memory, output, time, exit code, tokens |
| Judging.SeeingKeepsCoherence | internal/judge/engine.go:83-131 | at every stage of an evaluation the running result is the one that the observations so far determine |
| Judging.RetryDelayBounds | internal/judge/engine.go:247-254 | RetryDelay lies within 1 and 64 seconds, inside the range that Retry accepts, and grows with the attempt |
| Tokens.CompareIsCanonicalEquality | internal/judge/engine.go:60-72 | Compare(a, b) holds if and only if the single-space normal forms are equal |
| Tokens.FieldsOfJoin | internal/judge/engine.go:61-62 | splitting the single-space join of any tokens returns the tokens |
| Tokens.FieldsAcrossSpace | internal/judge/engine.go:61-62 | Fields distributes over concatenation across any whitespace character |
| Tokens.FieldsAreTokens | internal/judge/engine.go:61-62 | fields are not empty and free of whitespace |
| Tokens.SpaceIsWhiteSpace | internal/judge/engine.go:62 | the separators are the 25 characters with the Unicode property White_Space |
| Lifecycle.EdgesClimb | internal/submissions/state.go:4-17 | the lifecycle graph is acyclic, and its sinks are exactly the terminal statuses |
| Lifecycle.EdgesInto | internal/submissions/state.go:4-17 | where each status is entered from: the stages in order, COMPILING may be skipped, and every open stage may fail |
| Basics.Utf8LengthMeans | internal/database/store.go:132 | the length that bounds sources and inputs: a character takes the fewest bytes that hold its code, and a text has as many bytes as characters if and only if it is ASCII |
| Basics.Utf8LengthConcat | internal/database/store.go:132 | and it is additive |
| Engine.Worker.Evaluate | internal/judge/engine.go:74-132 | against arbitrary outcomes and failures: a returned result is the one of the protocol's stage Done and belongs to a job within the sandbox's limits, an error leaves the stage Broken; every created container has had a removal attempt since, on every path, no error means that none is left, and at most one exists at a time. With a result, the commands run were the compilation (256 MB, 15 seconds) and exactly the tests that the result speaks of, in order, each with its own input under the job's limits |
| Engine.Worker.CompileSource | internal/judge/engine.go:92-102 | transition, compile, and the verdict COMPILATION_ERROR for each of the four failure signals |
| Engine.Worker.RunProgram | internal/judge/engine.go:103-131 | the transition to RUNNING and the test loop, up to a result or an error |
| Engine.Worker.RunTests | internal/judge/engine.go:107-131 | the tests run in order up to the first failure, each once, with its own input and under the job's limits |
| Engine.Worker.RunTest | internal/judge/engine.go:108-129 | one more test is run, and the stage moves with it |
| Engine.Worker.Judged | internal/judge/engine.go:112-129 | one more passed test if and only if the run solves its test, else the verdict that it signals; time and memory are peaks |
| Engine.Worker.End | internal/judge/engine.go:87-91 | the deferred close: its failure turns a result into an error |
| Engine.Worker.Handle | internal/judge/engine.go:175-245 | against everyone else's interference: without an error the message is no longer pending, and the submission is FINAL, in the dead stream, or was put back: an attempt at it that this worker made during the call has ended TRANSIENT |
| Engine.Worker.Work | internal/judge/engine.go:214-244 | the evaluation and its end: without an error the submission is FINAL, or, from attempt number MaxDeliveries on (3 if that is below one), dead-lettered, and before that the attempt has ended TRANSIENT; the error of a renewal comes first, and a failure during shutdown is neither retried nor given up |
| Engine.Worker.Settle | internal/judge/engine.go:219-240 | without an error, the submission of a failed evaluation is in the dead stream if its attempt number has reached MaxDeliveries (3 if that is below one); otherwise the attempt has ended TRANSIENT |
| Engine.Worker.GiveUp | internal/judge/engine.go:227-235 | without an error, the message is gone and its dead-stream copy, for the reason attempts_exhausted, reports the larger of deliveries and attempts |
| Engine.Worker.PutBack | internal/judge/engine.go:236-239 | without an error, the message is gone and this attempt of this worker at this submission has ended TRANSIENT |
| Engine.Worker.Conclude | internal/judge/engine.go:241-244 | without an error, the message is gone and its submission is FINAL |
| Engine.Worker.Claim | internal/judge/engine.go:177-186 | the answer that the row calls for, by the claim on record, and where each answer leaves the worker |
| Engine.Worker.Receive | internal/queue/redis.go:31-55 | a reply is a delivery that this worker now owns, taken with the idle time asked for; it is a new message only if no idle one was within reach at some point of the call; an error leaves the worker at rest |
| Engine.Worker.Attend | cmd/worker/main.go:92-106 | one turn: a message is taken with the lease as idle time and handled, and a contended row is answered by ErrBusy |
| Engine.Worker.Run | cmd/worker/main.go:91-112 | the loop goes on after success, an empty stream, contention and stale attempts, and only then; any other error ends it, silently during shutdown. So a row that is contended, as the claim on record found it, never ends it with an error |
| Deployment.Cluster.Claim | internal/database/judging.go:15-69 | one call of the protocol; when it is answered, the answer is the one that the row calls for |
| Deployment.Cluster.ValidIsInv | cmd/worker/main.go:84-113 | whenever a worker or publisher is between two calls, the concrete objects satisfy the invariant of the protocol |
| Docker.CreateContainer | internal/judge/docker.go:78-136 | success yields one new container; on every failure behind the choice of its name, that new name gets a removal attempt |
| Docker.Open | internal/judge/docker.go:50-76 | Invalid if and only if the image, language, source, time limit or memory is out of bounds; a sandbox runs under the job's limits; a failed upload removes the container |
| Docker.Sandbox.Compile | internal/judge/docker.go:169-203 | one command under 256 MB and 15 seconds; after a successful compilation the compile container is gone |
| Docker.Sandbox.Run | internal/judge/docker.go:205-227 | every run has its own container, memory, time limit and input; a reply means that the container is removed, an error that its removal was attempted; Invalid if and only if input or memory is out of bounds |
| Docker.Sandbox.Close | internal/judge/docker.go:297-307 | an unfinished compile container gets a removal attempt; success means that nothing is left |
| Outbox.Publisher.PublishBatch | internal/outbox/publisher.go:35-60 | against interference: the first published events of the batch are marked and their submissions have messages, on success and on failure; without an error that is the whole leased batch. The call has marked exactly these events, in order, if and only if its last mark did not take effect with its reply lost; otherwise exactly one more |
| Outbox.Publisher.Lease | internal/outbox/publisher.go:37-48 | 30 seconds and 50 rows unless configured otherwise, and the leased batch in order |
| Outbox.Publisher.PublishOne | internal/outbox/publisher.go:50-58 | one event is published and marked, or the call ends; the report of marks follows |
| Outbox.MarkNoted | internal/outbox/publisher.go:54-57 | what one mark adds to the report of marks, for every outcome |
| Outbox.MarkedIsDone | internal/outbox/publisher.go:54-57 | an event that its publisher marked has a message |
| Outbox.DoneStaysOverRun | internal/outbox/publisher.go:54-57 | nothing that anyone does takes that back |
| Output.OutputBudget.Write | internal/judge/output.go:32-47 | after any sequence of writes through both adapters: what is kept is the stdout part of the first limit bytes, exceeded if and only if there were more bytes, cancelled at most once and only then, every write fully consumed |
| Output.BudgetTakes | internal/judge/output.go:37-41 | what one write adds to the stdout part of the first limit bytes |
| Output.LaunchClock.Write | internal/judge/docker.go:346-370 | the marker is consumed wherever the chunks end, the start is set once by the chunk that completes it, and only what is behind it is forwarded |
| Output.ChargeStripsMarker | internal/judge/docker.go:351-369 | of any interleaved output, all of stdout is charged, and stderr without its marker if it starts with one, else none of it |
| Output.ChargeOfChunk | internal/judge/docker.go:346-370 | forwarding a chunk's part behind the marker charges what the bytes charge one by one |
| Output.Drain | internal/judge/docker.go:346-370 | after all chunks of both streams, in any order and of any size, what is kept, exceeded and started is a function of the interleaved bytes alone; the start is the time of the chunk with the marker's last byte, and the deadline counts from it |
| Output.StartIsCompletion | internal/judge/docker.go:351-363 | there is a start if and only if stderr begins with the marker, and it is the time of the one chunk that completes it |
| Output.MarkerText | internal/judge/docker.go:346-352 | the marker is the line JUDGE_STARTED |
| EventStream.RoundTripIffExact | internal/api/api.go:215-219 | for any string: its frame is read back as that one string if and only if it is not empty, starts with no blank, has no newline and does not end in a carriage return |
| EventStream.FramesRoundTrip | web/app/page.jsx:64-81 | for any sequence of such payloads and any chunks, the reader yields exactly the payloads |
| EventStream.ChangesArrive | internal/api/api.go:204-235 | from polls to updates, over any chunks: what has arrived yields a prefix of the changes, a whole response yields all of them, and one that reached a terminal status ends with it |
| EventStream.ChangesShowTheLatest | internal/api/api.go:204-228 | the last frame shows the latest poll, and no frame repeats the one before it |
| EventStream.Serve | internal/api/api.go:204-235 | the response body is the frames of the changed payloads up to a terminal status or failure; the failure code shows only if no frame was sent |
| EventStream.Follow | web/app/page.jsx:64-90 | the updates are a function of the received text; of the joined text if no chunk boundary cuts a carriage return from its newline |
| EventStream.ReadingResumes | web/app/page.jsx:71-81 | after any prefix, the unfinished block is all that has to be remembered |
| EventStream.NormalisedConcat | web/app/page.jsx:68-70 | replacing line ends distributes over a cut unless it splits a pair; then the result has one character more |
| EventStream.ChunkwiseNormalisation | web/app/page.jsx:68-70 | replacing line ends chunk by chunk equals replacing them in the text if and only if no boundary splits a pair |
| EventStream.FrameDataIsExact | web/app/page.jsx:75-80 | the data of a frame is never longer than its payload, and as long only if it is the payload |
| EventStream.FrameIsRead | web/app/page.jsx:71-81 | a frame with a one-line payload is one block, and its data is the payload without leading blanks |
| EventStream.FrameText | internal/api/api.go:219 | the text of a frame |
| EventStream.DataByLine | web/app/page.jsx:75-79 | the values of a block's data lines are joined with newlines, and other lines are skipped |
| EventStream.ValueMeans | web/app/page.jsx:77-78 | a line carries a value if and only if it begins with data:, the rest of it without leading blanks |
| EventStream.TrimStartMeans | web/app/page.jsx:78 | only blanks are trimmed, and only at the beginning |
| EventStream.BlankIsWhiteSpace | web/app/page.jsx:78 | the blanks are White_Space without NEL and with the byte order mark |
| RateLimit.Limiter.Allow | internal/queue/redis.go:84-91 | the reply follows the shared counter; invalid arguments change nothing, and a lost reply is an error although the request counted |
| RateLimit.WindowCounts | internal/queue/redis.go:89 | a fixed window permits exactly min(n, limit) of its n requests |
| RateLimit.AnyIntervalIsBounded | internal/queue/redis.go:89-90 | any half-open interval as long as the window permits at most 2 * limit - 1 requests, over every trace |
| RateLimit.BoundIsReached | internal/queue/redis.go:89-90 | and for every limit there is a trace that reaches this bound |

## Left out

- Timing.LeaseExcludesOthers: the worker's own retry, failure or result may end the attempt before the lease does; only displacement by others is excluded.
- Recovery.EverySubmissionRecovers: the continuation is one in which docker works and an image is configured for the language.
- Recovery.Serve: relies on the pending list being overdue as a whole; a scan that is blocked by ten entries that are not idle is not followed further.
- Engine.Worker.Run: the original loop is endless; the model runs it for any number of turns. That it never stops by itself is not stated.
- Engine.Worker.Handle: the heartbeat is not a thread of its own. Renewals by anyone at any time are among the actions of `Interfere`, and the heartbeat may report any error, or none, whatever happened.
- Transport.Stream.AutoClaim: ten entries per call are what Redis documents for COUNT 1; pending entries whose message was deleted are not modelled.
- Repository.Store.ClaimOutbox: the rows locked by other publishers (SKIP LOCKED) are an arbitrary set, and the statement takes effect at one instant.
- Repository.Store.CreateSubmission: the row of the user is not part of this model.
- Sources and inputs are valid UTF-8: their lengths are those of the encoding, and a text that is not valid is not modelled.
- RateLimit.Limiter.Allow: windows are whole milliseconds, and a counter expires exactly when its timeout has passed.
- EventStream.Follow: characters, not bytes; decoding, JSON and the history list of the page are not part of this model.
- EventStream.Serve: the statuses and payloads that the polls find are arbitrary; the 250 millisecond pause is not modelled, and an encoding failure is one of the failed polls.
- Docker.Sandbox.Compile: the compiler's command line and the check of its artifact are a command that works or fails.
- Docker.Open: whether an image name is well formed is an arbitrary flag, and archives, uploads and cgroup files are commands that work or fail.
- Output.LaunchClock.Write: the firing of the deadline is not modelled, only when it is set.
- Transactions that lock their rows and Lua scripts are atomic, and rows and streams are durable and never trimmed.
- Workers and publishers have unique names; one that is started again under its old name starts afresh.
- Generated identifiers are fresh numbers; row and JSON mapping is the identity.
- RunPool, health endpoints, shutdown and logging.
- HTTP routing, authentication, password hashing, tokens, administration of problems, validation of problems.
- Process execution, sandbox flags, image building, Kubernetes manifests.
