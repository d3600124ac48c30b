/**
 The whole system as a machine: database, stream, and any number of workers and publishers, each stopped between two
 remote calls. Every choice of scheduler, clock, network and sandbox is part of the action.
 */
module Protocol {
  import opened Basics
  import opened Lifecycle
  import opened Judging
  import opened Database
  import opened Queue

  /** Where a consumer of cmd/worker and its Worker.Handle call stand. */
  datatype Worker =
    | Idle
    | Fetched(message: MessageId)               // owns the pending entry, delivery count not read yet
    | Received(d: Delivery)                     // about to claim
    | Holding(d: Delivery, job: Job, limit: int, stage: Stage)
    | Acking(d: Delivery)                       // about to acknowledge
    | Burying(d: Delivery)                      // about to dead-letter

  /** Where a PublishBatch call stands. */
  datatype Publisher =
    | Resting
    | Posting(todo: seq<OutboxEvent>)                     // about to publish todo[0]
    | Marking(event: OutboxEvent, rest: seq<OutboxEvent>) // published, not marked

  /** clock is the database's, queueClock is Redis'; seen records what each attempt observed. */
  datatype State = State(
    clock: Time, queueClock: Time, db: Db, mq: Mq,
    workers: map<string, Worker>, publishers: map<string, Publisher>, seen: map<AttemptId, Evidence>)

  const EMPTY := State(0, 0, Db(map[], map[], map[], map[]), Mq([], 0, map[], []), map[], map[], map[])

  /**
   begun is when a transaction began: the rows that it writes carry this time. It takes effect at the clock of the
   action, once the row that it waited for is locked, and Reconcile's snapshot is as old as its beginning.
   */
  datatype Action =
    | Tick(d: nat, q: nat)
    | SaveProblem(problem: ProblemId, content: Problem)
    | Create(problem: ProblemId, language: string, source: string, begun: Time, s: SubmissionId, e: EventId,
        fault: Fault)
    | Reconcile(begun: Time, ids: map<SubmissionId, EventId>, fault: Fault)
    | LeaseBatch(p: string, limit: int, lease: Time, locked: set<EventId>, batch: seq<EventId>, fault: Fault)
    | Post(p: string, fault: Fault)
    | Mark(p: string, fault: Fault)
    | StopPublisher(p: string)
    | Fetch(w: string, minIdle: Time, pick: Option<MessageId>, fault: Fault)
    | Inspect(w: string, fault: Fault)
    | Claim(w: string, lease: Time, begun: Time, localNow: Time, maxDeliveries: int, attempt: AttemptId, fault: Fault)
    | Renew(attempt: AttemptId, lease: Time, begun: Time, fault: Fault)
    | Look(w: string, sight: Sight)
    | Enter(w: string, fault: Fault)
    | Finish(w: string, begun: Time, fault: Fault)
    | Retry(w: string, begun: Time, e: EventId, fault: Fault)
    | Fail(w: string, begun: Time, fault: Fault)
    | Ack(w: string, fault: Fault)
    | Bury(w: string, fault: Fault)
    | StopWorker(w: string)

  const REASON := "attempts_exhausted"

  function WorkerAt(st: State, w: string): Worker {
    if w in st.workers then st.workers[w] else Idle
  }

  function PublisherAt(st: State, p: string): Publisher {
    if p in st.publishers then st.publishers[p] else Resting
  }

  /** MaxDeliveries below one means three. */
  function Limit(maxDeliveries: int): int {
    if maxDeliveries < 1 then 3 else maxDeliveries
  }

  function EntryStatus(stage: Stage): Status {
    if stage == EnterCompile then Compiling else Running
  }

  function Entered(tests: seq<TestCase>, stage: Stage): Stage {
    if stage == EnterCompile then InCompile else InTests(Tally(tests, []))
  }

  // The transaction behind each database action.

  function ClaimCall(st: State, a: Action): Tx<Job>
    requires a.Claim? && WorkerAt(st, a.w).Received?
  {
    ClaimTx(st.db, WorkerAt(st, a.w).d.submission, a.w, a.lease, a.begun, a.localNow, a.attempt)
  }

  function EnterCall(st: State, w: string): Tx<()>
    requires WorkerAt(st, w).Holding?
  {
    TransitionTx(st.db, WorkerAt(st, w).job.attempt, EntryStatus(WorkerAt(st, w).stage))
  }

  function FinishCall(st: State, w: string, begun: Time): Tx<()>
    requires WorkerAt(st, w).Holding? && WorkerAt(st, w).stage.Done?
  {
    FinishTx(st.db, WorkerAt(st, w).job.attempt, WorkerAt(st, w).stage.r, begun)
  }

  function RetryCall(st: State, w: string, begun: Time, e: EventId): Tx<()>
    requires WorkerAt(st, w).Holding?
  {
    RetryTx(st.db, WorkerAt(st, w).job.attempt, RetryDelay(WorkerAt(st, w).job.number), begun, e)
  }

  function FailCall(st: State, w: string, begun: Time): Tx<()>
    requires WorkerAt(st, w).Holding?
  {
    FailTx(st.db, WorkerAt(st, w).job.attempt, begun)
  }

  ghost predicate Can(st: State, a: Action) {
    match a
    case Tick(_, _) => true
    case SaveProblem(_, _) => true
    case Create(_, _, _, begun, s, e, _) => begun <= st.clock && s !in st.db.submissions && e !in st.db.outbox
    case Reconcile(begun, ids, _) => begun <= st.clock && Insertable(st.db, ids)
    case LeaseBatch(p, limit, _, locked, batch, _) =>
      PublisherAt(st, p) == Resting && IsBatch(st.db, st.clock, limit, locked, batch)
    case Post(p, _) => PublisherAt(st, p).Posting? && PublisherAt(st, p).todo != []
    case Mark(p, _) => PublisherAt(st, p).Marking?
    case StopPublisher(_) => true
    case Fetch(w, minIdle, pick, _) =>
      WorkerAt(st, w) == Idle && w != "" && minIdle > 0 && CanTake(st.mq, pick, st.queueClock, minIdle)
    case Inspect(w, _) => WorkerAt(st, w).Fetched?
    case Claim(w, _, begun, _, _, attempt, _) =>
      begun <= st.clock && WorkerAt(st, w).Received? && attempt !in st.db.attempts
    case Renew(_, _, begun, _) => begun <= st.clock
    case Look(w, sight) =>
      && WorkerAt(st, w).Holding? && WorkerAt(st, w).job.attempt in st.seen
      && CanSee(WorkerAt(st, w).job.problem.tests, WorkerAt(st, w).stage, sight)
      && (WorkerAt(st, w).stage.InTests? ==> 0 <= WorkerAt(st, w).stage.r.passed < |WorkerAt(st, w).job.problem.tests|)
    case Enter(w, _) =>
      WorkerAt(st, w).Holding? && (WorkerAt(st, w).stage == EnterCompile || WorkerAt(st, w).stage == EnterRun)
    case Finish(w, begun, _) => begun <= st.clock && WorkerAt(st, w).Holding? && WorkerAt(st, w).stage.Done?
    case Retry(w, begun, e, _) =>
      && begun <= st.clock
      && WorkerAt(st, w).Holding? && WorkerAt(st, w).stage == Broken
      && WorkerAt(st, w).job.number < WorkerAt(st, w).limit && e !in st.db.outbox
    case Fail(w, begun, _) =>
      && begun <= st.clock
      && WorkerAt(st, w).Holding? && WorkerAt(st, w).stage == Broken
      && WorkerAt(st, w).job.number >= WorkerAt(st, w).limit
    case Ack(w, _) => WorkerAt(st, w).Acking?
    case Bury(w, _) => WorkerAt(st, w).Burying?
    case StopWorker(_) => true
  }

  function Put(st: State, w: string, pc: Worker): State {
    st.(workers := st.workers[w := pc])
  }

  function PutPublisher(st: State, p: string, pc: Publisher): State {
    st.(publishers := st.publishers[p := pc])
  }

  function Proceed(todo: seq<OutboxEvent>): Publisher {
    if todo == [] then Resting else Posting(todo)
  }

  /** The delivery handed to DeadLetter reports at least as many deliveries as attempts. */
  function Counted(d: Delivery, job: Job): Delivery {
    d.(deliveries := Max(d.deliveries, job.number))
  }

  ghost function Next(st: State, a: Action): State
    requires Can(st, a)
  {
    match a
    case Tick(d, q) => st.(clock := st.clock + d, queueClock := st.queueClock + q)
    case SaveProblem(id, p) => st.(db := SaveProblemTx(st.db, id, p).db)
    case Create(id, language, source, begun, s, e, fault) =>
      st.(db := Stored(st.db, CreateTx(st.db, id, language, source, begun, s, e), fault))
    case Reconcile(begun, ids, fault) => st.(db := Stored(st.db, ReconcileTx(st.db, begun, ids), fault))
    case LeaseBatch(p, limit, lease, locked, batch, fault) =>
      var tx := ClaimOutboxTx(st.db, p, limit, lease, st.clock, batch);
      var reply := Reported(tx, fault);
      PutPublisher(st.(db := Stored(st.db, tx, fault)), p, if reply.Ok? then Proceed(reply.value) else Resting)
    case Post(p, fault) =>
      var todo := PublisherAt(st, p).todo;
      PutPublisher(st.(mq := if fault == Refused then st.mq else Published(st.mq, todo[0].submission)), p,
                   if fault == Clean then Marking(todo[0], todo[1..]) else Resting)
    case Mark(p, fault) =>
      var pc := PublisherAt(st, p);
      var tx := MarkPublishedTx(st.db, pc.event.id, st.clock);
      PutPublisher(st.(db := Stored(st.db, tx, fault)), p,
                   if Reported(tx, fault).Ok? then Proceed(pc.rest) else Resting)
    case StopPublisher(p) => PutPublisher(st, p, Resting)
    case Fetch(w, _, pick, fault) =>
      Put(st.(mq := if fault == Refused then st.mq else Taken(st.mq, pick, w, st.queueClock)), w,
          if fault == Clean then Fetched(TakenMessage(st.mq, pick)) else Idle)
    case Inspect(w, fault) =>
      var m := WorkerAt(st, w).message;
      Put(st, w, if fault == Clean && m in st.mq.pending && m < |st.mq.log|
                 then Received(Delivery(m, st.mq.log[m], st.mq.pending[m].count)) else Idle)
    case Claim(w, _, _, _, maxDeliveries, attempt, fault) =>
      var d, tx := WorkerAt(st, w).d, ClaimCall(st, a);
      var reply := Reported(tx, fault);
      Put(st.(db := Stored(st.db, tx, fault), seen := st.seen[attempt := NO_EVIDENCE]), w,
          match reply
          case Ok(job) => Holding(d, job, Limit(maxDeliveries), Opening)
          case Err(error) =>
            if error.AlreadyTerminal? then (if error.deadLetter then Burying(d) else Acking(d)) else Idle)
    case Renew(attempt, lease, begun, fault) => st.(db := Stored(st.db, RenewTx(st.db, attempt, lease, begun), fault))
    case Look(w, sight) =>
      var pc := WorkerAt(st, w);
      Put(st.(seen := st.seen[pc.job.attempt := Note(st.seen[pc.job.attempt], sight)]), w,
          pc.(stage := See(pc.job.problem.tests, pc.stage, sight)))
    case Enter(w, fault) =>
      var pc, tx := WorkerAt(st, w), EnterCall(st, w);
      Put(st.(db := Stored(st.db, tx, fault)), w,
          pc.(stage := if Reported(tx, fault).Ok? then Entered(pc.job.problem.tests, pc.stage) else Broken))
    case Finish(w, begun, fault) =>
      var tx := FinishCall(st, w, begun);
      Put(st.(db := Stored(st.db, tx, fault)), w, if Reported(tx, fault).Ok? then Acking(WorkerAt(st, w).d) else Idle)
    case Retry(w, begun, e, fault) =>
      var tx := RetryCall(st, w, begun, e);
      Put(st.(db := Stored(st.db, tx, fault)), w, if Reported(tx, fault).Ok? then Acking(WorkerAt(st, w).d) else Idle)
    case Fail(w, begun, fault) =>
      var tx := FailCall(st, w, begun);
      Put(st.(db := Stored(st.db, tx, fault)), w,
          if Reported(tx, fault).Ok? then Burying(Counted(WorkerAt(st, w).d, WorkerAt(st, w).job)) else Idle)
    case Ack(w, fault) =>
      Put(st.(mq := if fault == Refused then st.mq else Acked(st.mq, WorkerAt(st, w).d.message)), w, Idle)
    case Bury(w, fault) =>
      Put(st.(mq := if fault == Refused then st.mq else Buried(st.mq, WorkerAt(st, w).d, REASON)), w, Idle)
    case StopWorker(w) => Put(st, w, Idle)
  }

  // Runs

  ghost predicate Runs(st: State, acts: seq<Action>)
    decreases |acts|
  {
    acts == [] || (Can(st, acts[0]) && Runs(Next(st, acts[0]), acts[1..]))
  }

  ghost function AfterAll(st: State, acts: seq<Action>): State
    requires Runs(st, acts)
    decreases |acts|
  {
    if acts == [] then st else AfterAll(Next(st, acts[0]), acts[1..])
  }

  lemma {:induction false} RunsConcat(st: State, xs: seq<Action>, ys: seq<Action>)
    requires Runs(st, xs) && Runs(AfterAll(st, xs), ys)
    ensures Runs(st, xs + ys) && AfterAll(st, xs + ys) == AfterAll(AfterAll(st, xs), ys)
    decreases |xs|
  {
    if xs == [] {
      assert xs + ys == ys;
    } else {
      RunsConcat(Next(st, xs[0]), xs[1..], ys);
      assert (xs + ys)[1..] == xs[1..] + ys;
    }
  }

  lemma {:induction false} ClockGrows(st: State, acts: seq<Action>)
    requires Runs(st, acts)
    ensures st.clock <= AfterAll(st, acts).clock
    decreases |acts|
  {
    if acts != [] {
      ClockGrows(Next(st, acts[0]), acts[1..]);
    }
  }

  ghost predicate Unfold(st: State, acts: seq<Action>, b: bool) { true }

  /**
   acts leads from st to st'. The definition is folded into a quantifier, so that proofs that only pass runs around do
   not take them apart; mentioning Unfold, as RunOpens does, gives the run itself.
   */
  ghost predicate Run(st: State, acts: seq<Action>, st': State) {
    forall b {:trigger Unfold(st, acts, b)} :: Unfold(st, acts, b) ==> Runs(st, acts) && AfterAll(st, acts) == st'
  }

  lemma RunOpens(st: State, acts: seq<Action>, st': State)
    ensures Run(st, acts, st') <==> Runs(st, acts) && AfterAll(st, acts) == st'
  {
    assert Unfold(st, acts, true);
  }

  lemma RunOfNothing(st: State)
    ensures Run(st, [], st)
  {
    RunOpens(st, [], st);
  }

  lemma RunOfOne(st: State, a: Action)
    requires Can(st, a)
    ensures Run(st, [a], Next(st, a))
  {
    RunOfNothing(Next(st, a));
    RunOnward(st, a, [], Next(st, a));
    assert [a] + [] == [a];
  }

  /** A run is its first action and a run from there. */
  lemma RunOnward(st: State, a: Action, rest: seq<Action>, st': State)
    requires Can(st, a) && Run(Next(st, a), rest, st')
    ensures Run(st, [a] + rest, st')
  {
    RunOpens(Next(st, a), rest, st');
    assert ([a] + rest)[1..] == rest;
    RunOpens(st, [a] + rest, st');
  }

  lemma RunJoins(st: State, xs: seq<Action>, mid: State, ys: seq<Action>, st': State)
    requires Run(st, xs, mid) && Run(mid, ys, st')
    ensures Run(st, xs + ys, st')
  {
    RunOpens(st, xs, mid);
    RunOpens(mid, ys, st');
    RunsConcat(st, xs, ys);
    RunOpens(st, xs + ys, st');
  }

  ghost predicate Reachable(st: State) {
    exists acts :: Runs(EMPTY, acts) && AfterAll(EMPTY, acts) == st
  }
}
