/** What holds between any two remote calls, whatever crashed, was delayed or was delivered twice. */
module Invariant {
  import opened Basics
  import opened Lifecycle
  import opened Judging
  import opened Database
  import opened FenceProofs
  import opened Queue
  import opened Protocol

  // Each quantifier below is triggered by the predicate it states, so that a proof picks its instances.

  ghost predicate Appended(st: State, s: SubmissionId) {
    exists m :: 0 <= m < |st.mq.log| && st.mq.log[m] == s
  }

  ghost predicate DeadOk(st: State, k: nat)
    requires k < |st.mq.dead|
  {
    var s := st.mq.dead[k].submission;
    s in st.db.submissions && st.db.submissions[s].status == FailedInternal
  }

  ghost predicate LogOk(st: State, m: nat)
    requires m < |st.mq.log|
  {
    st.mq.log[m] in st.db.submissions
  }

  ghost predicate QueueOk(st: State) {
    && WellFormed(st.mq)
    && (forall m {:trigger LogOk(st, m)} :: 0 <= m < |st.mq.log| ==> LogOk(st, m))
    && (forall k {:trigger DeadOk(st, k)} :: 0 <= k < |st.mq.dead| ==> DeadOk(st, k))
  }

  ghost predicate DeliveryOk(st: State, d: Delivery) {
    d.message < st.mq.delivered <= |st.mq.log| && st.mq.log[d.message] == d.submission &&
        d.submission in st.db.submissions
  }

  /** The database status of an attempt at each stage of its evaluation. */
  ghost predicate StageStatus(stage: Stage, status: Status) {
    match stage
    case Opening => status == Claimed
    case EnterCompile => status == Claimed
    case InCompile => status == Compiling
    case EnterRun => status == Compiling
    case InTests(_) => status == Running
    case Closing(r) => MayFinish(status, r)
    case Done(r) => MayFinish(status, r)
    case Broken => Active(status)
  }

  /** A job is made of what was submitted. */
  predicate JobIsRow(job: Job, row: Submission) {
    job.language == row.language && job.source == row.source && job.problem == row.problem
  }

  ghost predicate HoldOk(st: State, job: Job, stage: Stage) {
    && job.attempt in st.db.attempts
    && st.db.attempts[job.attempt].submission == job.submission
    && st.db.attempts[job.attempt].number == job.number
    && job.submission in st.db.submissions
    && JobIsRow(job, st.db.submissions[job.submission])
    && job.attempt in st.seen
    && Coherent(job.problem.tests, stage, st.seen[job.attempt])
    && (Current(st.db, job.attempt) ==> StageStatus(stage, st.db.attempts[job.attempt].status))
  }

  ghost predicate WorkerOk(st: State, w: string) {
    match WorkerAt(st, w)
    case Idle => true
    case Fetched(m) => m < st.mq.delivered
    case Received(d) => DeliveryOk(st, d)
    case Holding(d, job, _, stage) =>
      && DeliveryOk(st, d) && d.submission == job.submission && HoldOk(st, job, stage)
      && st.db.attempts[job.attempt].worker == w
    case Acking(d) => DeliveryOk(st, d)
    case Burying(d) => DeliveryOk(st, d) && st.db.submissions[d.submission].status == FailedInternal
  }

  /** Each attempt belongs to one Handle call. */
  ghost predicate OwnersDiffer(st: State, w: string, v: string) {
    w != v && WorkerAt(st, w).Holding? && WorkerAt(st, v).Holding? ==>
        WorkerAt(st, w).job.attempt != WorkerAt(st, v).job.attempt
  }

  ghost predicate RefOk(st: State, ref: OutboxEvent) {
    ref.id in st.db.outbox && st.db.outbox[ref.id].submission == ref.submission
  }

  ghost predicate PublisherOk(st: State, p: string) {
    match PublisherAt(st, p)
    case Resting => true
    case Posting(todo) => forall i :: 0 <= i < |todo| ==> RefOk(st, todo[i])
    case Marking(event, rest) =>
      RefOk(st, event) && Appended(st, event.submission) && forall i :: 0 <= i < |rest| ==> RefOk(st, rest[i])
  }

  /** An event is marked published only after a message for its submission was appended. */
  ghost predicate MarkedOk(st: State, e: EventId)
    requires e in st.db.outbox
  {
    st.db.outbox[e].publishedAt.Some? ==> Appended(st, st.db.outbox[e].submission)
  }

  /** The stored result is the one that the current attempt's observations deserve. */
  ghost predicate VerdictOk(st: State, s: SubmissionId)
    requires s in st.db.submissions
  {
    var row := st.db.submissions[s];
    row.status == Final ==>
      row.current.Some? && row.current.value in st.seen &&
          Deserved(row.problem.tests, st.seen[row.current.value], row.result)
  }

  // Carriers: what will bring a submission back to some worker.

  /** Unpublished, and no publisher stands between publishing it and marking it. */
  ghost predicate LiveEvent(st: State, e: EventId) {
    && e in st.db.outbox && st.db.outbox[e].publishedAt == None
    && forall p :: PublisherAt(st, p).Marking? ==> PublisherAt(st, p).event.id != e
  }

  /**
   Not acknowledged, and no worker has decided to acknowledge it; a strict one is not about to be dead-lettered either.
   */
  ghost predicate LiveMessage(st: State, m: MessageId, strict: bool) {
    && Unacked(st.mq, m)
    && (forall w :: WorkerAt(st, w).Acking? ==> WorkerAt(st, w).d.message != m)
    && (strict ==> forall w :: WorkerAt(st, w).Burying? ==> WorkerAt(st, w).d.message != m)
  }

  ghost predicate EventFor(st: State, e: EventId, s: SubmissionId) {
    LiveEvent(st, e) && st.db.outbox[e].submission == s
  }

  ghost predicate MessageFor(st: State, m: MessageId, s: SubmissionId, strict: bool) {
    LiveMessage(st, m, strict) && m < |st.mq.log| && st.mq.log[m] == s
  }

  ghost predicate Carried(st: State, s: SubmissionId, strict: bool) {
    (exists e :: EventFor(st, e, s)) || (exists m :: MessageFor(st, m, s, strict))
  }

  ghost predicate DeadEntryFor(st: State, s: SubmissionId) {
    exists k :: 0 <= k < |st.mq.dead| && st.mq.dead[k].submission == s
  }

  /** No accepted submission is lost, and no exhausted one vanishes. */
  ghost predicate CarryOk(st: State, s: SubmissionId)
    requires s in st.db.submissions
  {
    && (!Terminal(st.db.submissions[s].status) ==> Carried(st, s, true))
    && (st.db.submissions[s].status == FailedInternal ==> DeadEntryFor(st, s) || Carried(st, s, false))
  }

  ghost predicate Inv(st: State) {
    && Fence(st.db)
    && QueueOk(st)
    && (forall w {:trigger WorkerOk(st, w)} :: WorkerOk(st, w))
    && (forall w, v {:trigger OwnersDiffer(st, w, v)} :: OwnersDiffer(st, w, v))
    && (forall p {:trigger PublisherOk(st, p)} :: PublisherOk(st, p))
    && (forall e {:trigger MarkedOk(st, e)} :: e in st.db.outbox ==> MarkedOk(st, e))
    && (forall s {:trigger VerdictOk(st, s)} :: s in st.db.submissions ==> VerdictOk(st, s))
    && (forall s {:trigger CarryOk(st, s)} :: s in st.db.submissions ==> CarryOk(st, s))
  }

  // What an action leaves alone

  predicate WritesRows(a: Action) {
    a.Create? || a.Claim? || a.Renew? || a.Enter? || a.Finish? || a.Retry? || a.Fail?
  }

  predicate WritesOutbox(a: Action) {
    a.Create? || a.Reconcile? || a.LeaseBatch? || a.Mark? || a.Retry?
  }

  lemma RowsFrame(st: State, a: Action)
    requires Can(st, a) && !WritesRows(a)
    ensures Next(st, a).db.submissions == st.db.submissions && Next(st, a).db.attempts == st.db.attempts
  {
    if WritesOutbox(a) || a.SaveProblem? {
      TablesFrame(st, a);
    } else {
      DatabaseFrame(st, a);
    }
  }

  lemma TablesFrame(st: State, a: Action)
    requires Can(st, a) && !WritesRows(a) && (WritesOutbox(a) || a.SaveProblem?)
    ensures Next(st, a).db.submissions == st.db.submissions && Next(st, a).db.attempts == st.db.attempts
  {
    if a.LeaseBatch? {
      LeaseFrame(st, a);
    } else if a.Reconcile? {
      ReconcileFrame(st, a);
    }
  }

  lemma LeaseFrame(st: State, a: Action)
    requires Can(st, a) && a.LeaseBatch?
    ensures Next(st, a).db.submissions == st.db.submissions && Next(st, a).db.attempts == st.db.attempts
  {}

  lemma ReconcileFrame(st: State, a: Action)
    requires Can(st, a) && a.Reconcile?
    ensures Next(st, a).db.submissions == st.db.submissions && Next(st, a).db.attempts == st.db.attempts
  {}

  lemma DatabaseFrame(st: State, a: Action)
    requires Can(st, a) && !WritesRows(a) && !WritesOutbox(a) && !a.SaveProblem?
    ensures Next(st, a).db == st.db
  {}

  lemma OutboxFrame(st: State, a: Action)
    requires Can(st, a) && !WritesOutbox(a)
    ensures Next(st, a).db.outbox == st.db.outbox
  {}

  // 1. The database

  lemma HolderIsActive(st: State, w: string)
    requires Inv(st) && WorkerAt(st, w).Holding? && Fenced(st.db, WorkerAt(st, w).job.attempt).Ok?
    ensures StageStatus(WorkerAt(st, w).stage, st.db.attempts[WorkerAt(st, w).job.attempt].status)
    ensures Active(st.db.attempts[WorkerAt(st, w).job.attempt].status)
  {
    assert WorkerOk(st, w);
  }

  lemma ClaimAdvances(st: State, a: Action)
    requires Inv(st) && Can(st, a) && a.Claim? && Next(st, a).db != st.db
    ensures Fence(Next(st, a).db) && Advance(st.db, Next(st, a).db)
  {
    var pc := WorkerAt(st, a.w);
    ClaimKeepsFence(st.db, pc.d.submission, a.w, a.lease, a.begun, a.localNow, a.attempt);
  }

  lemma EnterAdvances(st: State, a: Action)
    requires Inv(st) && Can(st, a) && a.Enter? && Next(st, a).db != st.db
    ensures Fence(Next(st, a).db) && Advance(st.db, Next(st, a).db)
  {
    var pc := WorkerAt(st, a.w);
    TransitionKeepsFence(st.db, pc.job.attempt, EntryStatus(pc.stage));
  }

  lemma FinishAdvances(st: State, a: Action)
    requires Inv(st) && Can(st, a) && a.Finish? && Next(st, a).db != st.db
    ensures Fence(Next(st, a).db) && Advance(st.db, Next(st, a).db)
  {
    var pc := WorkerAt(st, a.w);
    FinishKeepsFence(st.db, pc.job.attempt, pc.stage.r, a.begun);
  }

  lemma RetryAdvances(st: State, a: Action)
    requires Inv(st) && Can(st, a) && a.Retry? && Next(st, a).db != st.db
    ensures Fence(Next(st, a).db) && Advance(st.db, Next(st, a).db)
  {
    var pc := WorkerAt(st, a.w);
    HolderIsActive(st, a.w);
    RetryKeepsFence(st.db, pc.job.attempt, RetryDelay(pc.job.number), a.begun, a.e);
  }

  lemma FailAdvances(st: State, a: Action)
    requires Inv(st) && Can(st, a) && a.Fail? && Next(st, a).db != st.db
    ensures Fence(Next(st, a).db) && Advance(st.db, Next(st, a).db)
  {
    var pc := WorkerAt(st, a.w);
    HolderIsActive(st, a.w);
    FailKeepsFence(st.db, pc.job.attempt, a.begun);
  }

  lemma OthersAdvance(st: State, a: Action)
    requires Inv(st) && Can(st, a) && !a.Claim? && !a.Enter? && !a.Finish? && !a.Retry? && !a.Fail?
    requires Next(st, a).db != st.db
    ensures Fence(Next(st, a).db) && Advance(st.db, Next(st, a).db)
  {
    var db, db' := st.db, Next(st, a).db;
    match a
    case SaveProblem(_, _) =>
      ProblemChangeKeepsFence(db, db');
    case Create(id, language, source, begun, s, e, _) =>
      CreateKeepsFence(db, id, language, source, begun, s, e);
    case Reconcile(begun, ids, _) =>
      ReconcileKeepsFence(db, begun, ids);
    case LeaseBatch(_, _, _, _, _, _) =>
      OutboxUpdateKeepsFence(db, db');
    case Mark(_, _) =>
      OutboxUpdateKeepsFence(db, db');
    case Renew(attempt, lease, begun, _) =>
      RenewKeepsFence(db, attempt, lease, begun);
    case _ =>
      DatabaseFrame(st, a);
  }

  lemma DatabaseAdvances(st: State, a: Action)
    requires Inv(st) && Can(st, a)
    ensures Fence(Next(st, a).db) && Advance(st.db, Next(st, a).db)
  {
    if Next(st, a).db != st.db {
      if a.Claim? {
        ClaimAdvances(st, a);
      } else if a.Enter? {
        EnterAdvances(st, a);
      } else if a.Finish? {
        FinishAdvances(st, a);
      } else if a.Retry? {
        RetryAdvances(st, a);
      } else if a.Fail? {
        FailAdvances(st, a);
      } else {
        OthersAdvance(st, a);
      }
    }
  }

  // 2. The queue

  ghost predicate QueueAdvance(mq: Mq, mq': Mq) {
    && |mq.log| <= |mq'.log| && mq.delivered <= mq'.delivered
    && (forall m :: 0 <= m < |mq.log| ==> mq'.log[m] == mq.log[m])
  }

  lemma QueueFrame(st: State, a: Action)
    requires Can(st, a) && !a.Post? && !a.Fetch? && !a.Ack? && !a.Bury?
    ensures Next(st, a).mq == st.mq
  {}

  lemma QueueAdvances(st: State, a: Action)
    requires Inv(st) && Can(st, a)
    ensures QueueAdvance(st.mq, Next(st, a).mq) && WellFormed(Next(st, a).mq)
  {
    if !a.Post? && !a.Fetch? && !a.Ack? && !a.Bury? {
      QueueFrame(st, a);
    }
  }

  lemma NewLogEntryOk(st: State, a: Action, m: nat)
    requires Inv(st) && Can(st, a) && |st.mq.log| <= m < |Next(st, a).mq.log|
    ensures Next(st, a).mq.log[m] in st.db.submissions
  {
    assert PublisherOk(st, a.p);
    var ref := PublisherAt(st, a.p).todo[0];
    assert RefOk(st, ref) && EventOk(st.db, ref.id);
  }

  lemma DeadEntriesOk(st: State, a: Action, k: nat)
    requires Inv(st) && Can(st, a) && k < |Next(st, a).mq.dead|
    ensures var s := Next(st, a).mq.dead[k].submission;
      s in st.db.submissions && st.db.submissions[s].status == FailedInternal
  {
    if k < |st.mq.dead| {
      assert DeadOk(st, k);
    } else {
      assert WorkerOk(st, a.w);
    }
  }

  lemma QueueStaysOk(st: State, a: Action)
    requires Inv(st) && Can(st, a)
    ensures QueueOk(Next(st, a))
  {
    var st' := Next(st, a);
    QueueAdvances(st, a);
    DatabaseAdvances(st, a);
    forall m | 0 <= m < |st'.mq.log| ensures LogOk(st', m) {
      if m < |st.mq.log| {
        assert LogOk(st, m);
      } else {
        NewLogEntryOk(st, a, m);
      }
    }
    forall k | 0 <= k < |st'.mq.dead| ensures DeadOk(st', k) {
      DeadEntriesOk(st, a, k);
    }
  }

  // 3. Workers that do not act

  ghost predicate Untouched(st: State, st': State, att: AttemptId)
    requires att in st.db.attempts && att in st.seen
  {
    && att in st'.seen && st'.seen[att] == st.seen[att]
    && att in st'.db.attempts
    && (Current(st'.db, att) ==> Current(st.db, att) && st'.db.attempts[att].status == st.db.attempts[att].status)
  }

  predicate ActsOn(st: State, a: Action, att: AttemptId) {
    (a.Look? || a.Enter? || a.Finish? || a.Retry? || a.Fail?)
    && WorkerAt(st, a.w).Holding? && WorkerAt(st, a.w).job.attempt == att
  }

  lemma RowWriteTouchesOne(db: Db, db': Db, b: AttemptId, att: AttemptId)
    requires Fence(db) && Fenced(db, b).Ok? && att in db.attempts && att != b
    requires b in db'.attempts && db'.attempts == db.attempts[b := db'.attempts[b]]
    requires var i := db.attempts[b].submission;
             i in db'.submissions && db'.submissions == db.submissions[i := db'.submissions[i]]
             && (db'.submissions[i].current == Some(b) || db'.submissions[i].current == None)
    ensures att in db'.attempts && db'.attempts[att] == db.attempts[att]
    ensures Current(db', att) ==> Current(db, att)
    ensures Current(db, att) ==>
              db.attempts[att].submission in db'.submissions
              && db'.submissions[db.attempts[att].submission] == db.submissions[db.attempts[att].submission]
  {}

  lemma RowWritersLeaveOthers(st: State, a: Action, att: AttemptId)
    requires Inv(st) && Can(st, a) && (a.Enter? || a.Finish? || a.Retry? || a.Fail?)
    requires att in st.db.attempts && att in st.seen && !ActsOn(st, a, att)
    ensures Untouched(st, Next(st, a), att)
  {
    var db, db', b := st.db, Next(st, a).db, WorkerAt(st, a.w).job.attempt;
    if db' != db {
      RowWriteTouchesOne(db, db', b, att);
    }
  }

  lemma ClaimLeavesOthers(st: State, a: Action, att: AttemptId)
    requires Inv(st) && Can(st, a) && a.Claim?
    requires att in st.db.attempts && att in st.seen
    ensures Untouched(st, Next(st, a), att)
  {
    assert AttemptOk(st.db, att);
    if a.fault != Refused && ClaimCall(st, a).Commit? {
      assert SubmissionOk(st.db, WorkerAt(st, a.w).d.submission);
      ClaimRows(st.db, WorkerAt(st, a.w).d.submission, a.w, a.lease, a.begun, a.localNow, a.attempt);
    }
  }

  lemma RenewLeavesOthers(st: State, a: Action, att: AttemptId)
    requires Inv(st) && Can(st, a) && a.Renew?
    requires att in st.db.attempts && att in st.seen
    ensures Untouched(st, Next(st, a), att)
  {
    if a.fault != Refused && a.lease > 0 {
      RenewTouchesOneLease(st.db, a.attempt, a.lease, a.begun);
    }
  }

  lemma CreateLeavesOthers(st: State, a: Action, att: AttemptId)
    requires Inv(st) && Can(st, a) && a.Create?
    requires att in st.db.attempts && att in st.seen
    ensures Untouched(st, Next(st, a), att)
  {
    assert AttemptOk(st.db, att);
  }

  lemma SeenFrame(st: State, a: Action, att: AttemptId)
    requires Can(st, a) && !a.Claim? && att in st.seen && !ActsOn(st, a, att)
    ensures att in Next(st, a).seen && Next(st, a).seen[att] == st.seen[att]
  {}

  lemma RestLeavesAttempts(st: State, a: Action, att: AttemptId)
    requires Inv(st) && Can(st, a) && !a.Claim? && !a.Enter? && !a.Finish? && !a.Retry? && !a.Fail?
    requires att in st.db.attempts && att in st.seen && !ActsOn(st, a, att)
    ensures Untouched(st, Next(st, a), att)
  {
    if a.Renew? {
      RenewLeavesOthers(st, a, att);
    } else if a.Create? {
      CreateLeavesOthers(st, a, att);
    } else {
      RowsFrame(st, a);
      SeenFrame(st, a, att);
    }
  }

  lemma OthersUntouched(st: State, a: Action, att: AttemptId)
    requires Inv(st) && Can(st, a)
    requires att in st.db.attempts && att in st.seen && !ActsOn(st, a, att)
    ensures Untouched(st, Next(st, a), att)
  {
    if a.Claim? {
      ClaimLeavesOthers(st, a, att);
    } else if a.Enter? || a.Finish? || a.Retry? || a.Fail? {
      RowWritersLeaveOthers(st, a, att);
    } else {
      RestLeavesAttempts(st, a, att);
    }
  }

  lemma BystanderOk(st: State, st': State, v: string)
    requires WorkerOk(st, v) && WorkerAt(st', v) == WorkerAt(st, v)
    requires Advance(st.db, st'.db) && QueueAdvance(st.mq, st'.mq) && WellFormed(st'.mq)
    requires WorkerAt(st, v).Holding? ==> Untouched(st, st', WorkerAt(st, v).job.attempt)
    ensures WorkerOk(st', v)
  {}

  // 4. The worker that acts

  lemma WinnerOk(st: State, a: Action)
    requires Inv(st) && Can(st, a) && a.Claim? && a.fault == Clean && ClaimCall(st, a).Commit?
    ensures WorkerOk(Next(st, a), a.w)
  {
    var d := WorkerAt(st, a.w).d;
    assert WorkerOk(st, a.w);
    ClaimRows(st.db, d.submission, a.w, a.lease, a.begun, a.localNow, a.attempt);
  }

  lemma LoserOk(st: State, a: Action)
    requires Inv(st) && Can(st, a) && a.Claim? && !(a.fault == Clean && ClaimCall(st, a).Commit?)
    ensures WorkerOk(Next(st, a), a.w)
  {
    var d := WorkerAt(st, a.w).d;
    assert WorkerOk(st, a.w);
    if WorkerAt(Next(st, a), a.w).Burying? {
      assert SubmissionOk(st.db, d.submission);
      assert AttemptOk(st.db, st.db.submissions[d.submission].current.value);
    } else if WorkerAt(Next(st, a), a.w) == Idle {
    } else {
      assert Next(st, a).db == st.db;
    }
  }

  lemma EntererOk(st: State, a: Action)
    requires Inv(st) && Can(st, a) && a.Enter?
    ensures WorkerOk(Next(st, a), a.w)
  {
    var st', pc := Next(st, a), WorkerAt(st, a.w);
    assert WorkerOk(st, a.w);
    DatabaseAdvances(st, a);
    if pc.stage == EnterRun {
      LoopStarts(pc.job.problem.tests, st.seen[pc.job.attempt]);
    }
  }

  lemma LookerOk(st: State, a: Action)
    requires Inv(st) && Can(st, a) && a.Look?
    ensures WorkerOk(Next(st, a), a.w)
  {
    var pc := WorkerAt(st, a.w);
    assert WorkerOk(st, a.w);
    SeeingKeepsCoherence(pc.job.problem.tests, pc.stage, st.seen[pc.job.attempt], a.sight);
  }

  lemma ReceiverOk(st: State, a: Action)
    requires Inv(st) && Can(st, a) && (a.Fetch? || a.Inspect? || a.Ack? || a.Bury? || a.StopWorker?)
    ensures WorkerOk(Next(st, a), a.w)
  {
    assert WorkerOk(st, a.w);
    if a.Inspect? && a.fault == Clean && WorkerAt(st, a.w).message < |st.mq.log| {
      assert LogOk(st, WorkerAt(st, a.w).message);
    }
  }

  lemma EnderOk(st: State, a: Action)
    requires Inv(st) && Can(st, a) && (a.Finish? || a.Retry? || a.Fail?)
    ensures WorkerOk(Next(st, a), a.w)
  {
    assert WorkerOk(st, a.w);
  }

  predicate ByWorker(a: Action) {
    a.Fetch? || a.Inspect? || a.Claim? || a.Look? || a.Enter? || a.Finish? || a.Retry? || a.Fail?
    || a.Ack? || a.Bury? || a.StopWorker?
  }

  predicate ByPublisher(a: Action) {
    a.LeaseBatch? || a.Post? || a.Mark? || a.StopPublisher?
  }

  /** An action changes the program counter of at most one worker and one publisher. */
  lemma OneCounterMoves(st: State, a: Action)
    requires Can(st, a)
    ensures forall v :: !(ByWorker(a) && v == a.w) ==> WorkerAt(Next(st, a), v) == WorkerAt(st, v)
    ensures forall p :: !(ByPublisher(a) && p == a.p) ==> PublisherAt(Next(st, a), p) == PublisherAt(st, p)
  {}

  lemma BystandersStayOk(st: State, a: Action, v: string)
    requires Inv(st) && Can(st, a) && !(ByWorker(a) && v == a.w)
    ensures WorkerOk(Next(st, a), v)
  {
    assert WorkerOk(st, v);
    OneCounterMoves(st, a);
    QueueAdvances(st, a);
    DatabaseAdvances(st, a);
    if WorkerAt(st, v).Holding? {
      if ByWorker(a) {
        assert OwnersDiffer(st, a.w, v);
      }
      OthersUntouched(st, a, WorkerAt(st, v).job.attempt);
    }
    BystanderOk(st, Next(st, a), v);
  }

  lemma WorkersStayOk(st: State, a: Action, v: string)
    requires Inv(st) && Can(st, a)
    ensures WorkerOk(Next(st, a), v)
  {
    if !(ByWorker(a) && v == a.w) {
      BystandersStayOk(st, a, v);
    } else if a.Claim? {
      if a.fault == Clean && ClaimCall(st, a).Commit? {
        WinnerOk(st, a);
      } else {
        LoserOk(st, a);
      }
    } else if a.Enter? {
      EntererOk(st, a);
    } else if a.Look? {
      LookerOk(st, a);
    } else if a.Finish? || a.Retry? || a.Fail? {
      EnderOk(st, a);
    } else {
      ReceiverOk(st, a);
    }
  }

  /** A worker holds the attempt that it held before, or the one that it has just claimed. */
  lemma HolderWas(st: State, a: Action, w: string)
    requires Can(st, a) && WorkerAt(Next(st, a), w).Holding?
    ensures var attempt := WorkerAt(Next(st, a), w).job.attempt;
      || (WorkerAt(st, w).Holding? && WorkerAt(st, w).job.attempt == attempt)
      || (a.Claim? && a.w == w && attempt == a.attempt)
  {
    OneCounterMoves(st, a);
    if ByWorker(a) && a.w == w {
      ActorHolds(st, a);
    }
  }

  lemma ActorHolds(st: State, a: Action)
    requires Can(st, a) && ByWorker(a) && WorkerAt(Next(st, a), a.w).Holding?
    ensures var attempt := WorkerAt(Next(st, a), a.w).job.attempt;
      if a.Claim? then attempt == a.attempt else WorkerAt(st, a.w).Holding? && WorkerAt(st, a.w).job.attempt == attempt
  {}

  lemma OwnersStayDifferent(st: State, a: Action, w: string, v: string)
    requires Inv(st) && Can(st, a)
    ensures OwnersDiffer(Next(st, a), w, v)
  {
    assert OwnersDiffer(st, w, v);
    assert WorkerOk(st, w) && WorkerOk(st, v);
    if w != v && WorkerAt(Next(st, a), w).Holding? && WorkerAt(Next(st, a), v).Holding? {
      HolderWas(st, a, w);
      HolderWas(st, a, v);
    }
  }

  // 5. Publishers and published events

  lemma AppendedStays(st: State, st': State, s: SubmissionId)
    requires Appended(st, s) && QueueAdvance(st.mq, st'.mq)
    ensures Appended(st', s)
  {
    var m :| 0 <= m < |st.mq.log| && st.mq.log[m] == s;
    assert st'.mq.log[m] == s;
  }

  lemma BystandingPublisherOk(st: State, st': State, p: string)
    requires PublisherOk(st, p) && PublisherAt(st', p) == PublisherAt(st, p)
    requires Advance(st.db, st'.db) && QueueAdvance(st.mq, st'.mq)
    ensures PublisherOk(st', p)
  {
    if PublisherAt(st, p).Marking? {
      AppendedStays(st, st', PublisherAt(st, p).event.submission);
    }
  }

  lemma ActingPublisherOk(st: State, a: Action)
    requires Inv(st) && Can(st, a) && ByPublisher(a)
    ensures PublisherOk(Next(st, a), a.p)
  {
    assert PublisherOk(st, a.p);
    if a.Post? && a.fault == Clean {
      assert Next(st, a).mq.log[|st.mq.log|] == PublisherAt(st, a.p).todo[0].submission;
    }
  }

  lemma PublishersStayOk(st: State, a: Action, p: string)
    requires Inv(st) && Can(st, a)
    ensures PublisherOk(Next(st, a), p)
  {
    if ByPublisher(a) && a.p == p {
      ActingPublisherOk(st, a);
    } else {
      OneCounterMoves(st, a);
      QueueAdvances(st, a);
      DatabaseAdvances(st, a);
      assert PublisherOk(st, p);
      BystandingPublisherOk(st, Next(st, a), p);
    }
  }

  lemma OnlyMarkMarks(st: State, a: Action, e: EventId)
    requires Can(st, a) && e in Next(st, a).db.outbox && Next(st, a).db.outbox[e].publishedAt.Some?
    ensures e in st.db.outbox && Next(st, a).db.outbox[e].submission == st.db.outbox[e].submission
    ensures st.db.outbox[e].publishedAt.Some? || (a.Mark? && PublisherAt(st, a.p).event.id == e)
  {
    if !WritesOutbox(a) {
      OutboxFrame(st, a);
    }
  }

  lemma MarksStayOk(st: State, a: Action, e: EventId)
    requires Inv(st) && Can(st, a) && e in Next(st, a).db.outbox
    ensures MarkedOk(Next(st, a), e)
  {
    if Next(st, a).db.outbox[e].publishedAt.Some? {
      OnlyMarkMarks(st, a, e);
      QueueAdvances(st, a);
      if st.db.outbox[e].publishedAt.Some? {
        assert MarkedOk(st, e);
      } else {
        assert PublisherOk(st, a.p);
      }
      AppendedStays(st, Next(st, a), st.db.outbox[e].submission);
    }
  }

  // 6. Stored verdicts

  lemma OnlyFinishFinalizes(st: State, a: Action, s: SubmissionId)
    requires Can(st, a) && !a.Finish?
    requires s in Next(st, a).db.submissions && Next(st, a).db.submissions[s].status == Final
    ensures s in st.db.submissions && st.db.submissions[s].status == Final
  {
    if !WritesRows(a) {
      RowsFrame(st, a);
    }
  }

  lemma FinishIsDeserved(st: State, a: Action, s: SubmissionId)
    requires Inv(st) && Can(st, a) && a.Finish?
    requires s in st.db.submissions && st.db.submissions[s].status != Final
    ensures VerdictOk(Next(st, a), s)
  {
    assert WorkerOk(st, a.w);
  }

  lemma SettledVerdictOk(st: State, st': State, s: SubmissionId)
    requires s in st.db.submissions && st.db.submissions[s].status == Final
    requires SubmissionOk(st.db, s) && VerdictOk(st, s)
    requires Advance(st.db, st'.db) && Untouched(st, st', st.db.submissions[s].current.value)
    ensures VerdictOk(st', s)
  {}

  /** Nobody holds the attempt of a FINAL submission. */
  lemma NobodyHoldsFinal(st: State, w: string, s: SubmissionId)
    requires Inv(st) && s in st.db.submissions && st.db.submissions[s].status == Final
    requires st.db.submissions[s].current.Some? && WorkerAt(st, w).Holding?
    ensures WorkerAt(st, w).job.attempt != st.db.submissions[s].current.value
  {
    assert SubmissionOk(st.db, s);
    if WorkerAt(st, w).job.attempt == st.db.submissions[s].current.value {
      HolderIsActive(st, w);
    }
  }

  lemma FinalIsUntouched(st: State, a: Action, s: SubmissionId)
    requires Inv(st) && Can(st, a)
    requires s in st.db.submissions && st.db.submissions[s].status == Final
    ensures SubmissionOk(st.db, s) && VerdictOk(st, s)
    ensures st.db.submissions[s].current.Some? && Untouched(st, Next(st, a), st.db.submissions[s].current.value)
  {
    assert VerdictOk(st, s) && SubmissionOk(st.db, s);
    if ByWorker(a) && WorkerAt(st, a.w).Holding? {
      NobodyHoldsFinal(st, a.w, s);
    }
    OthersUntouched(st, a, st.db.submissions[s].current.value);
  }

  lemma FinalStaysDeserved(st: State, a: Action, s: SubmissionId)
    requires Inv(st) && Can(st, a)
    requires s in st.db.submissions && st.db.submissions[s].status == Final
    ensures s in Next(st, a).db.submissions && VerdictOk(Next(st, a), s)
  {
    FinalIsUntouched(st, a, s);
    DatabaseAdvances(st, a);
    SettledVerdictOk(st, Next(st, a), s);
  }

  lemma VerdictsStayOk(st: State, a: Action, s: SubmissionId)
    requires Inv(st) && Can(st, a) && s in Next(st, a).db.submissions
    ensures VerdictOk(Next(st, a), s)
  {
    if s in st.db.submissions && st.db.submissions[s].status == Final {
      FinalStaysDeserved(st, a, s);
    } else if a.Finish? {
      FinishIsDeserved(st, a, s);
    } else if Next(st, a).db.submissions[s].status == Final {
      OnlyFinishFinalizes(st, a, s);
    }
  }

  // 7. Carriers

  /** The one event that an action takes out of the live ones, if any. */
  ghost function LostEvent(st: State, a: Action): Option<EventId>
    requires Can(st, a)
  {
    if a.Post? && a.fault == Clean then Some(PublisherAt(st, a.p).todo[0].id) else None
  }

  /** The message whose acknowledgement an action decides on, or that it buries. */
  ghost function LostMessage(st: State, a: Action): Option<MessageId>
    requires Can(st, a)
  {
    if ByWorker(a) && WorkerAt(Next(st, a), a.w).Acking? then Some(WorkerAt(Next(st, a), a.w).d.message)
    else if a.Bury? && a.fault != Refused then Some(WorkerAt(st, a.w).d.message)
    else None
  }

  /** The message that an action decides to dead-letter. */
  ghost function CondemnedMessage(st: State, a: Action): Option<MessageId>
    requires Can(st, a)
  {
    if ByWorker(a) && WorkerAt(Next(st, a), a.w).Burying? then Some(WorkerAt(Next(st, a), a.w).d.message) else None
  }

  lemma UnpublishedStays(st: State, a: Action, e: EventId)
    requires Can(st, a) && e in st.db.outbox && st.db.outbox[e].publishedAt == None
    requires a.Mark? ==> PublisherAt(st, a.p).event.id != e
    ensures e in Next(st, a).db.outbox && Next(st, a).db.outbox[e].publishedAt == None
    ensures Next(st, a).db.outbox[e].submission == st.db.outbox[e].submission
  {
    if !WritesOutbox(a) {
      OutboxFrame(st, a);
    }
  }

  lemma EventStaysLive(st: State, a: Action, e: EventId)
    requires Can(st, a) && LiveEvent(st, e) && LostEvent(st, a) != Some(e)
    ensures LiveEvent(Next(st, a), e) && Next(st, a).db.outbox[e].submission == st.db.outbox[e].submission
  {
    UnpublishedStays(st, a, e);
    OneCounterMoves(st, a);
    forall p | PublisherAt(Next(st, a), p).Marking? ensures PublisherAt(Next(st, a), p).event.id != e {
      if ByPublisher(a) && p == a.p {
        OnlyPostMarks(st, a);
      }
    }
  }

  lemma OnlyPostMarks(st: State, a: Action)
    requires Can(st, a) && ByPublisher(a) && PublisherAt(Next(st, a), a.p).Marking?
    ensures LostEvent(st, a) == Some(PublisherAt(Next(st, a), a.p).event.id)
  {}

  lemma UnackedStays(st: State, a: Action, m: MessageId)
    requires Can(st, a) && WellFormed(st.mq) && Unacked(st.mq, m)
    requires a.Ack? || a.Bury? ==> a.fault == Refused || WorkerAt(st, a.w).d.message != m
    ensures Unacked(Next(st, a).mq, m)
  {}

  lemma MessageStaysLive(st: State, a: Action, m: MessageId, strict: bool)
    requires Can(st, a) && WellFormed(st.mq) && LiveMessage(st, m, strict)
    requires LostMessage(st, a) != Some(m) && (strict ==> CondemnedMessage(st, a) != Some(m))
    ensures LiveMessage(Next(st, a), m, strict)
  {
    OneCounterMoves(st, a);
    UnackedStays(st, a, m);
  }

  /** A submission stays carried unless the action gives up the very carrier. */
  lemma CarriedUnlessLost(st: State, a: Action, s: SubmissionId, strict: bool)
    requires Inv(st) && Can(st, a) && Carried(st, s, strict)
    requires LostEvent(st, a) == None
    requires forall m :: LostMessage(st, a) == Some(m) ==> m < |st.mq.log| && st.mq.log[m] != s
    requires strict ==> forall m :: CondemnedMessage(st, a) == Some(m) ==> m < |st.mq.log| && st.mq.log[m] != s
    ensures Carried(Next(st, a), s, strict)
  {
    if e :| EventFor(st, e, s) {
      EventStaysLive(st, a, e);
      assert EventFor(Next(st, a), e, s);
    } else {
      var m :| MessageFor(st, m, s, strict);
      MessageStaysLive(st, a, m, strict);
      QueueAdvances(st, a);
      assert MessageFor(Next(st, a), m, s, strict);
    }
  }

  /** Publishing hands over from the event to the message. */
  lemma CarriedAcrossPost(st: State, a: Action, s: SubmissionId, strict: bool)
    requires Inv(st) && Can(st, a) && a.Post? && a.fault == Clean && Carried(st, s, strict)
    ensures Carried(Next(st, a), s, strict)
  {
    var st', ref := Next(st, a), PublisherAt(st, a.p).todo[0];
    if e :| EventFor(st, e, s) {
      if e == ref.id {
        assert PublisherOk(st, a.p);
        NewMessageIsLive(st, a, strict);
        assert MessageFor(st', |st.mq.log|, s, strict);
      } else {
        EventStaysLive(st, a, e);
        assert EventFor(st', e, s);
      }
    } else {
      var m :| MessageFor(st, m, s, strict);
      MessageStaysLive(st, a, m, strict);
      assert MessageFor(st', m, s, strict);
    }
  }

  lemma NewMessageIsLive(st: State, a: Action, strict: bool)
    requires Inv(st) && Can(st, a) && a.Post? && a.fault == Clean
    ensures LiveMessage(Next(st, a), |st.mq.log|, strict)
  {
    var st' := Next(st, a);
    forall w
      ensures WorkerAt(st', w).Acking? || WorkerAt(st', w).Burying? ==> WorkerAt(st', w).d.message < |st.mq.log| {
      assert WorkerOk(st, w) && WorkerAt(st', w) == WorkerAt(st, w);
    }
  }

  /** Any carrier will do where a strict one is available. */
  lemma StrictCarriersCarry(st: State, s: SubmissionId)
    requires Carried(st, s, true)
    ensures Carried(st, s, false)
  {
    if m :| MessageFor(st, m, s, true) {
      assert MessageFor(st, m, s, false);
    }
  }

  lemma DeadEntryStays(st: State, st': State, s: SubmissionId)
    requires DeadEntryFor(st, s) && st.mq.dead <= st'.mq.dead
    ensures DeadEntryFor(st', s)
  {
    var k :| 0 <= k < |st.mq.dead| && st.mq.dead[k].submission == s;
    assert st'.mq.dead[k].submission == s;
  }

  lemma NewEventCarries(st: State, e: EventId, s: SubmissionId, strict: bool)
    requires e in st.db.outbox && st.db.outbox[e].publishedAt == None && st.db.outbox[e].submission == s
    requires forall p :: PublisherAt(st, p).Marking? ==> PublisherAt(st, p).event.id != e
    ensures Carried(st, s, strict)
  {
    assert EventFor(st, e, s);
  }

  lemma NobodyMarks(st: State, e: EventId)
    requires Inv(st) && e !in st.db.outbox
    ensures forall p :: PublisherAt(st, p).Marking? ==> PublisherAt(st, p).event.id != e
  {
    forall p | PublisherAt(st, p).Marking? ensures PublisherAt(st, p).event.id != e {
      assert PublisherOk(st, p);
    }
  }

  /** Actions that leave no worker about to acknowledge or to dead-letter anything. */
  lemma OthersDoNotDecide(st: State, a: Action)
    requires Can(st, a) && ByWorker(a) && !a.Claim? && !a.Finish? && !a.Retry? && !a.Fail?
    ensures !WorkerAt(Next(st, a), a.w).Acking? && !WorkerAt(Next(st, a), a.w).Burying?
  {}

  lemma DecidersKeepTheirMessage(st: State, a: Action)
    requires Can(st, a) && (a.Claim? || a.Finish? || a.Retry? || a.Fail?)
    requires WorkerAt(Next(st, a), a.w).Acking? || WorkerAt(Next(st, a), a.w).Burying?
    ensures WorkerAt(st, a.w).Received? || WorkerAt(st, a.w).Holding?
    ensures WorkerAt(Next(st, a), a.w).d.message == WorkerAt(st, a.w).d.message
    ensures WorkerAt(Next(st, a), a.w).Acking? ==> !a.Fail?
    ensures WorkerAt(Next(st, a), a.w).Burying? ==> a.Claim? || a.Fail?
  {}

  /** Where a worker stands when it decides to acknowledge, dead-letter or bury a message. */
  lemma WhoDecides(st: State, a: Action)
    requires Can(st, a)
    ensures LostMessage(st, a).Some? ==>
              && (a.Bury? || a.Claim? || a.Finish? || a.Retry?)
              && (WorkerAt(st, a.w).Received? || WorkerAt(st, a.w).Holding? || WorkerAt(st, a.w).Burying?)
              && LostMessage(st, a).value == WorkerAt(st, a.w).d.message
    ensures CondemnedMessage(st, a).Some? ==>
              && (a.Claim? || a.Fail?)
              && (WorkerAt(st, a.w).Received? || WorkerAt(st, a.w).Holding?)
              && CondemnedMessage(st, a).value == WorkerAt(st, a.w).d.message
  {
    if ByWorker(a) {
      if !a.Claim? && !a.Finish? && !a.Retry? && !a.Fail? {
        OthersDoNotDecide(st, a);
      } else if WorkerAt(Next(st, a), a.w).Acking? || WorkerAt(Next(st, a), a.w).Burying? {
        DecidersKeepTheirMessage(st, a);
      }
    }
  }

  lemma DecidersHoldDeliveries(st: State, a: Action)
    requires Inv(st) && Can(st, a) && ByWorker(a)
    requires WorkerAt(st, a.w).Received? || WorkerAt(st, a.w).Holding? || WorkerAt(st, a.w).Burying?
    ensures DeliveryOk(st, WorkerAt(st, a.w).d)
  {
    assert WorkerOk(st, a.w);
  }

  /** A claim gives the message up only for a FINAL submission, and condemns it only for a failed one. */
  lemma ClaimDecidesSafely(st: State, a: Action)
    requires Inv(st) && Can(st, a) && a.Claim?
    ensures var s, db' := WorkerAt(st, a.w).d.submission, Next(st, a).db;
            s in db'.submissions
            && (LostMessage(st, a).Some? ==> db'.submissions[s].status == Final)
            && (CondemnedMessage(st, a).Some? ==> db'.submissions[s].status == FailedInternal)
  {
    var s := WorkerAt(st, a.w).d.submission;
    assert WorkerOk(st, a.w) && SubmissionOk(st.db, s);
    if st.db.submissions[s].current.Some? {
      assert AttemptOk(st.db, st.db.submissions[s].current.value);
    }
  }

  /** A worker that is about to acknowledge after Finish has stored a FINAL submission. */
  lemma FinishedIsFinal(st: State, a: Action)
    requires Inv(st) && Can(st, a) && a.Finish? && WorkerAt(Next(st, a), a.w).Acking?
    ensures var s := WorkerAt(st, a.w).d.submission;
      s in Next(st, a).db.submissions && Next(st, a).db.submissions[s].status == Final
  {
    assert WorkerOk(st, a.w);
  }

  /** After Retry, it has put the submission back, with a new unpublished event, and its attempt has ended TRANSIENT. */
  lemma RetriedIsQueued(st: State, a: Action)
    requires Inv(st) && Can(st, a) && a.Retry? && WorkerAt(Next(st, a), a.w).Acking?
    ensures var pc, db' := WorkerAt(st, a.w), Next(st, a).db;
      && pc.d.submission in db'.submissions && db'.submissions[pc.d.submission].status == Queued
      && a.e in db'.outbox && db'.outbox[a.e].publishedAt == None && db'.outbox[a.e].submission == pc.d.submission
      && pc.job.attempt in db'.attempts && db'.attempts[pc.job.attempt].code == Some(Transient)
      && db'.attempts[pc.job.attempt].submission == pc.d.submission && db'.attempts[pc.job.attempt].worker == a.w
  {
    assert WorkerOk(st, a.w);
  }

  /** A worker that is about to dead-letter after Fail has failed the submission. */
  lemma FailedIsFailed(st: State, a: Action)
    requires Inv(st) && Can(st, a) && a.Fail? && WorkerAt(Next(st, a), a.w).Burying?
    ensures var s := WorkerAt(st, a.w).d.submission;
      s in Next(st, a).db.submissions && Next(st, a).db.submissions[s].status == FailedInternal
  {
    assert WorkerOk(st, a.w);
  }

  /** So do Finish, Retry and Fail; Retry leaves a new unpublished event behind. */
  lemma EndsDecideSafely(st: State, a: Action)
    requires Inv(st) && Can(st, a) && (a.Finish? || a.Retry? || a.Fail?)
    ensures var s, db' := WorkerAt(st, a.w).d.submission, Next(st, a).db;
            s in db'.submissions
            && (LostMessage(st, a).Some? && a.Finish? ==> db'.submissions[s].status == Final)
            && (LostMessage(st, a).Some? && a.Retry? ==>
                  db'.submissions[s].status == Queued && a.e in db'.outbox
                  && db'.outbox[a.e].publishedAt == None && db'.outbox[a.e].submission == s)
            && (CondemnedMessage(st, a).Some? ==> db'.submissions[s].status == FailedInternal)
  {
    DeliveredStays(st, a);
    if WorkerAt(Next(st, a), a.w).Acking? {
      if a.Finish? {
        FinishedIsFinal(st, a);
      } else if a.Retry? {
        RetriedIsQueued(st, a);
      }
    } else if WorkerAt(Next(st, a), a.w).Burying? {
      DecidersKeepTheirMessage(st, a);
      FailedIsFailed(st, a);
    }
  }

  lemma DeliveredStays(st: State, a: Action)
    requires Inv(st) && Can(st, a) && (a.Finish? || a.Retry? || a.Fail?)
    ensures WorkerAt(st, a.w).d.submission in Next(st, a).db.submissions
  {
    assert WorkerOk(st, a.w);
    DatabaseAdvances(st, a);
  }

  lemma RetriedIsCarried(st: State, a: Action, strict: bool)
    requires Inv(st) && Can(st, a) && a.Retry? && LostMessage(st, a).Some?
    ensures Carried(Next(st, a), WorkerAt(st, a.w).d.submission, strict)
  {
    EndsDecideSafely(st, a);
    NobodyMarks(st, a.e);
    OneCounterMoves(st, a);
    NewEventCarries(Next(st, a), a.e, WorkerAt(st, a.w).d.submission, strict);
  }

  lemma BuriedIsDead(st: State, a: Action)
    requires Can(st, a) && a.Bury? && a.fault != Refused
    ensures DeadEntryFor(Next(st, a), WorkerAt(st, a.w).d.submission)
  {
    assert Next(st, a).mq.dead[|st.mq.dead|].submission == WorkerAt(st, a.w).d.submission;
  }

  lemma NewSubmissionIsCarried(st: State, a: Action, s: SubmissionId, strict: bool)
    requires Inv(st) && Can(st, a) && s !in st.db.submissions && s in Next(st, a).db.submissions
    ensures Carried(Next(st, a), s, strict) && !Terminal(Next(st, a).db.submissions[s].status)
  {
    OnlyCreateCreates(st, a, s);
    NobodyMarks(st, a.e);
    OneCounterMoves(st, a);
    NewEventCarries(Next(st, a), a.e, s, strict);
  }

  lemma OnlyCreateCreates(st: State, a: Action, s: SubmissionId)
    requires Can(st, a) && s !in st.db.submissions && s in Next(st, a).db.submissions
    ensures a.Create? && a.s == s && a.fault != Refused
    ensures Next(st, a).db.submissions[s].status == Queued
    ensures a.e in Next(st, a).db.outbox && Next(st, a).db.outbox[a.e] == NewEvent(s, a.begun, 0)
  {
    if !WritesRows(a) {
      RowsFrame(st, a);
    } else if !a.Create? {
      SameSubmissions(st, a);
    }
  }

  lemma SameSubmissions(st: State, a: Action)
    requires Can(st, a) && WritesRows(a) && !a.Create?
    ensures Next(st, a).db.submissions.Keys == st.db.submissions.Keys
  {}

  // 8. Carriers are kept, by the kind of decision

  lemma DeadLogGrows(st: State, a: Action)
    requires Can(st, a)
    ensures st.mq.dead <= Next(st, a).mq.dead
  {}

  /** Whatever keeps the carriers keeps the promise: a status only moves towards needing less. */
  lemma CarryFollows(st: State, st': State, s: SubmissionId)
    requires s in st.db.submissions && CarryOk(st, s) && Advance(st.db, st'.db) && st.mq.dead <= st'.mq.dead
    requires Carried(st, s, true) ==> Carried(st', s, true)
    requires Carried(st, s, false) ==> Carried(st', s, false)
    ensures CarryOk(st', s)
  {
    if Carried(st, s, true) {
      StrictCarriersCarry(st, s);
    }
    if DeadEntryFor(st, s) {
      DeadEntryStays(st, st', s);
    }
  }

  /** No message of the submission is decided about. */
  ghost predicate LeavesAlone(st: State, a: Action, s: SubmissionId)
    requires Can(st, a)
  {
    forall m :: LostMessage(st, a) == Some(m) || CondemnedMessage(st, a) == Some(m) ==>
        m < |st.mq.log| && st.mq.log[m] != s
  }

  /** An action that decides about another submission, or about none. */
  lemma CarryPastOthers(st: State, a: Action, s: SubmissionId)
    requires Inv(st) && Can(st, a) && s in st.db.submissions && LostEvent(st, a) == None && LeavesAlone(st, a, s)
    ensures s in Next(st, a).db.submissions && CarryOk(Next(st, a), s)
  {
    assert CarryOk(st, s);
    if Carried(st, s, true) {
      CarriedUnlessLost(st, a, s, true);
    }
    if Carried(st, s, false) {
      CarriedUnlessLost(st, a, s, false);
    }
    DeadLogGrows(st, a);
    DatabaseAdvances(st, a);
    CarryFollows(st, Next(st, a), s);
  }

  lemma CarryPastPost(st: State, a: Action, s: SubmissionId)
    requires Inv(st) && Can(st, a) && a.Post? && a.fault == Clean && s in st.db.submissions
    ensures s in Next(st, a).db.submissions && CarryOk(Next(st, a), s)
  {
    assert CarryOk(st, s);
    if Carried(st, s, true) {
      CarriedAcrossPost(st, a, s, true);
    }
    if Carried(st, s, false) {
      CarriedAcrossPost(st, a, s, false);
    }
    DatabaseAdvances(st, a);
    CarryFollows(st, Next(st, a), s);
  }

  /** Deciding to dead-letter a failed submission still leaves its message for whoever comes next. */
  lemma CarryPastCondemning(st: State, a: Action, s: SubmissionId)
    requires Inv(st) && Can(st, a) && CondemnedMessage(st, a).Some? && s == WorkerAt(st, a.w).d.submission
    requires a.Claim? || a.Fail?
    ensures s in Next(st, a).db.submissions && CarryOk(Next(st, a), s)
  {
    DecidersHoldDeliveries(st, a);
    assert CarryOk(st, s);
    DatabaseAdvances(st, a);
    DeadLogGrows(st, a);
    if a.Claim? {
      ClaimDecidesSafely(st, a);
    } else {
      EndsDecideSafely(st, a);
    }
    if Carried(st, s, true) {
      StrictCarriersCarry(st, s);
    }
    NothingLost(st, a);
    if Carried(st, s, false) {
      CarriedUnlessLost(st, a, s, false);
    } else {
      FinalIsNotCondemned(st, a);
      DeadEntryStays(st, Next(st, a), s);
    }
  }

  lemma NothingLost(st: State, a: Action)
    requires Can(st, a) && CondemnedMessage(st, a).Some?
    ensures LostMessage(st, a) == None && LostEvent(st, a) == None
  {}

  lemma FinalIsNotCondemned(st: State, a: Action)
    requires Inv(st) && Can(st, a) && CondemnedMessage(st, a).Some?
    ensures a.Claim? || a.Fail?
    ensures var s := WorkerAt(st, a.w).d.submission; s in st.db.submissions && st.db.submissions[s].status != Final
  {
    WhoDecides(st, a);
    DecidersHoldDeliveries(st, a);
    DatabaseAdvances(st, a);
    if a.Claim? {
      ClaimDecidesSafely(st, a);
    } else {
      EndsDecideSafely(st, a);
    }
  }

  lemma CarryPastGivingUp(st: State, a: Action, s: SubmissionId)
    requires Inv(st) && Can(st, a) && LostMessage(st, a).Some? && s == WorkerAt(st, a.w).d.submission
    requires a.Claim? || a.Finish? || a.Retry? || a.Bury?
    ensures s in Next(st, a).db.submissions && CarryOk(Next(st, a), s)
  {
    DatabaseAdvances(st, a);
    if a.Claim? {
      ClaimDecidesSafely(st, a);
    } else if a.Bury? {
      assert WorkerOk(st, a.w);
      BuriedIsDead(st, a);
    } else {
      EndsDecideSafely(st, a);
      if a.Retry? {
        RetriedIsCarried(st, a, true);
      }
    }
  }

  lemma CarriersStayOk(st: State, a: Action, s: SubmissionId)
    requires Inv(st) && Can(st, a) && s in Next(st, a).db.submissions
    ensures CarryOk(Next(st, a), s)
  {
    WhoDecides(st, a);
    if s !in st.db.submissions {
      NewSubmissionIsCarried(st, a, s, true);
    } else if LostEvent(st, a).Some? {
      CarryPastPost(st, a, s);
    } else if LostMessage(st, a).Some? && s == WorkerAt(st, a.w).d.submission {
      CarryPastGivingUp(st, a, s);
    } else if CondemnedMessage(st, a).Some? && s == WorkerAt(st, a.w).d.submission {
      CarryPastCondemning(st, a, s);
    } else {
      if LostMessage(st, a).Some? || CondemnedMessage(st, a).Some? {
        DecidersHoldDeliveries(st, a);
      }
      CarryPastOthers(st, a, s);
    }
  }

  // The invariant as a whole

  lemma InvInitially()
    ensures Inv(EMPTY)
  {}

  lemma InvStep(st: State, a: Action)
    requires Inv(st) && Can(st, a)
    ensures Inv(Next(st, a))
  {
    var st' := Next(st, a);
    DatabaseAdvances(st, a);
    QueueStaysOk(st, a);
    forall w ensures WorkerOk(st', w) {
      WorkersStayOk(st, a, w);
    }
    forall w, v ensures OwnersDiffer(st', w, v) {
      OwnersStayDifferent(st, a, w, v);
    }
    forall p ensures PublisherOk(st', p) {
      PublishersStayOk(st, a, p);
    }
    forall e | e in st'.db.outbox ensures MarkedOk(st', e) {
      MarksStayOk(st, a, e);
    }
    forall s | s in st'.db.submissions ensures VerdictOk(st', s) {
      VerdictsStayOk(st, a, s);
    }
    forall s | s in st'.db.submissions ensures CarryOk(st', s) {
      CarriersStayOk(st, a, s);
    }
  }

  lemma {:induction false} InvAlways(st: State, acts: seq<Action>)
    requires Inv(st) && Runs(st, acts)
    ensures Inv(AfterAll(st, acts))
    decreases |acts|
  {
    if acts != [] {
      InvStep(st, acts[0]);
      InvAlways(Next(st, acts[0]), acts[1..]);
    }
  }

  lemma ReachableIsInv(st: State)
    requires Reachable(st)
    ensures Inv(st)
  {
    var acts :| Runs(EMPTY, acts) && AfterAll(EMPTY, acts) == st;
    InvInitially();
    InvAlways(EMPTY, acts);
  }
}
