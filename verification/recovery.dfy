/**
 Recoverability: from every reachable state, however many workers and publishers hang in the middle of a call, one
 healthy worker and one healthy publisher can drive every submission to a terminal state.
 */
module Recovery {
  import opened Basics
  import opened Lifecycle
  import opened Judging
  import opened Database
  import opened FenceProofs
  import opened Queue
  import opened Protocol
  import opened Invariant
  import opened Safety
  import opened Counting

  /** How a submitted program behaves in the sandbox: the program's choice, not the scheduler's. */
  datatype Behaviour = Behaviour(compile: Outcome, run: nat -> Outcome)

  /** The healthy worker and publisher, their configuration, and the behaviour of every submission. */
  datatype Crew = Crew(w: string, p: string, lease: Time, minIdle: Time, maxDeliveries: int, batch: int,
                       behaves: SubmissionId -> Behaviour)

  predicate Fit(c: Crew) {
    c.w != "" && c.p != "" && c.lease > 0 && c.minIdle > 0 && 1 <= c.batch <= 100
  }

  /** A sandbox that works shows how the program behaves; it refuses only what Open and Run always refuse. */
  predicate Expected(c: Crew, job: Job, stage: Stage, ev: Evidence, sight: Sight) {
    var k := |ev.runs|;
    match sight
    case Opened => Openable(job.language, job.source, job.problem)
    case CompileSeen(out) => out == c.behaves(job.submission).compile
    case RunSeen(out) => k < |job.problem.tests| && Fits(job.problem.tests[k]) &&
        out == c.behaves(job.submission).run(k)
    case Closed => true
    case Trouble =>
      || (stage == Opening && !Openable(job.language, job.source, job.problem))
      || (stage.InTests? && k < |job.problem.tests| && !Fits(job.problem.tests[k]))
  }

  /** Steps of the healthy pair only: no fault, no skipped row, synchronised clocks, messages in stream order. */
  ghost predicate Healthy(st: State, a: Action, c: Crew)
    requires Can(st, a)
  {
    match a
    case Tick(_, _) => true
    case LeaseBatch(p, limit, lease, locked, _, fault) => p == c.p && limit == c.batch && lease == c.lease &&
        locked == {} && fault == Clean
    case Post(p, fault) => p == c.p && fault == Clean
    case Mark(p, fault) => p == c.p && fault == Clean
    case Fetch(w, minIdle, pick, fault) =>
      w == c.w && minIdle == c.minIdle && fault == Clean && FirstPick(st.mq, pick, st.queueClock, minIdle)
    case Inspect(w, fault) => w == c.w && fault == Clean
    case Claim(w, lease, begun, localNow, maxDeliveries, _, fault) =>
      w == c.w && lease == c.lease && begun == localNow == st.clock && maxDeliveries == c.maxDeliveries &&
          fault == Clean
    case Look(w, sight) =>
      w == c.w && Expected(c, WorkerAt(st, w).job, WorkerAt(st, w).stage, st.seen[WorkerAt(st, w).job.attempt], sight)
    case Enter(w, fault) => w == c.w && fault == Clean
    case Finish(w, begun, fault) => w == c.w && begun == st.clock && fault == Clean
    case Retry(w, begun, _, fault) => w == c.w && begun == st.clock && fault == Clean
    case Fail(w, begun, fault) => w == c.w && begun == st.clock && fault == Clean
    case Ack(w, fault) => w == c.w && fault == Clean
    case Bury(w, fault) => w == c.w && fault == Clean
    case _ => false
  }

  ghost predicate Heals(st: State, acts: seq<Action>, c: Crew)
    decreases |acts|
  {
    acts == [] || (Can(st, acts[0]) && Healthy(st, acts[0], c) && Heals(Next(st, acts[0]), acts[1..], c))
  }

  lemma {:induction false} HealsRuns(st: State, acts: seq<Action>, c: Crew)
    requires Heals(st, acts, c)
    ensures Runs(st, acts)
    decreases |acts|
  {
    if acts != [] {
      HealsRuns(Next(st, acts[0]), acts[1..], c);
    }
  }

  /** acts leads from st to st' by healthy steps. */
  ghost predicate Leads(st: State, acts: seq<Action>, c: Crew, st': State) {
    Heals(st, acts, c) && Runs(st, acts) && AfterAll(st, acts) == st'
  }

  lemma LeadsNowhere(st: State, c: Crew)
    ensures Leads(st, [], c, st)
  {}

  lemma LeadsFirst(st: State, a: Action, rest: seq<Action>, c: Crew, st': State)
    requires Can(st, a) && Healthy(st, a, c) && Leads(Next(st, a), rest, c, st')
    ensures Leads(st, [a] + rest, c, st')
  {
    assert ([a] + rest)[1..] == rest;
  }

  lemma {:induction false} LeadsOn(st: State, xs: seq<Action>, c: Crew, mid: State, ys: seq<Action>, st': State)
    requires Leads(st, xs, c, mid) && Leads(mid, ys, c, st')
    ensures Leads(st, xs + ys, c, st')
    decreases |xs|
  {
    if xs == [] {
      assert xs + ys == ys;
    } else {
      LeadsOn(Next(st, xs[0]), xs[1..], c, mid, ys, st');
      assert xs + ys == [xs[0]] + (xs[1..] + ys);
      LeadsFirst(st, xs[0], xs[1..] + ys, c, st');
    }
  }

  // The measure

  function Weight(db: Db, s: SubmissionId, max: int): nat {
    if s !in db.submissions || Terminal(db.submissions[s].status) then 0
        else 1 + Max(0, max - db.submissions[s].attempts)
  }

  ghost function Total(db: Db, max: int, ids: set<SubmissionId>): nat {
    if ids == {} then 0 else var s :| s in ids; Weight(db, s, max) + Total(db, max, ids - {s})
  }

  lemma {:induction false} TotalSplits(db: Db, max: int, ids: set<SubmissionId>, s: SubmissionId)
    requires s in ids
    ensures Total(db, max, ids) == Weight(db, s, max) + Total(db, max, ids - {s})
  {
    var t :| t in ids && Total(db, max, ids) == Weight(db, t, max) + Total(db, max, ids - {t});
    if t != s {
      TotalSplits(db, max, ids - {t}, s);
      TotalSplits(db, max, ids - {s}, t);
      assert ids - {t} - {s} == ids - {s} - {t};
    }
  }

  lemma {:induction false} TotalAgrees(db: Db, db': Db, max: int, ids: set<SubmissionId>)
    requires forall s :: s in ids ==> Weight(db, s, max) == Weight(db', s, max)
    ensures Total(db, max, ids) == Total(db', max, ids)
  {
    if ids != {} {
      var s :| s in ids;
      TotalSplits(db, max, ids, s);
      TotalSplits(db', max, ids, s);
      TotalAgrees(db, db', max, ids - {s});
    }
  }

  /** Work left on submissions: those open, and the retries they still have. */
  ghost function Toil(st: State, c: Crew): nat {
    Total(st.db, Limit(c.maxDeliveries), st.db.submissions.Keys)
  }

  /** When one row changes, the toil changes by that row's weight. */
  lemma ToilFollowsRow(st: State, st': State, c: Crew, s: SubmissionId)
    requires s in st.db.submissions && s in st'.db.submissions
    requires st'.db.submissions == st.db.submissions[s := st'.db.submissions[s]]
    ensures var max := Limit(c.maxDeliveries);
      Toil(st', c) - Toil(st, c) == Weight(st'.db, s, max) - Weight(st.db, s, max)
  {
    var max, ids := Limit(c.maxDeliveries), st.db.submissions.Keys;
    assert st'.db.submissions.Keys == ids;
    TotalSplits(st.db, max, ids, s);
    TotalSplits(st'.db, max, ids, s);
    TotalAgrees(st.db, st'.db, max, ids - {s});
  }

  lemma ToilFollowsSubmissions(st: State, st': State, c: Crew)
    requires st'.db.submissions == st.db.submissions
    ensures Toil(st', c) == Toil(st, c)
  {
    TotalAgrees(st.db, st'.db, Limit(c.maxDeliveries), st.db.submissions.Keys);
  }

  function Unpublished(db: Db): set<EventId> {
    set e | e in db.outbox && db.outbox[e].publishedAt == None
  }

  /** Messages and events still to be dealt with; publishing turns an event (two) into a message (one). */
  function Backlog(st: State): int {
    2 * |Unpublished(st.db)| + |st.mq.pending| + |st.mq.log| - st.mq.delivered
  }

  /** Nothing is waiting for the clock. */
  ghost predicate Overdue(st: State, minIdle: Time) {
    && (forall s :: s in st.db.submissions ==>
          !After(st.db.submissions[s].leaseUntil, st.clock) && !After(st.db.submissions[s].retryAfter, st.clock))
    && (forall e :: e in Unpublished(st.db) ==> Ready(st.db.outbox[e], st.clock))
    && (forall m :: m in st.mq.pending ==> IdleFor(st.mq, m, st.queueClock, minIdle))
  }

  lemma {:induction false} BoundOf<K>(keys: set<K>, f: K -> int) returns (b: int)
    ensures forall k :: k in keys ==> f(k) <= b
  {
    if keys == {} {
      b := 0;
    } else {
      var k :| k in keys;
      var rest := BoundOf(keys - {k}, f);
      b := Max(rest, f(k));
      forall j | j in keys ensures f(j) <= b {
        assert j == k || j in keys - {k};
      }
    }
  }

  function ValueOr0(t: Option<Time>): Time {
    if t.Some? then t.value else 0
  }

  /** Waiting long enough makes everything overdue and changes nothing else. */
  lemma WaitItOut(st: State, c: Crew) returns (a: Action)
    requires Fit(c)
    ensures a.Tick? && Can(st, a) && Healthy(st, a, c) && Overdue(Next(st, a), c.minIdle)
  {
    var subs, outbox, pending := st.db.submissions, st.db.outbox, st.mq.pending;
    var b1 := BoundOf(subs.Keys,
      s => if s in subs then Max(ValueOr0(subs[s].leaseUntil), ValueOr0(subs[s].retryAfter)) else 0);
    var b2 := BoundOf(outbox.Keys,
      e => if e in outbox then Max(outbox[e].availableAt, ValueOr0(outbox[e].claimedUntil)) else 0);
    var b3 := BoundOf(pending.Keys, m => if m in pending then pending[m].since else 0);
    a := Tick(Max(0, Max(b1, b2) + 1 - st.clock), Max(0, b3 + c.minIdle - st.queueClock));
    var st' := Next(st, a);
    forall s | s in st'.db.submissions
      ensures !After(subs[s].leaseUntil, st'.clock) && !After(subs[s].retryAfter, st'.clock) {
      assert s in subs.Keys;
    }
    forall e | e in Unpublished(st'.db) ensures Ready(outbox[e], st'.clock) {
      assert e in outbox.Keys;
    }
    forall m | m in st'.mq.pending ensures IdleFor(st'.mq, m, st'.queueClock, c.minIdle) {
      assert m in pending.Keys;
    }
  }

  // One delivery, from the claim to the acknowledgement

  ghost predicate AtRest(st: State, c: Crew) {
    Inv(st) && Fit(c) && WorkerAt(st, c.w) == Idle && PublisherAt(st, c.p) == Resting
  }

  /** The worker has decided, and its message is still pending. */
  ghost predicate Decided(st: State, c: Crew) {
    && Inv(st) && Fit(c) && PublisherAt(st, c.p) == Resting
    && (WorkerAt(st, c.w).Acking? || WorkerAt(st, c.w).Burying?)
    && WorkerAt(st, c.w).d.message in st.mq.pending
  }

  lemma Acknowledge(st: State, c: Crew) returns (acts: seq<Action>, st': State)
    requires Decided(st, c)
    ensures Leads(st, acts, c, st') && AtRest(st', c)
    ensures Toil(st', c) == Toil(st, c) && Backlog(st') == Backlog(st) - 1
  {
    var a := if WorkerAt(st, c.w).Acking? then Action.Ack(c.w, Clean) else Bury(c.w, Clean);
    st' := Next(st, a);
    InvStep(st, a);
    ToilFollowsSubmissions(st, st', c);
    acts := [a];
    LeadsNowhere(st', c);
    LeadsFirst(st, a, [], c, st');
    assert [a] + [] == [a];
  }

  /** The healthy worker holds the current attempt of a delivery that is still pending. */
  ghost predicate Working(st: State, c: Crew) {
    && Inv(st) && Fit(c) && PublisherAt(st, c.p) == Resting
    && WorkerAt(st, c.w).Holding?
    && WorkerAt(st, c.w).limit == Limit(c.maxDeliveries)
    && Current(st.db, WorkerAt(st, c.w).job.attempt)
    && WorkerAt(st, c.w).d.message in st.mq.pending
  }

  /** How an update of the current attempt's submission row shows in the toil. */
  lemma ToilFollowsUpdate(st: State, st': State, c: Crew, s: SubmissionId, row: Submission)
    requires s in st.db.submissions && st'.db.submissions == st.db.submissions[s := row]
    requires row.attempts == st.db.submissions[s].attempts && !Terminal(st.db.submissions[s].status)
    ensures Terminal(row.status) ==> Toil(st', c) < Toil(st, c)
    ensures !Terminal(row.status) ==> Toil(st', c) == Toil(st, c)
  {
    ToilFollowsRow(st, st', c, s);
  }

  lemma FinishDecides(st: State, c: Crew, a: Action)
    requires Working(st, c) && WorkerAt(st, c.w).stage.Done? && a == Action.Finish(c.w, st.clock, Clean)
    ensures Can(st, a) && Decided(Next(st, a), c) && Toil(Next(st, a), c) < Toil(st, c)
  {
    assert WorkerOk(st, c.w);
    InvStep(st, a);
    var s := WorkerAt(st, c.w).job.submission;
    assert SubmissionOk(st.db, s);
    ToilFollowsUpdate(st, Next(st, a), c, s, Next(st, a).db.submissions[s]);
  }

  lemma RetryDecides(st: State, c: Crew, a: Action)
    requires Working(st, c) && WorkerAt(st, c.w).stage == Broken &&
        WorkerAt(st, c.w).job.number < Limit(c.maxDeliveries)
    requires a.Retry? && a == Action.Retry(c.w, st.clock, a.e, Clean) && a.e !in st.db.outbox
    ensures Can(st, a) && Decided(Next(st, a), c) && Toil(Next(st, a), c) == Toil(st, c)
  {
    assert WorkerOk(st, c.w);
    RetryDelayBounds(WorkerAt(st, c.w).job.number, WorkerAt(st, c.w).job.number);
    InvStep(st, a);
    var s := WorkerAt(st, c.w).job.submission;
    assert SubmissionOk(st.db, s);
    ToilFollowsUpdate(st, Next(st, a), c, s, Next(st, a).db.submissions[s]);
  }

  lemma FailDecides(st: State, c: Crew, a: Action)
    requires Working(st, c) && WorkerAt(st, c.w).stage == Broken &&
        WorkerAt(st, c.w).job.number >= Limit(c.maxDeliveries)
    requires a == Action.Fail(c.w, st.clock, Clean)
    ensures Can(st, a) && Decided(Next(st, a), c) && Toil(Next(st, a), c) < Toil(st, c)
  {
    assert WorkerOk(st, c.w);
    InvStep(st, a);
    var s := WorkerAt(st, c.w).job.submission;
    assert SubmissionOk(st.db, s);
    ToilFollowsUpdate(st, Next(st, a), c, s, Next(st, a).db.submissions[s]);
  }

  /** Evaluate has returned: write the outcome, then acknowledge or dead-letter. */
  lemma Conclude(st: State, c: Crew) returns (acts: seq<Action>, st': State)
    requires Working(st, c) && (WorkerAt(st, c.w).stage.Done? || WorkerAt(st, c.w).stage == Broken)
    ensures Leads(st, acts, c, st') && AtRest(st', c) && Toil(st', c) <= Toil(st, c)
    ensures Toil(st', c) < Toil(st, c) || WorkerAt(st, c.w).job.number < Limit(c.maxDeliveries)
  {
    var a;
    if WorkerAt(st, c.w).stage.Done? {
      a := Action.Finish(c.w, st.clock, Clean);
      FinishDecides(st, c, a);
    } else if WorkerAt(st, c.w).job.number < Limit(c.maxDeliveries) {
      var e := SomeNumberOutside(st.db.outbox.Keys);
      a := Action.Retry(c.w, st.clock, e, Clean);
      RetryDecides(st, c, a);
    } else {
      a := Action.Fail(c.w, st.clock, Clean);
      FailDecides(st, c, a);
    }
    var rest;
    rest, st' := Acknowledge(Next(st, a), c);
    acts := [a] + rest;
    LeadsFirst(st, a, rest, c, st');
  }

  /** Steps left before the evaluation returns. */
  function StepsLeft(tests: seq<TestCase>, stage: Stage): int {
    match stage
    case Opening => |tests| + 6
    case EnterCompile => |tests| + 5
    case InCompile => |tests| + 4
    case EnterRun => |tests| + 3
    case InTests(r) => |tests| - r.passed + 2
    case Closing(_) => 1
    case Done(_) => 0
    case Broken => 0
  }

  /** What test k shows. */
  function Trial(c: Crew, job: Job, k: nat): Sight {
    if k < |job.problem.tests| && !Fits(job.problem.tests[k]) then Trouble
        else RunSeen(c.behaves(job.submission).run(k))
  }

  /** What the healthy worker does next while evaluating. */
  function Move(st: State, c: Crew): Action
    requires WorkerAt(st, c.w).Holding? && WorkerAt(st, c.w).job.attempt in st.seen
  {
    var job, ev := WorkerAt(st, c.w).job, st.seen[WorkerAt(st, c.w).job.attempt];
    match WorkerAt(st, c.w).stage
    case Opening => Look(c.w, if Openable(job.language, job.source, job.problem) then Opened else Trouble)
    case InCompile => Look(c.w, CompileSeen(c.behaves(job.submission).compile))
    case InTests(_) => Look(c.w, Trial(c, job, |ev.runs|))
    case Closing(_) => Look(c.w, Closed)
    case _ => Enter(c.w, Clean)
  }

  /** What one step of the evaluation keeps and decreases. */
  ghost predicate Progress(st: State, st': State, c: Crew) {
    && Working(st, c) && Working(st', c)
    && WorkerAt(st', c.w).job == WorkerAt(st, c.w).job
    && 0 <= StepsLeft(WorkerAt(st, c.w).job.problem.tests, WorkerAt(st', c.w).stage)
         < StepsLeft(WorkerAt(st, c.w).job.problem.tests, WorkerAt(st, c.w).stage)
    && Toil(st', c) == Toil(st, c)
  }

  lemma MoveIsExpected(st: State, c: Crew)
    requires Working(st, c) && WorkerAt(st, c.w).job.attempt in st.seen && Move(st, c).Look?
    ensures Can(st, Move(st, c)) && Healthy(st, Move(st, c), c)
  {
    assert WorkerOk(st, c.w);
  }

  lemma LookKeepsWorking(st: State, c: Crew, a: Action)
    requires Working(st, c) && a.Look? && a.w == c.w && Can(st, a)
    ensures Working(Next(st, a), c) && WorkerAt(Next(st, a), c.w).job == WorkerAt(st, c.w).job
    ensures Toil(Next(st, a), c) == Toil(st, c)
    ensures var pc := WorkerAt(st, c.w);
      WorkerAt(Next(st, a), c.w).stage == See(pc.job.problem.tests, pc.stage, a.sight)
  {
    InvStep(st, a);
    ToilFollowsSubmissions(st, Next(st, a), c);
  }

  lemma SeeingComesCloser(tests: seq<TestCase>, stage: Stage, ev: Evidence, sight: Sight)
    requires Coherent(tests, stage, ev) && CanSee(tests, stage, sight)
    ensures 0 <= StepsLeft(tests, See(tests, stage, sight)) < StepsLeft(tests, stage)
  {
    SeeingKeepsCoherence(tests, stage, ev, sight);
  }

  lemma LookProgresses(st: State, c: Crew)
    requires Working(st, c) && WorkerAt(st, c.w).job.attempt in st.seen && Move(st, c).Look?
    ensures Can(st, Move(st, c)) && Healthy(st, Move(st, c), c) && Progress(st, Next(st, Move(st, c)), c)
  {
    MoveIsExpected(st, c);
    LookKeepsWorking(st, c, Move(st, c));
    assert WorkerOk(st, c.w);
    var pc := WorkerAt(st, c.w);
    SeeingComesCloser(pc.job.problem.tests, pc.stage, st.seen[pc.job.attempt], Move(st, c).sight);
  }

  lemma EnterCommits(st: State, c: Crew)
    requires Working(st, c) && (WorkerAt(st, c.w).stage == EnterCompile || WorkerAt(st, c.w).stage == EnterRun)
    ensures EnterCall(st, c.w).Commit?
    ensures var s, db := WorkerAt(st, c.w).job.submission, EnterCall(st, c.w).db;
      && s in st.db.submissions && !Terminal(st.db.submissions[s].status) && s in db.submissions
      && db.submissions == st.db.submissions[s := st.db.submissions[s].(status := db.submissions[s].status)]
      && !Terminal(db.submissions[s].status)
  {
    assert WorkerOk(st, c.w) && SubmissionOk(st.db, WorkerAt(st, c.w).job.submission);
  }

  lemma EnterKeepsWorking(st: State, c: Crew, a: Action)
    requires Working(st, c) && a == Enter(c.w, Clean) && Can(st, a) && EnterCall(st, c.w).Commit?
    ensures Working(Next(st, a), c) && WorkerAt(Next(st, a), c.w).job == WorkerAt(st, c.w).job
    ensures WorkerAt(Next(st, a), c.w).stage == Entered(WorkerAt(st, c.w).job.problem.tests, WorkerAt(st, c.w).stage)
  {
    InvStep(st, a);
  }

  lemma EnteringComesCloser(tests: seq<TestCase>, stage: Stage)
    requires stage == EnterCompile || stage == EnterRun
    ensures 0 <= StepsLeft(tests, Entered(tests, stage)) < StepsLeft(tests, stage)
  {
  }

  lemma EnterProgresses(st: State, c: Crew, a: Action)
    requires Working(st, c) && (WorkerAt(st, c.w).stage == EnterCompile || WorkerAt(st, c.w).stage == EnterRun)
    requires a == Enter(c.w, Clean)
    ensures Can(st, a) && Healthy(st, a, c) && Progress(st, Next(st, a), c)
  {
    EnterCommits(st, c);
    EnterKeepsWorking(st, c, a);
    EnterKeepsToil(st, c, a);
    EnteringComesCloser(WorkerAt(st, c.w).job.problem.tests, WorkerAt(st, c.w).stage);
  }

  lemma EnterKeepsToil(st: State, c: Crew, a: Action)
    requires Working(st, c) && a == Enter(c.w, Clean) && Can(st, a) && EnterCall(st, c.w).Commit?
    ensures Toil(Next(st, a), c) == Toil(st, c)
  {
    EnterCommits(st, c);
    var s := WorkerAt(st, c.w).job.submission;
    ToilFollowsUpdate(st, Next(st, a), c, s, EnterCall(st, c.w).db.submissions[s]);
  }

  lemma Evaluate(st: State, c: Crew) returns (acts: seq<Action>, st': State)
    requires Working(st, c)
    ensures Leads(st, acts, c, st') && AtRest(st', c) && Toil(st', c) <= Toil(st, c)
    ensures Toil(st', c) < Toil(st, c) || WorkerAt(st, c.w).job.number < Limit(c.maxDeliveries)
    decreases StepsLeft(WorkerAt(st, c.w).job.problem.tests, WorkerAt(st, c.w).stage)
  {
    if WorkerAt(st, c.w).stage.Done? || WorkerAt(st, c.w).stage == Broken {
      acts, st' := Conclude(st, c);
    } else {
      assert WorkerOk(st, c.w);
      var a := Move(st, c);
      if a.Look? {
        LookProgresses(st, c);
      } else {
        EnterProgresses(st, c, a);
      }
      var rest;
      rest, st' := Evaluate(Next(st, a), c);
      acts := [a] + rest;
      LeadsFirst(st, a, rest, c, st');
    }
  }

  /** The rows that a delivered submission's claim looks at do not hold it back. */
  ghost predicate Unblocked(st: State, s: SubmissionId) {
    s in st.db.submissions ==>
      !After(st.db.submissions[s].leaseUntil, st.clock) && !After(st.db.submissions[s].retryAfter, st.clock)
  }

  /** The worker is about to claim an open submission, and nothing holds it back. */
  ghost predicate Claiming(st: State, c: Crew, a: Action) {
    && Inv(st) && Fit(c) && PublisherAt(st, c.p) == Resting && WorkerAt(st, c.w).Received?
    && WorkerAt(st, c.w).d.message in st.mq.pending && Unblocked(st, WorkerAt(st, c.w).d.submission)
    && WorkerAt(st, c.w).d.submission in st.db.submissions
    && !Terminal(st.db.submissions[WorkerAt(st, c.w).d.submission].status)
    && a.Claim? && a == Action.Claim(c.w, c.lease, st.clock, st.clock, c.maxDeliveries, a.attempt, Clean)
    && a.attempt !in st.db.attempts
  }

  lemma ClaimCommits(st: State, c: Crew, a: Action)
    requires Claiming(st, c, a)
    ensures Can(st, a) && Healthy(st, a, c) && ClaimCall(st, a).Commit?
  {
    var s := WorkerAt(st, c.w).d.submission;
    NumberIsFree(st.db, s, st.clock);
    assert SubmissionOk(st.db, s);
  }

  lemma ClaimWorks(st: State, c: Crew, a: Action)
    requires Claiming(st, c, a) && Can(st, a) && ClaimCall(st, a).Commit?
    ensures Working(Next(st, a), c)
    ensures WorkerAt(Next(st, a), c.w).job.number == st.db.submissions[WorkerAt(st, c.w).d.submission].attempts + 1
  {
    InvStep(st, a);
    ClaimRows(st.db, WorkerAt(st, c.w).d.submission, c.w, c.lease, st.clock, st.clock, a.attempt);
  }

  /** A claim of an open submission commits and starts the next attempt. */
  lemma ClaimSucceeds(st: State, c: Crew, a: Action)
    requires Claiming(st, c, a)
    ensures Can(st, a) && Healthy(st, a, c) && Working(Next(st, a), c)
    ensures Toil(Next(st, a), c) < Toil(st, c)
            || (Toil(Next(st, a), c) == Toil(st, c) && WorkerAt(Next(st, a), c.w).job.number >= Limit(c.maxDeliveries))
  {
    var s := WorkerAt(st, c.w).d.submission;
    ClaimCommits(st, c, a);
    ClaimWorks(st, c, a);
    ClaimRows(st.db, s, c.w, c.lease, st.clock, st.clock, a.attempt);
    ToilFollowsRow(st, Next(st, a), c, s);
  }

  lemma ClaimOfTerminal(st: State, c: Crew, a: Action)
    requires Inv(st) && Fit(c) && PublisherAt(st, c.p) == Resting && WorkerAt(st, c.w).Received?
    requires WorkerAt(st, c.w).d.message in st.mq.pending
    requires WorkerAt(st, c.w).d.submission in st.db.submissions
    requires Terminal(st.db.submissions[WorkerAt(st, c.w).d.submission].status)
    requires a.Claim? && a == Action.Claim(c.w, c.lease, st.clock, st.clock, c.maxDeliveries, a.attempt, Clean) &&
        a.attempt !in st.db.attempts
    ensures Can(st, a) && Healthy(st, a, c) && Inv(Next(st, a)) && PublisherAt(Next(st, a), c.p) == Resting
    ensures WorkerAt(Next(st, a), c.w).Acking? || WorkerAt(Next(st, a), c.w).Burying?
    ensures WorkerAt(Next(st, a), c.w).d.message in Next(st, a).mq.pending
    ensures Toil(Next(st, a), c) == Toil(st, c) && Backlog(Next(st, a)) == Backlog(st)
  {
    InvStep(st, a);
    ToilFollowsSubmissions(st, Next(st, a), c);
  }

  lemma HandleDelivery(st: State, c: Crew) returns (acts: seq<Action>, st': State)
    requires Inv(st) && Fit(c) && PublisherAt(st, c.p) == Resting && WorkerAt(st, c.w).Received?
    requires WorkerAt(st, c.w).d.message in st.mq.pending && Unblocked(st, WorkerAt(st, c.w).d.submission)
    ensures Leads(st, acts, c, st') && AtRest(st', c)
    ensures Toil(st', c) < Toil(st, c) || (Toil(st', c) == Toil(st, c) && Backlog(st') == Backlog(st) - 1)
  {
    assert WorkerOk(st, c.w);
    var attempt := SomeNumberOutside(st.db.attempts.Keys);
    var a := Action.Claim(c.w, c.lease, st.clock, st.clock, c.maxDeliveries, attempt, Clean);
    var rest;
    if Terminal(st.db.submissions[WorkerAt(st, c.w).d.submission].status) {
      ClaimOfTerminal(st, c, a);
      rest, st' := Acknowledge(Next(st, a), c);
    } else {
      ClaimSucceeds(st, c, a);
      rest, st' := Evaluate(Next(st, a), c);
    }
    acts := [a] + rest;
    LeadsFirst(st, a, rest, c, st');
  }

  // Receiving

  lemma {:induction false} Least(s: set<nat>) returns (m: nat)
    requires s != {}
    ensures m in s && forall k :: k in s ==> m <= k
  {
    m :| m in s;
    if s != {m} {
      var k := Least(s - {m});
      var x := if k < m then k else m;
      forall j | j in s ensures x <= j {
        assert j == m || j in s - {m};
      }
      m := x;
    }
  }

  lemma FetchKeeps(st: State, c: Crew, a: Action)
    requires AtRest(st, c) && a.Fetch? && a.w == c.w && a.fault == Clean && Can(st, a)
    ensures var mid := Next(st, a);
            && Inv(mid) && PublisherAt(mid, c.p) == Resting && mid.db == st.db && mid.clock == st.clock
            && WorkerAt(mid, c.w) == Fetched(TakenMessage(st.mq, a.pick)) &&
                TakenMessage(st.mq, a.pick) in mid.mq.pending
            && Backlog(mid) == Backlog(st)
  {
    InvStep(st, a);
    var mid, m := Next(st, a), TakenMessage(st.mq, a.pick);
    if a.pick.Some? {
      assert mid.mq.pending.Keys == st.mq.pending.Keys;
    } else {
      assert mid.mq.pending.Keys == st.mq.pending.Keys + {m};
    }
  }

  lemma InspectKeeps(st: State, c: Crew, a: Action)
    requires Inv(st) && Fit(c) && PublisherAt(st, c.p) == Resting && WorkerAt(st, c.w).Fetched?
    requires WorkerAt(st, c.w).message in st.mq.pending && a == Inspect(c.w, Clean)
    ensures Can(st, a)
    ensures var st' := Next(st, a);
            && Inv(st') && PublisherAt(st', c.p) == Resting && st'.db == st.db && st'.clock == st.clock
            && WorkerAt(st', c.w).Received? && WorkerAt(st', c.w).d.message in st'.mq.pending &&
                Backlog(st') == Backlog(st)
  {
    InvStep(st, a);
  }

  lemma FirstOverdue(st: State, c: Crew) returns (pick: Option<MessageId>)
    requires AtRest(st, c) && Overdue(st, c.minIdle) && (st.mq.pending != map[] || st.mq.delivered < |st.mq.log|)
    ensures CanTake(st.mq, pick, st.queueClock, c.minIdle) && FirstPick(st.mq, pick, st.queueClock, c.minIdle)
  {
    pick := None;
    if st.mq.pending.Keys != {} {
      var m := Least(st.mq.pending.Keys);
      pick := Some(m);
      assert Before(st.mq, m) == {};
    }
  }

  lemma Serve(st: State, c: Crew) returns (acts: seq<Action>, st': State)
    requires AtRest(st, c) && Overdue(st, c.minIdle) && (st.mq.pending != map[] || st.mq.delivered < |st.mq.log|)
    ensures Leads(st, acts, c, st') && AtRest(st', c)
    ensures Toil(st', c) < Toil(st, c) || (Toil(st', c) == Toil(st, c) && Backlog(st') == Backlog(st) - 1)
  {
    var pick := FirstOverdue(st, c);
    var a, b := Fetch(c.w, c.minIdle, pick, Clean), Inspect(c.w, Clean);
    FetchKeeps(st, c, a);
    var mid := Next(st, a);
    InspectKeeps(mid, c, b);
    var rest;
    rest, st' := ServeFetched(st, c, mid, b);
    acts := [a] + rest;
    LeadsFirst(st, a, rest, c, st');
  }

  lemma ServeFetched(st: State, c: Crew, mid: State, b: Action) returns (acts: seq<Action>, st': State)
    requires Overdue(st, c.minIdle) && mid.db == st.db && mid.clock == st.clock && Backlog(mid) == Backlog(st)
    requires b == Inspect(c.w, Clean) && Can(mid, b)
    requires var at := Next(mid, b);
      && Inv(at) && Fit(c) && PublisherAt(at, c.p) == Resting && at.db == mid.db && at.clock == mid.clock
      && WorkerAt(at, c.w).Received? && WorkerAt(at, c.w).d.message in at.mq.pending && Backlog(at) == Backlog(mid)
    ensures Leads(mid, acts, c, st') && AtRest(st', c)
    ensures Toil(st', c) < Toil(st, c) || (Toil(st', c) == Toil(st, c) && Backlog(st') == Backlog(st) - 1)
  {
    var rest;
    rest, st' := HandleDelivery(Next(mid, b), c);
    ToilFollowsSubmissions(st, Next(mid, b), c);
    acts := [b] + rest;
    LeadsFirst(mid, b, rest, c, st');
  }

  // Publishing

  lemma {:induction false} OldestOf(db: Db, pool: set<EventId>) returns (e: EventId)
    requires pool != {} && pool <= db.outbox.Keys
    ensures e in pool && forall d :: d in pool ==> db.outbox[e].createdAt <= db.outbox[d].createdAt
  {
    e :| e in pool;
    if pool != {e} {
      var k := OldestOf(db, pool - {e});
      var x := if db.outbox[k].createdAt < db.outbox[e].createdAt then k else e;
      forall d | d in pool ensures db.outbox[x].createdAt <= db.outbox[d].createdAt {
        assert d == e || d in pool - {e};
      }
      e := x;
    }
  }

  lemma {:induction false} ChooseOldest(db: Db, pool: set<EventId>, limit: nat) returns (batch: seq<EventId>)
    requires pool <= db.outbox.Keys
    ensures Oldest(db, pool, limit, batch) && (pool != {} && limit > 0 ==> batch != [])
  {
    if limit == 0 || pool == {} {
      batch := [];
    } else {
      var e := OldestOf(db, pool);
      var rest := ChooseOldest(db, pool - {e}, limit - 1);
      batch := [e] + rest;
      forall d | d in pool ensures d == e || d in pool - {e} {}
    }
  }

  /** The events a publisher is about to publish, each unpublished and listed once. */
  ghost predicate Owed(st: State, todo: seq<OutboxEvent>) {
    && (forall i :: 0 <= i < |todo| ==> todo[i].id in Unpublished(st.db))
    && (forall i, j :: 0 <= i < j < |todo| ==> todo[i].id != todo[j].id)
  }

  ghost predicate Publishing(st: State, c: Crew, todo: seq<OutboxEvent>) {
    Inv(st) && Fit(c) && WorkerAt(st, c.w) == Idle && PublisherAt(st, c.p) == Proceed(todo) && Owed(st, todo)
  }

  lemma PostKeeps(st: State, c: Crew, todo: seq<OutboxEvent>, a: Action)
    requires Publishing(st, c, todo) && todo != [] && a == Action.Post(c.p, Clean)
    ensures Can(st, a)
    ensures var mid := Next(st, a);
            && Inv(mid) && mid.db == st.db && WorkerAt(mid, c.w) == Idle &&
                PublisherAt(mid, c.p) == Marking(todo[0], todo[1..])
            && Backlog(mid) == Backlog(st) + 1
  {
    InvStep(st, a);
  }

  lemma MarkKeeps(st: State, c: Crew, todo: seq<OutboxEvent>, a: Action)
    requires Inv(st) && Fit(c) && WorkerAt(st, c.w) == Idle && todo != [] && Owed(st, todo)
    requires PublisherAt(st, c.p) == Marking(todo[0], todo[1..]) && a == Action.Mark(c.p, Clean)
    ensures Can(st, a)
    ensures var st' := Next(st, a);
            Publishing(st', c, todo[1..]) && st'.db.submissions == st.db.submissions && Backlog(st') == Backlog(st) - 2
  {
    InvStep(st, a);
    var st' := Next(st, a);
    assert Unpublished(st'.db) == Unpublished(st.db) - {todo[0].id};
  }

  lemma {:induction false} PublishAll(st: State, c: Crew, todo: seq<OutboxEvent>)
      returns (acts: seq<Action>, st': State)
    requires Publishing(st, c, todo)
    ensures Leads(st, acts, c, st') && AtRest(st', c)
    ensures Toil(st', c) == Toil(st, c) && Backlog(st') == Backlog(st) - |todo|
    decreases |todo|
  {
    if todo == [] {
      acts, st' := [], st;
      LeadsNowhere(st, c);
    } else {
      var a, b := Action.Post(c.p, Clean), Action.Mark(c.p, Clean);
      PostKeeps(st, c, todo, a);
      var mid := Next(st, a);
      MarkKeeps(mid, c, todo, b);
      var rest;
      rest, st' := PublishAll(Next(mid, b), c, todo[1..]);
      ToilFollowsSubmissions(st, Next(mid, b), c);
      LeadsFirst(mid, b, rest, c, st');
      acts := [a] + ([b] + rest);
      LeadsFirst(st, a, [b] + rest, c, st');
    }
  }

  lemma LeaseKeeps(st: State, c: Crew, a: Action)
    requires AtRest(st, c) && Can(st, a) && a.LeaseBatch? && Healthy(st, a, c)
    ensures var st' := Next(st, a);
            && Publishing(st', c, Refs(st.db, a.batch)) && st'.db.submissions == st.db.submissions &&
                Backlog(st') == Backlog(st)
  {
    InvStep(st, a);
    var st' := Next(st, a);
    assert Unpublished(st'.db) == Unpublished(st.db);
  }

  lemma Publish(st: State, c: Crew) returns (acts: seq<Action>, st': State)
    requires AtRest(st, c) && Overdue(st, c.minIdle) && Unpublished(st.db) != {}
    ensures Leads(st, acts, c, st') && AtRest(st', c) && Toil(st', c) == Toil(st, c) && Backlog(st') < Backlog(st)
  {
    var ready := ReadyEvents(st.db, st.clock, {});
    var e :| e in Unpublished(st.db);
    assert e in ready;
    var batch := ChooseOldest(st.db, ready, c.batch);
    var a := LeaseBatch(c.p, c.batch, c.lease, {}, batch, Clean);
    LeaseKeeps(st, c, a);
    var rest;
    rest, st' := PublishAll(Next(st, a), c, Refs(st.db, batch));
    ToilFollowsSubmissions(st, Next(st, a), c);
    acts := [a] + rest;
    LeadsFirst(st, a, rest, c, st');
  }

  // The whole recovery

  lemma Tidy(st: State)
    requires Inv(st)
    ensures Backlog(st) >= 0
    ensures Backlog(st) == 0 ==> Unpublished(st.db) == {} && forall m :: !Unacked(st.mq, m)
  {
    if Backlog(st) == 0 {
      assert |st.mq.pending| == 0;
    }
  }

  lemma {:induction false} Recover(st: State, c: Crew) returns (acts: seq<Action>, st': State)
    requires AtRest(st, c)
    ensures Leads(st, acts, c, st') && AtRest(st', c) && Backlog(st') == 0
    decreases Toil(st, c), Backlog(st)
  {
    Tidy(st);
    if Backlog(st) == 0 {
      acts, st' := [], st;
      LeadsNowhere(st, c);
    } else {
      var tick := WaitItOut(st, c);
      var st1 := Next(st, tick);
      InvStep(st, tick);
      ToilFollowsSubmissions(st, st1, c);
      var xs, st2;
      if Unpublished(st1.db) != {} {
        xs, st2 := Publish(st1, c);
      } else {
        assert |st1.mq.pending| + |st1.mq.log| - st1.mq.delivered > 0;
        xs, st2 := Serve(st1, c);
      }
      Tidy(st2);
      var ys;
      ys, st' := Recover(st2, c);
      LeadsOn(st1, xs, c, st2, ys, st');
      acts := [tick] + (xs + ys);
      LeadsFirst(st, tick, xs + ys, c, st');
    }
  }

  /**
   When nothing is left to deal with, everything accepted is terminal and everything exhausted is in the dead stream.
   */
  lemma NothingLeftMeansSettled(st: State, s: SubmissionId)
    requires Inv(st) && Backlog(st) == 0 && s in st.db.submissions
    ensures Terminal(st.db.submissions[s].status)
    ensures st.db.submissions[s].status == FailedInternal ==> DeadEntryFor(st, s)
  {
    Tidy(st);
    assert CarryOk(st, s);
    forall e ensures !EventFor(st, e, s) {
      assert e !in Unpublished(st.db);
    }
  }

  // What the recovered submissions are judged by

  ghost predicate Follows(ev: Evidence, b: Behaviour) {
    && (ev.compiled.Some? ==> ev.compiled.value == b.compile)
    && forall i: nat :: i < |ev.runs| ==> ev.runs[i] == b.run(i)
  }

  /** All tests in front of test k pass. */
  ghost predicate Reached(tests: seq<TestCase>, b: Behaviour, k: nat)
    requires k <= |tests|
  {
    forall j: nat :: j < k ==> RunVerdict(b.run(j), tests[j]) == Accepted
  }

  /**
   The sandbox takes the submission all the way: it can be opened, and if the program compiles, every test that is
   reached has an input that can be run.
   */
  ghost predicate Judgeable(row: Submission, b: Behaviour) {
    var tests := row.problem.tests;
    && Openable(row.language, row.source, row.problem)
    && (CompileFailed(b.compile) || forall k: nat :: k < |tests| && Reached(tests, b, k) ==> Fits(tests[k]))
  }

  /** In figures, and with the signals themselves. */
  lemma JudgeableMeans(row: Submission, b: Behaviour)
    ensures var tests, c := row.problem.tests, b.compile; Judgeable(row, b) <==>
      && tests != [] && (row.language == "python" || row.language == "cpp") && 1 <= Utf8Length(row.source) <= 65536
      && 100 <= row.problem.timeLimitMs <= 10000 && 32 <= row.problem.memoryLimitMb <= 512
      && (|| c.exitCode != 0 || c.timedOut || c.oom || c.outputLimited
          || forall k: nat :: k < |tests| && (forall j: nat :: j < k ==> Solves(b.run(j), tests[j])) ==>
               Utf8Length(tests[k].input) <= 65536)
  {
    var tests := row.problem.tests;
    forall j: nat | j < |tests| ensures RunVerdict(b.run(j), tests[j]) == Accepted <==> Solves(b.run(j), tests[j]) {
      RunVerdictSignals(b.run(j), tests[j]);
    }
    forall k: nat | k < |tests|
      ensures Reached(tests, b, k) <==> forall j: nat :: j < k ==> Solves(b.run(j), tests[j]) {
    }
  }

  /** The evidence is what the sandbox shows of this behaviour. */
  ghost predicate Shows(row: Submission, ev: Evidence, b: Behaviour) {
    && Follows(ev, b)
    && (ev.compiled.Some? ==> Openable(row.language, row.source, row.problem))
    && forall i :: 0 <= i < |ev.runs| && i < |row.problem.tests| ==> Fits(row.problem.tests[i])
  }

  /** An attempt made since the start observed exactly how its submission's program behaves. */
  ghost predicate Witnessed(start: State, st: State, c: Crew, att: AttemptId)
    requires att in st.db.attempts
  {
    att !in start.db.attempts ==>
      var s := st.db.attempts[att].submission;
      att in st.seen && s in st.db.submissions && Shows(st.db.submissions[s], st.seen[att], c.behaves(s))
  }

  /** A submission that was open at the start is judged by such an attempt, and fails only if it cannot be judged. */
  ghost predicate FairEnd(start: State, st: State, c: Crew, s: SubmissionId)
    requires s in start.db.submissions
  {
    !Terminal(start.db.submissions[s].status) ==>
      && s in st.db.submissions
      && (st.db.submissions[s].status == Final ==>
            st.db.submissions[s].current.Some? && st.db.submissions[s].current.value !in start.db.attempts)
      && (st.db.submissions[s].status == FailedInternal ==> !Judgeable(st.db.submissions[s], c.behaves(s)))
  }

  ghost predicate HolderFair(start: State, st: State, c: Crew) {
    WorkerAt(st, c.w).Holding? ==>
      var job, stage := WorkerAt(st, c.w).job, WorkerAt(st, c.w).stage;
      && job.attempt !in start.db.attempts && Current(st.db, job.attempt) && job.submission in st.db.submissions
      && (stage != Opening && stage != Broken ==> Openable(job.language, job.source, job.problem))
      && (stage == Broken ==> !Judgeable(st.db.submissions[job.submission], c.behaves(job.submission)))
  }

  ghost predicate Grounded(start: State, st: State, c: Crew) {
    && HolderFair(start, st, c)
    && (forall a :: a in start.db.attempts ==> a in st.db.attempts)
    && (forall att {:trigger Witnessed(start, st, c, att)} :: att in st.db.attempts ==> Witnessed(start, st, c, att))
    && (forall s {:trigger FairEnd(start, st, c, s)} :: s in start.db.submissions ==> FairEnd(start, st, c, s))
  }

  lemma ClaimIsFair(start: State, st: State, a: Action, c: Crew)
    requires Inv(st) && Can(st, a) && Healthy(st, a, c) && Grounded(start, st, c) && a.Claim?
    ensures HolderFair(start, Next(st, a), c)
  {
    if ClaimCall(st, a).Commit? {
      ClaimRows(st.db, WorkerAt(st, a.w).d.submission, a.w, a.lease, a.begun, a.localNow, a.attempt);
    }
  }

  /** When a test is refused, the submission cannot be judged. */
  lemma RefusedTest(row: Submission, job: Job, r: Result, ev: Evidence, b: Behaviour)
    requires JobIsRow(job, row) && Coherent(job.problem.tests, InTests(r), ev) && Follows(ev, b)
    requires !Fits(job.problem.tests[|ev.runs|])
    ensures !Judgeable(row, b)
  {
    assert Reached(row.problem.tests, b, |ev.runs|);
  }

  lemma LookStaysFair(start: State, st: State, a: Action, c: Crew)
    requires Inv(st) && Can(st, a) && Healthy(st, a, c) && Grounded(start, st, c) && a.Look?
    ensures HolderFair(start, Next(st, a), c)
  {
    var pc := WorkerAt(st, c.w);
    assert WorkerOk(st, c.w) && Witnessed(start, st, c, pc.job.attempt);
    LookIsFair(st.db.submissions[pc.job.submission], pc, c, st.seen[pc.job.attempt], a.sight);
  }

  /** What a look says about a job: it can be opened, or it cannot be judged. */
  lemma LookIsFair(row: Submission, pc: Worker, c: Crew, ev: Evidence, sight: Sight)
    requires pc.Holding? && JobIsRow(pc.job, row) && Coherent(pc.job.problem.tests, pc.stage, ev)
    requires Follows(ev, c.behaves(pc.job.submission))
    requires CanSee(pc.job.problem.tests, pc.stage, sight) && Expected(c, pc.job, pc.stage, ev, sight)
    requires pc.stage != Opening && pc.stage != Broken ==> Openable(row.language, row.source, row.problem)
    ensures var stage := See(pc.job.problem.tests, pc.stage, sight);
      && (stage != Opening && stage != Broken ==> Openable(row.language, row.source, row.problem))
      && (stage == Broken ==> !Judgeable(row, c.behaves(pc.job.submission)))
  {
    if sight == Trouble && pc.stage.InTests? {
      RefusedTest(row, pc.job, pc.stage.r, ev, c.behaves(pc.job.submission));
    }
  }

  lemma HolderStaysFair(start: State, st: State, a: Action, c: Crew)
    requires Inv(st) && Can(st, a) && Healthy(st, a, c) && Grounded(start, st, c)
    ensures HolderFair(start, Next(st, a), c)
  {
    if a.Claim? {
      ClaimIsFair(start, st, a, c);
    } else if a.Enter? {
      EnterStaysFair(start, st, a, c);
    } else if a.Look? {
      LookStaysFair(start, st, a, c);
    } else if WorkerAt(Next(st, a), c.w).Holding? {
      CurrentStays(st, a, WorkerAt(st, c.w).job.attempt);
    }
  }

  lemma EnterStaysFair(start: State, st: State, a: Action, c: Crew)
    requires Inv(st) && Can(st, a) && Healthy(st, a, c) && Grounded(start, st, c) && a.Enter?
    ensures HolderFair(start, Next(st, a), c)
  {
    assert WorkerOk(st, c.w);
  }

  lemma CurrentStays(st: State, a: Action, att: AttemptId)
    requires Inv(st) && Can(st, a) && Current(st.db, att)
    requires a.Tick? || a.LeaseBatch? || a.Post? || a.Mark?
    ensures Current(Next(st, a).db, att)
  {}

  lemma NewWitness(st: State, a: Action, c: Crew, att: AttemptId)
    requires Inv(st) && Can(st, a) && a.Claim? && a.attempt == att && att in Next(st, a).db.attempts
    ensures var s := Next(st, a).db.attempts[att].submission;
      && att in Next(st, a).seen && s in Next(st, a).db.submissions
      && Shows(Next(st, a).db.submissions[s], Next(st, a).seen[att], c.behaves(s))
  {
    DatabaseAdvances(st, a);
    assert AttemptOk(Next(st, a).db, att);
  }

  lemma HealthyClaimsAdd(st: State, a: Action, c: Crew, att: AttemptId)
    requires Can(st, a) && Healthy(st, a, c) && att !in st.db.attempts && att in Next(st, a).db.attempts
    ensures a.Claim? && a.attempt == att
  {}

  lemma LookedAtStaysWitnessed(start: State, st: State, a: Action, c: Crew, att: AttemptId)
    requires Inv(st) && Can(st, a) && Healthy(st, a, c) && Grounded(start, st, c) && a.Look?
    requires att in st.db.attempts
    ensures Witnessed(start, Next(st, a), c, att)
  {
    assert Witnessed(start, st, c, att) && WorkerOk(st, a.w);
    if WorkerAt(st, a.w).job.attempt == att && att !in start.db.attempts {
      var pc := WorkerAt(st, a.w);
      LookShows(st.db.submissions[pc.job.submission], pc, c, st.seen[att], a.sight);
    }
  }

  lemma LookShows(row: Submission, pc: Worker, c: Crew, ev: Evidence, sight: Sight)
    requires pc.Holding? && JobIsRow(pc.job, row) && Shows(row, ev, c.behaves(pc.job.submission))
    requires pc.stage != Opening && pc.stage != Broken ==> Openable(row.language, row.source, row.problem)
    requires CanSee(pc.job.problem.tests, pc.stage, sight) && Expected(c, pc.job, pc.stage, ev, sight)
    ensures Shows(row, Note(ev, sight), c.behaves(pc.job.submission))
  {}

  lemma WitnessesStay(start: State, st: State, a: Action, c: Crew, att: AttemptId)
    requires Inv(st) && Can(st, a) && Healthy(st, a, c) && Grounded(start, st, c)
    requires att in Next(st, a).db.attempts
    ensures Witnessed(start, Next(st, a), c, att)
  {
    if att !in st.db.attempts {
      HealthyClaimsAdd(st, a, c, att);
      NewWitness(st, a, c, att);
    } else if a.Look? {
      LookedAtStaysWitnessed(start, st, a, c, att);
    } else if att !in start.db.attempts {
      assert Witnessed(start, st, c, att);
      DatabaseAdvances(st, a);
      SeenStays(st, a, att);
      WitnessCarries(start, st, Next(st, a), c, att);
    }
  }

  lemma WitnessCarries(start: State, st: State, st': State, c: Crew, att: AttemptId)
    requires att in st.db.attempts && att !in start.db.attempts && Witnessed(start, st, c, att)
    requires Advance(st.db, st'.db) && att in st'.seen && st'.seen[att] == st.seen[att]
    ensures att in st'.db.attempts && Witnessed(start, st', c, att)
  {}

  lemma SeenStays(st: State, a: Action, att: AttemptId)
    requires Can(st, a) && !a.Look? && att in st.db.attempts && att in st.seen
    ensures att in Next(st, a).seen && Next(st, a).seen[att] == st.seen[att]
  {}

  lemma OnlyEndsTerminate(st: State, a: Action, s: SubmissionId)
    requires Can(st, a) && s in st.db.submissions && s in Next(st, a).db.submissions && !a.Finish? && !a.Fail?
    requires Terminal(Next(st, a).db.submissions[s].status)
    ensures Terminal(st.db.submissions[s].status)
  {
    if !WritesRows(a) {
      RowsFrame(st, a);
    }
  }

  lemma FinishIsFair(start: State, st: State, a: Action, c: Crew, s: SubmissionId)
    requires Inv(st) && Can(st, a) && Healthy(st, a, c) && Grounded(start, st, c) && a.Finish? &&
        s in start.db.submissions
    ensures FairEnd(start, Next(st, a), c, s)
  {
    assert FairEnd(start, st, c, s) && WorkerOk(st, a.w);
  }

  lemma FailIsFair(start: State, st: State, a: Action, c: Crew, s: SubmissionId)
    requires Inv(st) && Can(st, a) && Healthy(st, a, c) && Grounded(start, st, c) && a.Fail? &&
        s in start.db.submissions
    ensures FairEnd(start, Next(st, a), c, s)
  {
    assert FairEnd(start, st, c, s) && WorkerOk(st, a.w);
  }

  lemma FairEndsStay(start: State, st: State, a: Action, c: Crew, s: SubmissionId)
    requires Inv(st) && Can(st, a) && Healthy(st, a, c) && Grounded(start, st, c) && s in start.db.submissions
    ensures FairEnd(start, Next(st, a), c, s)
  {
    if a.Finish? {
      FinishIsFair(start, st, a, c, s);
    } else if a.Fail? {
      FailIsFair(start, st, a, c, s);
    } else {
      OthersAreFair(start, st, a, c, s);
    }
  }

  lemma OthersAreFair(start: State, st: State, a: Action, c: Crew, s: SubmissionId)
    requires Inv(st) && Can(st, a) && Grounded(start, st, c) && s in start.db.submissions && !a.Finish? && !a.Fail?
    ensures FairEnd(start, Next(st, a), c, s)
  {
    assert FairEnd(start, st, c, s);
    DatabaseAdvances(st, a);
    if !Terminal(start.db.submissions[s].status) && Terminal(Next(st, a).db.submissions[s].status) {
      OnlyEndsTerminate(st, a, s);
    }
  }

  lemma {:induction false} GroundedAlways(start: State, st: State, acts: seq<Action>, c: Crew)
    requires Inv(st) && Heals(st, acts, c) && Runs(st, acts) && Grounded(start, st, c)
    ensures Grounded(start, AfterAll(st, acts), c)
    decreases |acts|
  {
    if acts != [] {
      var a, st' := acts[0], Next(st, acts[0]);
      DatabaseAdvances(st, a);
      InvStep(st, a);
      HolderStaysFair(start, st, a, c);
      forall att | att in st'.db.attempts ensures Witnessed(start, st', c, att) {
        WitnessesStay(start, st, a, c, att);
      }
      forall s | s in start.db.submissions ensures FairEnd(start, st', c, s) {
        FairEndsStay(start, st, a, c, s);
      }
      GroundedAlways(start, st', acts[1..], c);
    }
  }

  /** The stored result is the one that the program's own behaviour deserves on the frozen tests. */
  ghost predicate JudgedFairly(st: State, s: SubmissionId, b: Behaviour)
    requires s in st.db.submissions
  {
    exists ev :: Follows(ev, b) && Deserved(st.db.submissions[s].problem.tests, ev, st.db.submissions[s].result)
  }

  lemma NothingBehindFailure(tests: seq<TestCase>, ev: Evidence, b: Behaviour, r: Result, k: nat)
    requires Follows(ev, b) && Deserved(tests, ev, r) && !CompileFailed(b.compile) && r.verdict != Some(Accepted)
    requires |ev.runs| <= k <= |tests|
    ensures !Reached(tests, b, k)
  {
    assert RunVerdict(b.run(r.passed), tests[r.passed]) != Accepted;
  }

  /** What was judged can be judged. */
  lemma DeservedIsJudgeable(row: Submission, ev: Evidence, b: Behaviour, r: Result)
    requires Shows(row, ev, b) && Deserved(row.problem.tests, ev, r)
    ensures Judgeable(row, b)
  {
    var tests := row.problem.tests;
    if !CompileFailed(b.compile) {
      forall k: nat | k < |tests| && Reached(tests, b, k) ensures Fits(tests[k]) {
        if k >= |ev.runs| && r.verdict != Some(Accepted) {
          NothingBehindFailure(tests, ev, b, r, k);
        }
      }
    }
  }

  /**
   From every reachable state, with any other workers and publishers stopped anywhere, a newly started worker and
   publisher have a finite fault-free continuation after which every submission is terminal and every failed one is in
   the dead stream; a submission that was still open ends FINAL, with the result that its program's behaviour deserves,
   if and only if the sandbox takes it all the way.
   */
  lemma EverySubmissionRecovers(st: State, c: Crew) returns (acts: seq<Action>, st': State)
    requires Reachable(st) && Fit(c) && c.w !in st.workers && c.p !in st.publishers
    ensures Leads(st, acts, c, st')
    ensures forall s :: s in st.db.submissions ==>
              && s in st'.db.submissions && Terminal(st'.db.submissions[s].status)
              && (st'.db.submissions[s].status == FailedInternal ==> DeadEntryFor(st', s))
    ensures forall s :: s in st.db.submissions && !Terminal(st.db.submissions[s].status) ==>
              && (st'.db.submissions[s].status == Final <==> Judgeable(st.db.submissions[s], c.behaves(s)))
              && (st'.db.submissions[s].status == Final ==> JudgedFairly(st', s, c.behaves(s)))
  {
    ReachableIsInv(st);
    acts, st' := Recover(st, c);
    GroundedAtStart(st, c);
    GroundedAlways(st, st, acts, c);
    InvAlways(st, acts);
    forall s | s in st.db.submissions
      ensures s in st'.db.submissions && Terminal(st'.db.submissions[s].status)
      ensures st'.db.submissions[s].status == FailedInternal ==> DeadEntryFor(st', s)
      ensures !Terminal(st.db.submissions[s].status) ==>
                && (st'.db.submissions[s].status == Final <==> Judgeable(st.db.submissions[s], c.behaves(s)))
                && (st'.db.submissions[s].status == Final ==> JudgedFairly(st', s, c.behaves(s))) {
      TerminalRowsAreFrozen(st, acts, s);
      NothingLeftMeansSettled(st', s);
      if !Terminal(st.db.submissions[s].status) {
        FairlyJudged(st, st', c, s);
        SameJudgement(st.db.submissions[s], st'.db.submissions[s], c.behaves(s));
      }
    }
  }

  lemma SameJudgement(row: Submission, row': Submission, b: Behaviour)
    requires SubmissionAdvances(row, row')
    ensures Judgeable(row, b) <==> Judgeable(row', b)
  {}

  lemma GroundedAtStart(st: State, c: Crew)
    requires AtRest(st, c)
    ensures Grounded(st, st, c)
  {}

  lemma FairlyJudged(start: State, st: State, c: Crew, s: SubmissionId)
    requires Inv(st) && Grounded(start, st, c) && s in start.db.submissions && s in st.db.submissions
    requires !Terminal(start.db.submissions[s].status) && Terminal(st.db.submissions[s].status)
    ensures st.db.submissions[s].status == Final <==> Judgeable(st.db.submissions[s], c.behaves(s))
    ensures st.db.submissions[s].status == Final ==> JudgedFairly(st, s, c.behaves(s))
  {
    assert FairEnd(start, st, c, s);
    if st.db.submissions[s].status == Final {
      assert SubmissionOk(st.db, s) && VerdictOk(st, s);
      var a := st.db.submissions[s].current.value;
      assert Witnessed(start, st, c, a);
      DeservedIsJudgeable(st.db.submissions[s], st.seen[a], c.behaves(s), st.db.submissions[s].result);
    }
  }
}
