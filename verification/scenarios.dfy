/** Runs that show what the protocol does not promise: each is a run from the empty state, built step by step. */
module Scenarios {
  import opened Basics
  import opened Lifecycle
  import opened Judging
  import opened Database
  import opened FenceProofs
  import opened Queue
  import opened Protocol
  import opened Invariant
  import opened Safety
  import opened Counting
  import opened Timing
  import opened Recovery
  import opened Outbox

  // One submission, up to its first message

  const PROBLEM := Problem(true, ["cpp"], 1000, 64, [TestCase("1", "1")])

  function At(db: Db, log: seq<SubmissionId>, publishers: map<string, Protocol.Publisher>): State {
    State(0, 0, db, Mq(log, 0, map[], []), map[], publishers, map[])
  }

  function Rows(event: Event): Db {
    Db(map[0 := PROBLEM], map[0 := NewSubmission(PROBLEM, "cpp", "x")], map[], map[0 := event])
  }

  const REF := OutboxEvent(0, 0)
  const NEW := NewEvent(0, 0, 0)
  const TAKEN := Event(0, 0, 0, Some("p"), Some(30000), None)
  const SENT := Event(0, 0, 0, Some("p"), None, Some(0))

  const SAVED: State := At(Db(map[0 := PROBLEM], map[], map[], map[]), [], map[])
  const CREATED: State := At(Rows(NEW), [], map[])
  const LEASED: State := At(Rows(TAKEN), [], map["p" := Posting([REF])])
  const POSTED: State := At(Rows(TAKEN), [0], map["p" := Marking(REF, [])])
  const PUBLISHED: State := At(Rows(SENT), [0], map["p" := Resting])

  const SAVE := Action.SaveProblem(0, PROBLEM)
  const CREATE := Create(0, "cpp", "x", 0, 0, 0, Clean)
  const LEASE := LeaseBatch("p", 50, 30000, {}, [0], Clean)
  const POST := Action.Post("p", Clean)

  lemma Saves()
    ensures Run(EMPTY, [SAVE], SAVED)
  {
    RunOfOne(EMPTY, SAVE);
  }

  lemma Creates()
    ensures Run(SAVED, [CREATE], CREATED)
  {
    RunOfOne(SAVED, CREATE);
    assert Next(SAVED, CREATE).db == Rows(NEW);
  }

  lemma Leases()
    ensures Can(CREATED, LEASE) && Next(CREATED, LEASE) == LEASED
  {
    assert ReadyEvents(CREATED.db, 0, {}) == {0};
    assert Refs(CREATED.db, [0]) == [REF];
    assert ClaimOutboxTx(CREATED.db, "p", 50, 30000, 0, [0]).db.outbox == map[0 := TAKEN];
  }

  lemma Posts()
    ensures Can(LEASED, POST) && Next(LEASED, POST) == POSTED
  {
    assert [REF][1..] == [];
    assert map["p" := Posting([REF])]["p" := Marking(REF, [])] == map["p" := Marking(REF, [])];
  }

  lemma Marks(fault: Fault)
    requires fault != Refused
    ensures Can(POSTED, Action.Mark("p", fault)) && Next(POSTED, Action.Mark("p", fault)) == PUBLISHED
  {
    assert map[0 := TAKEN][0 := SENT] == map[0 := SENT];
    assert map["p" := Marking(REF, [])]["p" := Resting] == map["p" := Resting];
  }

  lemma RunOn(st: State, acts: seq<Action>, mid: State, a: Action, st': State)
    requires Run(st, acts, mid) && Can(mid, a) && Next(mid, a) == st'
    ensures Run(st, acts + [a], st')
  {
    RunOfOne(mid, a);
    RunJoins(st, acts, mid, [a], st');
  }

  lemma Beginning() returns (acts: seq<Action>)
    ensures Run(EMPTY, acts, CREATED) && forall i :: 0 <= i < |acts| ==> !acts[i].Claim?
  {
    Saves();
    Creates();
    RunJoins(EMPTY, [SAVE], SAVED, [CREATE], CREATED);
    acts := [SAVE] + [CREATE];
  }

  // A mark whose reply is lost

  /**
   A publishing call that marks one event more than it counts: it leases and publishes the only event, and the reply of
   its mark is lost. The event is marked, no mark was answered, and the call has ended.
   */
  lemma LostReplyMarksOneMore() returns (opening: seq<Action>, call: seq<Action>)
    ensures Run(EMPTY, opening, CREATED) && Run(CREATED, call, PUBLISHED)
    ensures PublisherAt(CREATED, "p") == Resting && PublisherAt(PUBLISHED, "p") == Resting
    ensures PUBLISHED.db.outbox[0].publishedAt.Some?
    ensures Audit(CREATED, call, "p", BLANK) == Report([0], 0, true)
  {
    opening := Beginning();
    var mark := Action.Mark("p", ReplyLost);
    Leases();
    Posts();
    Marks(ReplyLost);
    RunOfOne(CREATED, LEASE);
    RunOn(CREATED, [LEASE], LEASED, POST, POSTED);
    RunOn(CREATED, [LEASE] + [POST], POSTED, mark, PUBLISHED);
    call := [LEASE] + [POST] + [mark];
    AuditOfOne(CREATED, LEASE, "p", BLANK);
    AuditJoins(CREATED, [LEASE], LEASED, [POST], "p", BLANK);
    AuditOfOne(LEASED, POST, "p", BLANK);
    AuditJoins(CREATED, [LEASE] + [POST], POSTED, [mark], "p", BLANK);
    AuditOfOne(POSTED, mark, "p", BLANK);
    LostMarkNoted(mark);
  }

  lemma LostMarkNoted(mark: Action)
    requires mark == Action.Mark("p", ReplyLost)
    ensures Can(POSTED, mark) && Noted(POSTED, mark, "p", BLANK) == Report([0], 0, true)
  {
  }

  // Attempts from there on

  const CLERK := Crew("w", "p", 1000, 1, 3, 50, s => Behaviour(OUTCOME, k => OUTCOME))
  const OUTCOME := Outcome("", 0, 0, 0, false, false, false)

  lemma Published() returns (acts: seq<Action>)
    ensures Run(EMPTY, acts, PUBLISHED) && forall i :: 0 <= i < |acts| ==> !acts[i].Claim?
  {
    var opening := Beginning();
    var mark := Action.Mark("p", Clean);
    Leases();
    Posts();
    Marks(Clean);
    RunOn(EMPTY, opening, CREATED, LEASE, LEASED);
    RunOn(EMPTY, opening + [LEASE], LEASED, POST, POSTED);
    RunOn(EMPTY, opening + [LEASE] + [POST], POSTED, mark, PUBLISHED);
    acts := opening + [LEASE] + [POST] + [mark];
  }

  /** The worker has received the message, and nothing else has changed but the clocks. */
  ghost predicate HasReceived(st: State, st': State, c: Crew, m: MessageId) {
    && Inv(st') && Fit(c) && PublisherAt(st', c.p) == Resting && st'.db == st.db && st'.clock >= st.clock
    && WorkerAt(st', c.w).Received? && WorkerAt(st', c.w).d.message == m && m in st'.mq.pending
    && m < |st.mq.log| && WorkerAt(st', c.w).d.submission == st.mq.log[m] && st'.mq.log == st.mq.log
    && forall v :: v != c.w ==> WorkerAt(st', v) == WorkerAt(st, v)
  }

  /** A worker at rest takes a message that is pending and idle, or the next new one. */
  lemma Receives(st: State, c: Crew, pick: Option<MessageId>) returns (acts: seq<Action>, st': State)
    requires AtRest(st, c) && CanTake(st.mq, pick, st.queueClock, c.minIdle)
    ensures Run(st, acts, st') && HasReceived(st, st', c, TakenMessage(st.mq, pick)) && st'.clock == st.clock
    ensures forall i :: 0 <= i < |acts| ==> !acts[i].Claim?
  {
    var fetch, inspect := Fetch(c.w, c.minIdle, pick, Clean), Inspect(c.w, Clean);
    FetchKeeps(st, c, fetch);
    var mid := Next(st, fetch);
    InspectKeeps(mid, c, inspect);
    st' := Next(mid, inspect);
    RunOfOne(st, fetch);
    RunOn(st, [fetch], mid, inspect, st');
    acts := [fetch] + [inspect];
    FetchedIsReceived(st, c, fetch, inspect);
  }

  lemma FetchedIsReceived(st: State, c: Crew, fetch: Action, inspect: Action)
    requires AtRest(st, c) && Can(st, fetch) && fetch.Fetch? && fetch == Fetch(c.w, c.minIdle, fetch.pick, Clean)
    requires inspect == Inspect(c.w, Clean) && Can(Next(st, fetch), inspect)
    requires var st' := Next(Next(st, fetch), inspect);
      Inv(st') && PublisherAt(st', c.p) == Resting && WorkerAt(st', c.w).Received? &&
          WorkerAt(st', c.w).d.message in st'.mq.pending
    ensures HasReceived(st, Next(Next(st, fetch), inspect), c, TakenMessage(st.mq, fetch.pick))
  {
    OneCounterMoves(st, fetch);
    OneCounterMoves(Next(st, fetch), inspect);
  }

  /** One more attempt of s; the one before it, if it was still current, has lost its lease. */
  ghost predicate TakesUp(db: Db, db': Db, s: SubmissionId, attempt: AttemptId) {
    && s in db.submissions && s in db'.submissions && attempt !in db.attempts
    && db'.attempts.Keys == db.attempts.Keys + {attempt}
    && db'.attempts[attempt].code == None && db'.submissions[s].current == Some(attempt)
    && db'.submissions[s].attempts == db.submissions[s].attempts + 1
    && (forall a :: a in db.attempts && db.submissions[s].current != Some(a) ==> db'.attempts[a] == db.attempts[a])
    && (forall a :: db.submissions[s].current == Some(a) ==>
          a in db.attempts && db.attempts[a].code == None
          && db'.attempts[a].submission == db.attempts[a].submission && db'.attempts[a].code == Some(LeaseExpired))
  }

  /** The worker holds a new attempt, and nothing else has changed. */
  ghost predicate HasTakenUp(st: State, st': State, c: Crew, m: MessageId) {
    && Working(st', c) && m < |st.mq.log| && st'.mq.log == st.mq.log
    && (forall v :: v != c.w ==> WorkerAt(st', v) == WorkerAt(st, v))
    && IsAt(st', c, m, st.mq.log[m]) && TakesUp(st.db, st'.db, st.mq.log[m], WorkerAt(st', c.w).job.attempt)
    && st'.db.submissions[st.mq.log[m]].leaseUntil == Some(st'.clock + c.lease)
  }

  /** The worker is about to evaluate this submission, for this message. */
  ghost predicate IsAt(st: State, c: Crew, m: MessageId, s: SubmissionId) {
    && WorkerAt(st, c.w).Holding? && WorkerAt(st, c.w).d.message == m && WorkerAt(st, c.w).d.submission == s
    && WorkerAt(st, c.w).job.submission == s && WorkerAt(st, c.w).stage == Opening
  }

  lemma ClaimTakesUp(db: Db, id: SubmissionId, worker: string, lease: Time, now: Time, localNow: Time,
                     attempt: AttemptId)
    requires Fence(db) && attempt !in db.attempts && ClaimTx(db, id, worker, lease, now, localNow, attempt).Commit?
    ensures TakesUp(db, ClaimTx(db, id, worker, lease, now, localNow, attempt).db, id, attempt)
    ensures ClaimTx(db, id, worker, lease, now, localNow, attempt).db.submissions[id].leaseUntil == Some(now + lease)
  {
    ClaimRows(db, id, worker, lease, now, localNow, attempt);
    CurrentHasNoCode(db, id);
  }

  lemma CurrentHasNoCode(db: Db, s: SubmissionId)
    requires Fence(db) && s in db.submissions && !Terminal(db.submissions[s].status)
    ensures db.submissions[s].current.Some? ==>
      db.submissions[s].current.value in db.attempts && db.attempts[db.submissions[s].current.value].code == None
  {
    assert SubmissionOk(db, s);
    if db.submissions[s].current.Some? {
      assert AttemptOk(db, db.submissions[s].current.value);
    }
  }

  /** Nothing holds the worker's claim back. */
  ghost predicate MayClaim(st: State, c: Crew, m: MessageId) {
    && Inv(st) && Fit(c) && PublisherAt(st, c.p) == Resting && WorkerAt(st, c.w).Received?
    && WorkerAt(st, c.w).d.message == m && m in st.mq.pending && m < |st.mq.log|
    && WorkerAt(st, c.w).d.submission == st.mq.log[m] && Unblocked(st, st.mq.log[m])
    && st.mq.log[m] in st.db.submissions && !Terminal(st.db.submissions[st.mq.log[m]].status)
  }

  lemma Claims(st: State, c: Crew, m: MessageId) returns (a: Action)
    requires MayClaim(st, c, m)
    ensures Can(st, a) && a.Claim? && Limit(a.maxDeliveries) == Limit(c.maxDeliveries) &&
        HasTakenUp(st, Next(st, a), c, m)
  {
    var attempt := SomeNumberOutside(st.db.attempts.Keys);
    a := Action.Claim(c.w, c.lease, st.clock, st.clock, c.maxDeliveries, attempt, Clean);
    ClaimCommits(st, c, a);
    ClaimWorks(st, c, a);
    OneCounterMoves(st, a);
    ClaimerIsAt(st, c, m, a);
    ClaimTakesUp(st.db, st.mq.log[m], c.w, c.lease, st.clock, st.clock, attempt);
  }

  lemma ClaimerIsAt(st: State, c: Crew, m: MessageId, a: Action)
    requires MayClaim(st, c, m) && Can(st, a) && a.Claim? && a.w == c.w && a.fault == Clean && ClaimCall(st, a).Commit?
    ensures IsAt(Next(st, a), c, m, st.mq.log[m]) && WorkerAt(Next(st, a), c.w).job.attempt == a.attempt
    ensures Next(st, a).mq == st.mq && Next(st, a).db == ClaimCall(st, a).db && Next(st, a).clock == st.clock
  {
  }

  /** Waiting for every lease, every delay and every idle time. */
  lemma Waits(st: State, c: Crew) returns (acts: seq<Action>, st': State)
    requires AtRest(st, c)
    ensures Run(st, acts, st') && AtRest(st', c) && Overdue(st', c.minIdle) && st'.db == st.db && st'.mq == st.mq
    ensures st'.workers == st.workers && forall i :: 0 <= i < |acts| ==> !acts[i].Claim?
  {
    var tick := WaitItOut(st, c);
    InvStep(st, tick);
    RunOfOne(st, tick);
    acts, st' := [tick], Next(st, tick);
  }

  /** There is an open submission behind the message to take. */
  ghost predicate Offers(st: State, pick: Option<MessageId>) {
    && (if pick.Some? then pick.value in st.mq.pending else st.mq.delivered < |st.mq.log|)
    && TakenMessage(st.mq, pick) < |st.mq.log|
    && var s := st.mq.log[TakenMessage(st.mq, pick)]; s in st.db.submissions && !Terminal(st.db.submissions[s].status)
  }

  lemma ReceivedMayClaim(st: State, mid: State, c: Crew, pick: Option<MessageId>)
    requires Overdue(st, c.minIdle) && Offers(st, pick) && mid.clock == st.clock
    requires HasReceived(st, mid, c, TakenMessage(st.mq, pick))
    ensures MayClaim(mid, c, TakenMessage(st.mq, pick))
  {
  }

  lemma LimitOfOneClaim(acts: seq<Action>, claim: Action, max: int)
    requires forall i :: 0 <= i < |acts| ==> !acts[i].Claim?
    requires claim.Claim? ==> Limit(claim.maxDeliveries) == max
    ensures SameLimit(acts + [claim], max)
  {
  }

  lemma LimitJoins(xs: seq<Action>, ys: seq<Action>, max: int)
    requires (forall i :: 0 <= i < |xs| ==> !xs[i].Claim?) && SameLimit(ys, max)
    ensures SameLimit(xs + ys, max)
  {
  }

  lemma TakeUpAtOnce(st: State, c: Crew, pick: Option<MessageId>) returns (acts: seq<Action>, st': State)
    requires AtRest(st, c) && Overdue(st, c.minIdle) && Offers(st, pick)
    ensures Run(st, acts, st') && SameLimit(acts, Limit(c.maxDeliveries)) &&
        HasTakenUp(st, st', c, TakenMessage(st.mq, pick))
  {
    var m := TakenMessage(st.mq, pick);
    var receiving, mid := Receives(st, c, pick);
    ReceivedMayClaim(st, mid, c, pick);
    var claim := Claims(mid, c, m);
    st' := Next(mid, claim);
    RunOn(st, receiving, mid, claim, st');
    ReceivedAndTakenUp(st, mid, st', c, m);
    LimitOfOneClaim(receiving, claim, Limit(c.maxDeliveries));
    acts := receiving + [claim];
  }

  lemma ReceivedAndTakenUp(st: State, mid: State, st': State, c: Crew, m: MessageId)
    requires HasReceived(st, mid, c, m) && HasTakenUp(mid, st', c, m)
    ensures HasTakenUp(st, st', c, m)
  {
  }

  /** A worker at rest waits, receives a message of an open submission, and claims it. */
  lemma TakeUp(st: State, c: Crew, pick: Option<MessageId>) returns (acts: seq<Action>, st': State)
    requires AtRest(st, c) && Offers(st, pick)
    ensures Run(st, acts, st') && SameLimit(acts, Limit(c.maxDeliveries)) &&
        HasTakenUp(st, st', c, TakenMessage(st.mq, pick))
  {
    var waiting, mid := Waits(st, c);
    var taking;
    taking, st' := TakeUpAtOnce(mid, c, pick);
    RunJoins(st, waiting, mid, taking, st');
    LimitJoins(waiting, taking, Limit(c.maxDeliveries));
    WaitedAndTakenUp(st, mid, st', c, TakenMessage(st.mq, pick));
    acts := waiting + taking;
  }

  lemma WaitedAndTakenUp(st: State, mid: State, st': State, c: Crew, m: MessageId)
    requires HasTakenUp(mid, st', c, m) && mid.db == st.db && mid.mq == st.mq && mid.workers == st.workers
    ensures HasTakenUp(st, st', c, m)
  {
  }

  // Leases that expire one after another

  /** The worker is evaluating this submission, for this message. */
  ghost predicate HasInHand(st: State, c: Crew, m: MessageId, s: SubmissionId) {
    && Working(st, c) && WorkerAt(st, c.w).d.message == m && WorkerAt(st, c.w).job.submission == s
    && m < |st.mq.log| && st.mq.log[m] == s
  }

  lemma InHandIsOpen(st: State, c: Crew, m: MessageId, s: SubmissionId)
    requires HasInHand(st, c, m, s)
    ensures s in st.db.submissions && Active(st.db.submissions[s].status)
    ensures st.db.submissions[s].current == Some(WorkerAt(st, c.w).job.attempt) && Offers(st, Some(m))
  {
    assert WorkerOk(st, c.w) && SubmissionOk(st.db, s);
  }

  /** The worker dies. */
  lemma Dies(st: State, c: Crew, m: MessageId, s: SubmissionId) returns (st': State)
    requires HasInHand(st, c, m, s)
    ensures Run(st, [StopWorker(c.w)], st') && AtRest(st', c) && Offers(st', Some(m))
    ensures st'.db == st.db && st'.mq.log == st.mq.log && s in st.db.submissions && st.db.submissions[s].current.Some?
  {
    InHandIsOpen(st, c, m, s);
    InvStep(st, StopWorker(c.w));
    RunOfOne(st, StopWorker(c.w));
    st' := Next(st, StopWorker(c.w));
  }

  /** The worker dies and comes back: after the lease it takes its own message up again. */
  lemma ExpireOnce(st: State, c: Crew, m: MessageId, s: SubmissionId) returns (acts: seq<Action>, st': State)
    requires HasInHand(st, c, m, s)
    ensures Run(st, acts, st') && SameLimit(acts, Limit(c.maxDeliveries)) && HasInHand(st', c, m, s)
    ensures s in st.db.submissions && st.db.submissions[s].current.Some?
    ensures TakesUp(st.db, st'.db, s, WorkerAt(st', c.w).job.attempt)
  {
    var mid := Dies(st, c, m, s);
    var taking;
    taking, st' := TakeUp(mid, c, Some(m));
    RunJoins(st, [StopWorker(c.w)], mid, taking, st');
    LimitJoins([StopWorker(c.w)], taking, Limit(c.maxDeliveries));
    acts := [StopWorker(c.w)] + taking;
  }

  /** Every attempt but the displaced one has expired now if and only if it had. */
  lemma OthersExpiredBefore(db: Db, db': Db, s: SubmissionId, attempt: AttemptId, a: AttemptId)
    requires TakesUp(db, db', s, attempt) && db.submissions[s].current != Some(a)
    ensures a in Ended(db', s, LeaseExpired) <==> a in Ended(db, s, LeaseExpired)
  {
  }

  lemma DisplacedExpiresNow(db: Db, db': Db, s: SubmissionId, attempt: AttemptId, a: AttemptId)
    requires Fence(db) && TakesUp(db, db', s, attempt) && db.submissions[s].current == Some(a)
    ensures a in Ended(db', s, LeaseExpired) && a !in Ended(db, s, LeaseExpired)
  {
    assert SubmissionOk(db, s);
  }

  /** Each take-up of an attempt that is still current adds one expired lease. */
  lemma TakingUpExpires(db: Db, db': Db, s: SubmissionId, attempt: AttemptId)
    requires Fence(db) && TakesUp(db, db', s, attempt)
    ensures |Ended(db', s, LeaseExpired)|
         == |Ended(db, s, LeaseExpired)| + if db.submissions[s].current.Some? then 1 else 0
  {
    var was, now, current := Ended(db, s, LeaseExpired), Ended(db', s, LeaseExpired), db.submissions[s].current;
    forall a: AttemptId | current != Some(a) ensures a in now <==> a in was {
      OthersExpiredBefore(db, db', s, attempt, a);
    }
    if current.Some? {
      DisplacedExpiresNow(db, db', s, attempt, current.value);
      assert now == was + {current.value};
    } else {
      assert now == was;
    }
  }

  /**
   For every limit and every n there is a run in which n leases of one submission expire, so that it has n + 1
   attempts.
   */
  lemma {:induction false} ExpiriesPassAnyLimit(n: nat, c: Crew) returns (acts: seq<Action>, st: State)
    requires Fit(c)
    ensures Run(EMPTY, acts, st) && SameLimit(acts, Limit(c.maxDeliveries)) && HasInHand(st, c, 0, 0)
    ensures 0 in st.db.submissions && st.db.submissions[0].attempts == n + 1
    ensures |Ended(st.db, 0, LeaseExpired)| == n
  {
    if n == 0 {
      acts, st := FirstAttempt(c);
    } else {
      var before, mid := ExpiriesPassAnyLimit(n - 1, c);
      var expiring;
      expiring, st := ExpireOnce(mid, c, 0, 0);
      TakingUpExpires(mid.db, st.db, 0, WorkerAt(st, c.w).job.attempt);
      RunJoins(EMPTY, before, mid, expiring, st);
      acts := before + expiring;
    }
  }

  lemma PublishedAtRest(c: Crew)
    requires Fit(c)
    ensures Reachable(PUBLISHED) && AtRest(PUBLISHED, c) && Offers(PUBLISHED, None)
  {
    var acts := Published();
    RunOpens(EMPTY, acts, PUBLISHED);
    ReachableIsInv(PUBLISHED);
  }

  lemma FirstAttempt(c: Crew) returns (acts: seq<Action>, st: State)
    requires Fit(c)
    ensures Run(EMPTY, acts, st) && SameLimit(acts, Limit(c.maxDeliveries)) && HasInHand(st, c, 0, 0)
    ensures HasTakenUp(PUBLISHED, st, c, 0)
    ensures 0 in st.db.submissions && st.db.submissions[0].attempts == 1 && |Ended(st.db, 0, LeaseExpired)| == 0
  {
    var publishing := Published();
    PublishedAtRest(c);
    var taking;
    taking, st := TakeUp(PUBLISHED, c, None);
    RunJoins(EMPTY, publishing, PUBLISHED, taking, st);
    acts := publishing + taking;
    TakingUpExpires(PUBLISHED.db, st.db, 0, WorkerAt(st, c.w).job.attempt);
    assert Ended(PUBLISHED.db, 0, LeaseExpired) == {};
  }

  // A worker whose clock is ahead

  /** After a while on the clock of the queue alone, another worker receives the message that is in hand. */
  lemma SecondReceives(st: State, c: Crew, d: Crew, m: MessageId, s: SubmissionId)
      returns (acts: seq<Action>, st': State)
    requires HasInHand(st, c, m, s) && AtRest(st, d)
    ensures Run(st, acts, st') && HasReceived(st, st', d, m) && st'.clock == st.clock
  {
    var tick := Tick(0, Max(0, st.mq.pending[m].since + d.minIdle - st.queueClock));
    var mid := Next(st, tick);
    InvStep(st, tick);
    RunOfOne(st, tick);
    var receiving;
    receiving, st' := Receives(mid, d, Some(m));
    RunJoins(st, [tick], mid, receiving, st');
    acts := [tick] + receiving;
  }

  /**
   A reachable state in which a lease is still running, and a claim whose worker reads a clock past its end: it
   displaces the attempt although the database clock has not reached the end of the lease.
   */
  lemma ClockAheadDisplacesLiveLease() returns (st: State, claim: Action, a: AttemptId)
    ensures Reachable(st) && Can(st, claim) && claim.Claim? && Current(st.db, a) && Active(st.db.attempts[a].status)
    ensures var until := st.db.submissions[st.db.attempts[a].submission].leaseUntil;
      until.Some? && claim.localNow >= until.value > st.clock
    ensures a in Next(st, claim).db.attempts && Next(st, claim).db.attempts[a].code == Some(LeaseExpired)
    ensures !Current(Next(st, claim).db, a)
  {
    var other := CLERK.(w := "v");
    var acts, base := FirstAttempt(CLERK);
    InHandIsOpen(base, CLERK, 0, 0);
    a := WorkerAt(base, "w").job.attempt;
    var receiving;
    receiving, st := SecondReceives(base, CLERK, other, 0, 0);
    RunJoins(EMPTY, acts, base, receiving, st);
    RunOpens(EMPTY, acts + receiving, st);
    var until := st.db.submissions[0].leaseUntil.value;
    var attempt := SomeNumberOutside(st.db.attempts.Keys);
    claim := Action.Claim("v", 1000, st.clock, until, 3, attempt, Clean);
    SubmissionOfCurrent(st.db, 0);
    ClaimDisplacesIffPastLease(st, claim);
  }

  lemma SubmissionOfCurrent(db: Db, s: SubmissionId)
    requires Fence(db) && s in db.submissions && Active(db.submissions[s].status)
    ensures db.submissions[s].current.Some? && db.submissions[s].current.value in db.attempts
    ensures var a := db.submissions[s].current.value;
      db.attempts[a].submission == s && Current(db, a) && Active(db.attempts[a].status)
  {
    assert SubmissionOk(db, s);
  }

  // A displaced worker whose submission is queued again

  /** What the failing evaluation of a current attempt leaves behind, when it is to be retried. */
  ghost predicate HasRetried(st: State, st': State, c: Crew, s: SubmissionId) {
    && Inv(st') && s in st'.db.submissions && st'.db.submissions[s].status == Queued
    && st'.db.submissions[s].retryAfter.Some?
    && WorkerAt(st', c.w).Acking? && PublisherAt(st', c.p) == PublisherAt(st, c.p) && st'.mq == st.mq
    && forall v :: v != c.w ==> WorkerAt(st', v) == WorkerAt(st, v)
  }

  lemma Fails(st: State, c: Crew, m: MessageId, s: SubmissionId) returns (a: Action)
    requires HasInHand(st, c, m, s) && WorkerAt(st, c.w).stage == Opening
    ensures Can(st, a) && HasInHand(Next(st, a), c, m, s) && WorkerAt(Next(st, a), c.w).stage == Broken
    ensures WorkerAt(Next(st, a), c.w).job == WorkerAt(st, c.w).job && Next(st, a).mq == st.mq
    ensures PublisherAt(Next(st, a), c.p) == PublisherAt(st, c.p)
    ensures forall v :: v != c.w ==> WorkerAt(Next(st, a), v) == WorkerAt(st, v)
  {
    a := Look(c.w, Trouble);
    assert WorkerOk(st, c.w);
    LookKeepsWorking(st, c, a);
    OneCounterMoves(st, a);
  }

  lemma Retries(st: State, c: Crew, m: MessageId, s: SubmissionId) returns (a: Action)
    requires HasInHand(st, c, m, s) && WorkerAt(st, c.w).stage == Broken &&
        WorkerAt(st, c.w).job.number < Limit(c.maxDeliveries)
    ensures Can(st, a) && HasRetried(st, Next(st, a), c, s)
  {
    var e := SomeNumberOutside(st.db.outbox.Keys);
    a := Action.Retry(c.w, st.clock, e, Clean);
    assert WorkerOk(st, c.w);
    RetryDecides(st, c, a);
    OneCounterMoves(st, a);
  }

  lemma FailsAndRetries(st: State, c: Crew, m: MessageId, s: SubmissionId) returns (acts: seq<Action>, st': State)
    requires HasInHand(st, c, m, s) && WorkerAt(st, c.w).stage == Opening &&
        WorkerAt(st, c.w).job.number < Limit(c.maxDeliveries)
    ensures Run(st, acts, st') && HasRetried(st, st', c, s)
  {
    var look := Fails(st, c, m, s);
    var mid := Next(st, look);
    var retry := Retries(mid, c, m, s);
    st' := Next(mid, retry);
    RunOfOne(st, look);
    RunOn(st, [look], mid, retry, st');
    acts := [look] + [retry];
  }

  const SECOND := CLERK.(w := "v")

  /** The first worker falls behind, the second takes over, fails, and puts the submission back. */
  lemma DisplacedAndRequeued() returns (acts: seq<Action>, st: State)
    ensures Run(EMPTY, acts, st) && Inv(st) && 0 in st.db.submissions && st.db.submissions[0].status == Queued
    ensures st.db.submissions[0].retryAfter.Some? && 0 in st.mq.pending && 0 < |st.mq.log| && st.mq.log[0] == 0
    ensures WorkerAt(st, "w").Holding? && WorkerAt(st, "w").job.submission == 0 && PublisherAt(st, "p") == Resting
    ensures forall v :: v != "w" && v != "v" ==> WorkerAt(st, v) == Idle
  {
    var starting, base := FirstAttempt(CLERK);
    InHandIsOpen(base, CLERK, 0, 0);
    var taking, taken := TakeUp(base, SECOND, Some(0));
    SecondAttempt(base, taken);
    var failing;
    failing, st := FailsAndRetries(taken, SECOND, 0, 0);
    RunJoins(EMPTY, starting, base, taking, taken);
    RunJoins(EMPTY, starting + taking, taken, failing, st);
    acts := starting + taking + failing;
  }

  lemma SecondAttempt(base: State, taken: State)
    requires HasInHand(base, CLERK, 0, 0) && 0 in base.db.submissions && base.db.submissions[0].attempts == 1
    requires HasTakenUp(base, taken, SECOND, 0)
    ensures HasInHand(taken, SECOND, 0, 0) && WorkerAt(taken, "v").job.number == 2
  {
    assert WorkerOk(taken, "v") && SubmissionOk(taken.db, 0);
  }

  /** A reachable state in which a displaced worker's call is answered with a scan error instead of ErrStaleAttempt. */
  lemma StaleCallIsNullScan() returns (st: State)
    ensures Reachable(st) && WorkerAt(st, "w").Holding? && EnterCall(st, "w") == Reject(NullScan)
    ensures forall begun :: FailCall(st, "w", begun) == Reject(NullScan)
    ensures forall begun, e :: RetryCall(st, "w", begun, e) == Reject(NullScan)
  {
    var acts;
    acts, st := DisplacedAndRequeued();
    RunOpens(EMPTY, acts, st);
    assert SubmissionOk(st.db, 0) && WorkerOk(st, "w");
    forall begun: Time, e: EventId
      ensures EnterCall(st, "w") == Reject(NullScan) && FailCall(st, "w", begun) == Reject(NullScan)
      ensures RetryCall(st, "w", begun, e) == Reject(NullScan) {
      SupersededGets(st, "w", begun, e);
    }
  }

  // A claim that waits for its row

  /**
   A reachable state and a claim that no clock is to blame for: its transaction begins before the retry delay ends and
   gets the row after. The attempt that it starts is stored with a time before the end of the delay.
   */
  lemma WaitingClaimIsStoredTooEarly() returns (st: State, claim: Action)
    ensures Reachable(st) && Can(st, claim) && Starts(st, claim) && claim.localNow == st.clock
    ensures !BeganInTime(st, claim) && !AllSpaced(Next(st, claim).db)
  {
    var acts;
    acts, st := ThirdReceives();
    RunOpens(EMPTY, acts, st);
    var attempt := SomeNumberOutside(st.db.attempts.Keys);
    claim := Action.Claim("u", 1000, st.db.submissions[0].retryAfter.value - 1, st.clock, 3, attempt, Clean);
    NumberIsFree(st.db, 0, claim.begun);
    InvInitially();
    SpacedAlways(EMPTY, acts);
    AllSpacedStep(st, claim);
  }

  lemma ThirdReceives() returns (acts: seq<Action>, st: State)
    ensures Run(EMPTY, acts, st) && Inv(st) && WorkerAt(st, "u").Received? && WorkerAt(st, "u").d.submission == 0
    ensures 0 in st.db.submissions && st.db.submissions[0].status == Queued
    ensures st.db.submissions[0].retryAfter.Some? && st.db.submissions[0].retryAfter.value <= st.clock
  {
    var third := CLERK.(w := "u");
    var requeuing, queued := DisplacedAndRequeued();
    var waiting, due := Waits(queued, third);
    var receiving;
    receiving, st := Receives(due, third, Some(0));
    RunJoins(EMPTY, requeuing, queued, waiting, due);
    RunJoins(EMPTY, requeuing + waiting, due, receiving, st);
    acts := requeuing + waiting + receiving;
  }

  // Overlapping reconciliations

  /** The only submission's only event was published more than five minutes ago, and nobody has judged it yet. */
  const OVERDUE: State := Later(PUBLISHED, RECONCILE_AGE + 1)

  /** Two statements that begin d apart, both before the first inserts, give it two more events d apart. */
  lemma OverlapIsReachable(d: nat) returns (acts: seq<Action>, st: State)
    ensures Reachable(OVERDUE) && Run(OVERDUE, acts, st)
    ensures Picks(OVERDUE, InsertOne(OVERDUE.clock, 0, 1), 0) &&
        Picks(Later(OVERDUE, d), InsertOne(OVERDUE.clock + d, 0, 2), 0)
    ensures 1 in st.db.outbox && 2 in st.db.outbox
    ensures st.db.outbox[1] == NewEvent(0, OVERDUE.clock, 0) && st.db.outbox[2] == NewEvent(0, OVERDUE.clock + d, 0)
  {
    var publishing := Published();
    TickRuns(PUBLISHED, RECONCILE_AGE + 1);
    RunJoins(EMPTY, publishing, PUBLISHED, [Tick(RECONCILE_AGE + 1, 0)], OVERDUE);
    RunOpens(EMPTY, publishing + [Tick(RECONCILE_AGE + 1, 0)], OVERDUE);
    assert NeedsEvent(OVERDUE.db, 0, OVERDUE.clock);
    acts, st := OverlappingReconciliationsDuplicate(OVERDUE, 0, d, 1, 2);
  }
}
