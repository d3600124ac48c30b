/** The rows of PostgreSQL and what each transaction of internal/database does to them. */
module Database {
  import opened Basics
  import opened Lifecycle
  import opened Judging

  type ProblemId = nat
  type EventId = nat

  datatype ErrorCode = LeaseExpired | Transient | AttemptsExhausted

  datatype Submission = Submission(
    problem: Problem, language: string, source: string,
    status: Status, result: Result, current: Option<AttemptId>,
    leaseUntil: Option<Time>, retryAfter: Option<Time>, attempts: int, finishedAt: Option<Time>)

  datatype Attempt = Attempt(
    submission: SubmissionId, number: int, worker: string, status: Status,
    code: Option<ErrorCode>, startedAt: Time, finishedAt: Option<Time>)

  datatype Event = Event(
    submission: SubmissionId, createdAt: Time, availableAt: Time,
    claimedBy: Option<string>, claimedUntil: Option<Time>, publishedAt: Option<Time>)

  datatype Db = Db(
    problems: map<ProblemId, Problem>,
    submissions: map<SubmissionId, Submission>,
    attempts: map<AttemptId, Attempt>,
    outbox: map<EventId, Event>)

  /** A transaction commits new rows and a value, or leaves everything as it was. */
  datatype Tx<+T> = Commit(db: Db, value: T) | Reject(error: Error)

  /** The rows after a call: nothing is written when the request is lost or the transaction rejects. */
  function Stored<T>(db: Db, tx: Tx<T>, fault: Fault): Db {
    if fault == Refused || tx.Reject? then db else tx.db
  }

  /** What the caller sees. */
  function Reported<T>(tx: Tx<T>, fault: Fault): Reply<T> {
    if fault != Clean then Err(Unavailable) else if tx.Commit? then Ok(tx.value) else Err(tx.error)
  }

  function After(t: Option<Time>, now: Time): bool {
    t.Some? && t.value > now
  }

  // internal/database/store.go

  function SaveProblemTx(db: Db, id: ProblemId, p: Problem): Tx<()> {
    Commit(db.(problems := db.problems[id := p]), ())
  }

  function NewSubmission(p: Problem, language: string, source: string): Submission {
    Submission(p, language, source, Queued, Blank(|p.tests|), None, None, None, 0, None)
  }

  function NewEvent(s: SubmissionId, now: Time, delay: Time): Event {
    Event(s, now, now + delay, None, None, None)
  }

  function CreateTx(db: Db, id: ProblemId, language: string, source: string, now: Time,
                    s: SubmissionId, e: EventId): Tx<SubmissionId> {
    if Utf8Length(source) < 1 || Utf8Length(source) > 65536 then Reject(Invalid)
    else if id !in db.problems then Reject(NoRows)
    else if !db.problems[id].published || language !in db.problems[id].languages then Reject(Invalid)
    else Commit(db.(submissions := db.submissions[s := NewSubmission(db.problems[id], language, source)],
                    outbox := db.outbox[e := NewEvent(s, now, 0)]), s)
  }

  // internal/database/judging.go

  predicate Exhausted(db: Db, s: Submission) {
    s.current.Some? && s.current.value in db.attempts && db.attempts[s.current.value].code == Some(AttemptsExhausted)
  }

  /** Marks a displaced attempt, when its status still allows it. */
  function Displace(attempts: map<AttemptId, Attempt>, a: AttemptId, now: Time): map<AttemptId, Attempt> {
    if a in attempts && Active(attempts[a].status) then
      attempts[a := attempts[a].(status := FailedInternal, code := Some(LeaseExpired), finishedAt := Some(now))]
    else attempts
  }

  predicate NumberTaken(attempts: map<AttemptId, Attempt>, s: SubmissionId, n: int) {
    exists b | b in attempts :: attempts[b].submission == s && attempts[b].number == n
  }

  /**
   now is the time at which the transaction began, which PostgreSQL's now() stays at; localNow is the worker's own
   clock, read once the row is locked, and only the latter gates the claim.
   */
  function ClaimTx(db: Db, id: SubmissionId, worker: string, lease: Time, now: Time, localNow: Time,
                   attempt: AttemptId): Tx<Job> {
    if worker == "" || lease <= 0 then Reject(Invalid)
    else if id !in db.submissions then Reject(NoRows)
    else
      var s := db.submissions[id];
      if Terminal(s.status) then Reject(AlreadyTerminal(Exhausted(db, s)))
      else if After(s.retryAfter, localNow) then Reject(Busy)
      else if s.status != Queued && After(s.leaseUntil, localNow) then Reject(Busy)
      else
        var attempts :=
          if s.status != Queued && s.current.Some? then Displace(db.attempts, s.current.value, now) else db.attempts;
        var n := s.attempts + 1;
        if NumberTaken(attempts, id, n) then Reject(UniqueViolation)
        else
          Commit(db.(attempts := attempts[attempt := Attempt(id, n, worker, Claimed, None, now, None)],
                     submissions := db.submissions[id := s.(status := Claimed, current := Some(attempt),
                                                           leaseUntil := Some(now + lease), retryAfter := None,
                                                               attempts := n)]),
                 Job(id, attempt, n, s.language, s.source, s.problem))
  }

  /** The attempt owns the fence. */
  predicate Current(db: Db, a: AttemptId) {
    a in db.attempts && db.attempts[a].submission in db.submissions
    && db.submissions[db.attempts[a].submission].current == Some(a)
  }

  /** The attempt joined with its submission, provided that the attempt still owns the fence. */
  function Fenced(db: Db, a: AttemptId): Reply<SubmissionId> {
    if a !in db.attempts || db.attempts[a].submission !in db.submissions then Err(NoRows)
    else
      var s := db.attempts[a].submission;
      if db.submissions[s].current == None then Err(NullScan)
      else if db.submissions[s].current != Some(a) then Err(Stale)
      else Ok(s)
  }

  function TransitionTx(db: Db, a: AttemptId, to: Status): Tx<()> {
    var f := Fenced(db, a);
    if f.Err? then Reject(f.error)
    else if !CanTransition(db.attempts[a].status, to) then Reject(Invalid)
    else Commit(db.(attempts := db.attempts[a := db.attempts[a].(status := to)],
                    submissions := db.submissions[f.value := db.submissions[f.value].(status := to)]), ())
  }

  /** The rows that the single UPDATE of Renew matches. */
  predicate Renewable(s: Submission, a: AttemptId) {
    s.current == Some(a) && Active(s.status)
  }

  function RenewRows(db: Db, a: AttemptId, until: Time): map<SubmissionId, Submission> {
    map i | i in db.submissions ::
      if Renewable(db.submissions[i], a) then db.submissions[i].(leaseUntil := Some(until)) else db.submissions[i]
  }

  /** One statement, committed on its own: a row count other than one is only reported. */
  function RenewTx(db: Db, a: AttemptId, lease: Time, now: Time): Tx<Reply<()>> {
    if lease <= 0 then Reject(Invalid)
    else
      var rows := set i | i in db.submissions && Renewable(db.submissions[i], a);
      Commit(db.(submissions := RenewRows(db, a, now + lease)), if |rows| == 1 then Ok(()) else Err(Stale))
  }

  predicate MayFinish(status: Status, r: Result) {
    status == Running || (status == Compiling && r.verdict == Some(CompilationError))
  }

  function FinishTx(db: Db, a: AttemptId, r: Result, now: Time): Tx<()> {
    var f := Fenced(db, a);
    if f.Err? then Reject(f.error)
    else if !MayFinish(db.attempts[a].status, r) then Reject(Invalid)
    else Commit(db.(attempts := db.attempts[a := db.attempts[a].(status := Final, finishedAt := Some(now))],
                    submissions := db.submissions[f.value := db.submissions[f.value].(
                                     status := Final, result := r, leaseUntil := None, retryAfter := None,
                                     finishedAt := Some(now))]), ())
  }

  /** There is no status guard here, and none in FailTx. */
  function RetryTx(db: Db, a: AttemptId, delay: Time, now: Time, e: EventId): Tx<()> {
    if delay < 0 || delay > RETRY_LIMIT then Reject(Invalid)
    else
      var f := Fenced(db, a);
      if f.Err? then Reject(f.error)
      else Commit(db.(attempts := db.attempts[a := db.attempts[a].(
                                       status := FailedInternal, code := Some(Transient), finishedAt := Some(now))],
                      submissions := db.submissions[f.value := db.submissions[f.value].(
                                       status := Queued, current := None, leaseUntil := None,
                                           retryAfter := Some(now + delay))],
                      outbox := db.outbox[e := NewEvent(f.value, now, delay)]), ())
  }

  function FailTx(db: Db, a: AttemptId, now: Time): Tx<()> {
    var f := Fenced(db, a);
    if f.Err? then Reject(f.error)
    else Commit(db.(attempts := db.attempts[a := db.attempts[a].(
                                     status := FailedInternal, code := Some(AttemptsExhausted),
                                         finishedAt := Some(now))],
                    submissions := db.submissions[f.value := db.submissions[f.value].(
                                     status := FailedInternal, leaseUntil := None, retryAfter := None,
                                     finishedAt := Some(now))]), ())
  }

  // The outbox

  datatype OutboxEvent = OutboxEvent(id: EventId, submission: SubmissionId)

  predicate Ready(e: Event, now: Time) {
    e.publishedAt == None && e.availableAt <= now && (e.claimedUntil == None || e.claimedUntil.value < now)
  }

  function ReadyEvents(db: Db, now: Time, locked: set<EventId>): set<EventId> {
    set e | e in db.outbox && Ready(db.outbox[e], now) && e !in locked
  }

  /** ORDER BY created_at LIMIT: the oldest rows of the pool, as many as allowed, each once. */
  ghost predicate Oldest(db: Db, pool: set<EventId>, limit: int, batch: seq<EventId>)
    requires pool <= db.outbox.Keys
  {
    && |batch| <= limit
    && (forall i, j :: 0 <= i < j < |batch| ==> batch[i] != batch[j])
    && (forall e :: e in batch ==> e in pool)
    && (|batch| == limit || forall e :: e in pool ==> e in batch)
    && (forall e, d :: e in batch && d in pool && d !in batch ==> db.outbox[e].createdAt <= db.outbox[d].createdAt)
  }

  ghost predicate IsBatch(db: Db, now: Time, limit: int, locked: set<EventId>, batch: seq<EventId>) {
    Oldest(db, ReadyEvents(db, now, locked), limit, batch)
  }

  predicate BatchArguments(publisher: string, limit: int, lease: Time) {
    publisher != "" && 1 <= limit <= 100 && lease > 0
  }

  function Refs(db: Db, batch: seq<EventId>): (refs: seq<OutboxEvent>)
    requires forall e :: e in batch ==> e in db.outbox
    ensures |refs| == |batch|
    ensures forall i :: 0 <= i < |refs| ==> refs[i] == OutboxEvent(batch[i], db.outbox[batch[i]].submission)
  {
    seq(|batch|, i requires 0 <= i < |batch| => OutboxEvent(batch[i], db.outbox[batch[i]].submission))
  }

  function ClaimOutboxTx(db: Db, publisher: string, limit: int, lease: Time, now: Time,
                         batch: seq<EventId>): Tx<seq<OutboxEvent>>
    requires forall e :: e in batch ==> e in db.outbox
  {
    if !BatchArguments(publisher, limit, lease) then Reject(Invalid)
    else Commit(db.(outbox := map e | e in db.outbox ::
                                if e in batch then db.outbox[e].(claimedBy := Some(publisher),
                                    claimedUntil := Some(now + lease))
                                else db.outbox[e]), Refs(db, batch))
  }

  function MarkPublishedTx(db: Db, e: EventId, now: Time): Tx<()> {
    if e !in db.outbox || db.outbox[e].publishedAt != None then Reject(NoRows)
    else Commit(db.(outbox := db.outbox[e := db.outbox[e].(publishedAt := Some(now), claimedUntil := None)]), ())
  }

  const RECONCILE_AGE: Time := 5 * 60 * 1000

  /** Queued, past its retry delay, with no unpublished event and no event of the last five minutes. */
  predicate NeedsEvent(db: Db, s: SubmissionId, now: Time) {
    && s in db.submissions
    && db.submissions[s].status == Queued
    && !After(db.submissions[s].retryAfter, now)
    && (forall e | e in db.outbox :: db.outbox[e].submission == s ==>
          db.outbox[e].publishedAt != None && db.outbox[e].createdAt < now - RECONCILE_AGE)
  }

  /**
   What an INSERT ... SELECT may insert: it picked the submissions from the snapshot that it began with and locked none
   of them, so of what it picked them for nothing but their existence is certain by now. The identifiers are new.
   */
  ghost predicate Insertable(db: Db, ids: map<SubmissionId, EventId>) {
    && (forall s :: s in ids ==> s in db.submissions && ids[s] !in db.outbox)
    && Injective(ids)
  }

  predicate Injective(ids: map<SubmissionId, EventId>) {
    forall s, t | s in ids && t in ids :: s != t ==> ids[s] != ids[t]
  }

  ghost function Addressee(ids: map<SubmissionId, EventId>, e: EventId): SubmissionId
    requires e in ids.Values
    ensures Addressee(ids, e) in ids && ids[Addressee(ids, e)] == e
  {
    var s :| s in ids && ids[s] == e;
    s
  }

  ghost function ReconcileTx(db: Db, now: Time, ids: map<SubmissionId, EventId>): Tx<nat> {
    Commit(db.(outbox := map e | e in db.outbox.Keys + ids.Values ::
                           if e in db.outbox then db.outbox[e] else NewEvent(Addressee(ids, e), now, 0)), |ids|)
  }

  // The fence invariant

  ghost predicate SubmissionOk(db: Db, i: SubmissionId)
    requires i in db.submissions
  {
    var s := db.submissions[i];
    && 0 <= s.attempts
    && (s.status == Queued <==> s.current == None)
    && (s.current.Some? ==>
          && s.current.value in db.attempts
          && db.attempts[s.current.value].submission == i
          && db.attempts[s.current.value].number == s.attempts
          && db.attempts[s.current.value].status == s.status)
    && (Active(s.status) <==> s.leaseUntil.Some?)
    && (s.retryAfter.Some? ==> s.status == Queued)
    && (s.finishedAt.Some? <==> Terminal(s.status))
    && (Terminal(s.status) && s.current.Some? ==> s.finishedAt == db.attempts[s.current.value].finishedAt)
  }

  /** A superseded attempt has failed; the codes tell how. */
  ghost predicate AttemptOk(db: Db, a: AttemptId)
    requires a in db.attempts
  {
    var r := db.attempts[a];
    && r.submission in db.submissions
    && 1 <= r.number <= db.submissions[r.submission].attempts
    && r.status != Queued
    && (db.submissions[r.submission].current != Some(a) ==>
          r.status == FailedInternal && (r.code == Some(Transient) || r.code == Some(LeaseExpired)))
    && (db.submissions[r.submission].current == Some(a) ==>
          r.code == if r.status == FailedInternal then Some(AttemptsExhausted) else None)
    && (r.code == Some(LeaseExpired) ==> r.number < db.submissions[r.submission].attempts)
  }

  ghost predicate HasNumber(db: Db, s: SubmissionId, n: int) {
    exists a :: a in db.attempts && db.attempts[a].submission == s && db.attempts[a].number == n
  }

  ghost predicate NumbersDiffer(db: Db, a: AttemptId, b: AttemptId)
    requires a in db.attempts && b in db.attempts
  {
    a != b && db.attempts[a].submission == db.attempts[b].submission ==> db.attempts[a].number != db.attempts[b].number
  }

  /** Every submission's attempts carry the numbers 1..attempts, each exactly once. */
  ghost predicate Numbered(db: Db) {
    && (forall a, b {:trigger NumbersDiffer(db, a, b)} :: a in db.attempts && b in db.attempts ==>
        NumbersDiffer(db, a, b))
    && (forall s, n {:trigger HasNumber(db, s, n)} :: s in db.submissions && 1 <= n <= db.submissions[s].attempts ==>
        HasNumber(db, s, n))
  }

  ghost predicate EventOk(db: Db, e: EventId)
    requires e in db.outbox
  {
    db.outbox[e].submission in db.submissions
  }

  // The quantifiers name their instances, so that proofs choose which rows to look at.
  ghost predicate Fence(db: Db) {
    && (forall i {:trigger SubmissionOk(db, i)} :: i in db.submissions ==> SubmissionOk(db, i))
    && (forall a {:trigger AttemptOk(db, a)} :: a in db.attempts ==> AttemptOk(db, a))
    && Numbered(db)
    && (forall e {:trigger EventOk(db, e)} :: e in db.outbox ==> EventOk(db, e))
  }
}
