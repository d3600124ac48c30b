/**
 The rows and the stream as what has happened: every stored time is the beginning of the transaction that wrote it, and
 log, pending list and dead stream are accounts of the calls along the run.
 */
module History {
  import opened Basics
  import opened Lifecycle
  import opened Judging
  import opened Database
  import opened FenceProofs
  import opened Queue
  import opened Protocol
  import opened Invariant
  import opened Timing

  // The stream

  /** The request reaches Redis. */
  predicate Arrives(fault: Fault) {
    fault == Clean || fault == ReplyLost
  }

  /** The submission for which a call appends a message, if it does. */
  function SentBy(st: State, a: Action): seq<SubmissionId>
    requires a.Post? ==> PublisherAt(st, a.p).Posting? && PublisherAt(st, a.p).todo != []
  {
    if a.Post? && Arrives(a.fault) then [PublisherAt(st, a.p).todo[0].submission] else []
  }

  /** The submissions that publishers have sent along a run, in order. */
  ghost function Sent(st: State, acts: seq<Action>): seq<SubmissionId>
    requires Runs(st, acts)
    decreases |acts|
  {
    if acts == [] then [] else SentBy(st, acts[0]) + Sent(Next(st, acts[0]), acts[1..])
  }

  /** The call hands message m to its worker. */
  predicate Takes(st: State, a: Action, m: MessageId) {
    a.Fetch? && Arrives(a.fault) && m == match a.pick case Some(k) => k case None => st.mq.delivered
  }

  /** How often message m was handed out along a run. */
  ghost function TimesTaken(st: State, acts: seq<Action>, m: MessageId): nat
    requires Runs(st, acts)
    decreases |acts|
  {
    if acts == [] then 0 else (if Takes(st, acts[0], m) then 1 else 0) + TimesTaken(Next(st, acts[0]), acts[1..], m)
  }

  /** Worker w was the last to whom message m was handed, at this time on the clock of Redis. */
  ghost predicate LastTaken(st: State, acts: seq<Action>, m: MessageId, w: string, t: Time)
    requires Runs(st, acts)
    decreases |acts|
  {
    acts != [] &&
    (|| LastTaken(Next(st, acts[0]), acts[1..], m, w, t)
     || (Takes(st, acts[0], m) && acts[0].w == w && st.queueClock == t
         && TimesTaken(Next(st, acts[0]), acts[1..], m) == 0))
  }

  /** The call acknowledges message m, on its own or with its copy to the dead stream. */
  predicate Answers(st: State, a: Action, m: MessageId) {
    || (a.Ack? && Arrives(a.fault) && WorkerAt(st, a.w).Acking? && WorkerAt(st, a.w).d.message == m)
    || (a.Bury? && Arrives(a.fault) && WorkerAt(st, a.w).Burying? && WorkerAt(st, a.w).d.message == m)
  }

  ghost predicate Answered(st: State, acts: seq<Action>, m: MessageId)
    requires Runs(st, acts)
    decreases |acts|
  {
    acts != [] && (Answers(st, acts[0], m) || Answered(Next(st, acts[0]), acts[1..], m))
  }

  /** What a call copies to the dead stream. */
  function BuriedBy(st: State, a: Action): seq<DeadEntry> {
    if a.Bury? && Arrives(a.fault) && WorkerAt(st, a.w).Burying? then
      var d := WorkerAt(st, a.w).d;
      [DeadEntry(d.submission, d.message, d.deliveries, "attempts_exhausted")]
    else []
  }

  ghost function Burials(st: State, acts: seq<Action>): seq<DeadEntry>
    requires Runs(st, acts)
    decreases |acts|
  {
    if acts == [] then [] else BuriedBy(st, acts[0]) + Burials(Next(st, acts[0]), acts[1..])
  }

  lemma LogGrows(st: State, a: Action)
    requires Can(st, a)
    ensures Next(st, a).mq.log == st.mq.log + SentBy(st, a)
  {
    if !a.Post? && !a.Fetch? && !a.Ack? && !a.Bury? {
      QueueFrame(st, a);
    }
  }

  lemma DeadGrows(st: State, a: Action)
    requires Can(st, a)
    ensures Next(st, a).mq.dead == st.mq.dead + BuriedBy(st, a)
  {
    if !a.Post? && !a.Fetch? && !a.Ack? && !a.Bury? {
      QueueFrame(st, a);
    }
  }

  lemma TakingWrites(st: State, a: Action, m: MessageId)
    requires Inv(st) && Can(st, a) && Takes(st, a, m)
    ensures var mq, mq' := st.mq, Next(st, a).mq;
      && m < |mq.log| && m < mq'.delivered && mq'.pending.Keys == mq.pending.Keys + {m}
      && mq'.pending[m] == Pending(a.w, st.queueClock, if m in mq.pending then mq.pending[m].count + 1 else 1)
      && (m in mq.pending || mq.delivered <= m)
  {
  }

  lemma AnsweringRemoves(st: State, a: Action, m: MessageId)
    requires Inv(st) && Can(st, a) && Answers(st, a, m)
    ensures m !in Next(st, a).mq.pending && m < Next(st, a).mq.delivered
  {
    assert WorkerOk(st, a.w);
  }

  lemma OthersLeaveMessages(st: State, a: Action, m: MessageId)
    requires Inv(st) && Can(st, a) && !Takes(st, a, m) && !Answers(st, a, m)
    ensures m in Next(st, a).mq.pending <==> m in st.mq.pending
    ensures m in st.mq.pending ==> Next(st, a).mq.pending[m] == st.mq.pending[m]
    ensures m < Next(st, a).mq.delivered <==> m < st.mq.delivered
  {
    if !a.Post? && !a.Fetch? && !a.Ack? && !a.Bury? {
      QueueFrame(st, a);
    }
  }

  /** The message has been handed out and is pending no longer. */
  ghost predicate Closed(mq: Mq, m: MessageId) {
    m < mq.delivered && m !in mq.pending
  }

  function CountOf(mq: Mq, m: MessageId): int {
    if m in mq.pending then mq.pending[m].count else 0
  }

  lemma MessageStep(st: State, a: Action, m: MessageId)
    requires Inv(st) && Can(st, a)
    ensures Closed(Next(st, a).mq, m) <==> Closed(st.mq, m) || Answers(st, a, m)
    ensures m in Next(st, a).mq.pending ==>
      CountOf(Next(st, a).mq, m) == CountOf(st.mq, m) + if Takes(st, a, m) then 1 else 0
  {
    if Takes(st, a, m) {
      TakingWrites(st, a, m);
    } else if Answers(st, a, m) {
      AnsweringRemoves(st, a, m);
    } else {
      OthersLeaveMessages(st, a, m);
    }
  }

  /** Messages leave the pending list only by being answered, and what it says of the others is their history. */
  lemma {:induction false} MessageAccount(st: State, acts: seq<Action>, m: MessageId)
    requires Inv(st) && Runs(st, acts)
    ensures Inv(AfterAll(st, acts))
    ensures Closed(AfterAll(st, acts).mq, m) <==> Closed(st.mq, m) || Answered(st, acts, m)
    ensures m in AfterAll(st, acts).mq.pending ==>
      CountOf(AfterAll(st, acts).mq, m) == CountOf(st.mq, m) + TimesTaken(st, acts, m)
    decreases |acts|
  {
    if acts != [] {
      InvStep(st, acts[0]);
      MessageStep(st, acts[0], m);
      MessageAccount(Next(st, acts[0]), acts[1..], m);
    }
  }

  lemma {:induction false} LastTakeAccount(st: State, acts: seq<Action>, m: MessageId)
    requires Inv(st) && Runs(st, acts) && m in AfterAll(st, acts).mq.pending
    ensures var entry := AfterAll(st, acts).mq.pending[m];
      if TimesTaken(st, acts, m) > 0 then LastTaken(st, acts, m, entry.consumer, entry.since)
      else m in st.mq.pending && st.mq.pending[m] == entry
    decreases |acts|
  {
    if acts != [] {
      var mid := Next(st, acts[0]);
      InvStep(st, acts[0]);
      LastTakeAccount(mid, acts[1..], m);
      if TimesTaken(mid, acts[1..], m) == 0 {
        LastTakeStep(st, acts[0], m);
      }
    }
  }

  lemma LastTakeStep(st: State, a: Action, m: MessageId)
    requires Inv(st) && Can(st, a) && m in Next(st, a).mq.pending
    ensures var entry := Next(st, a).mq.pending[m];
      if Takes(st, a, m) then entry.consumer == a.w && entry.since == st.queueClock
      else m in st.mq.pending && st.mq.pending[m] == entry
  {
    if Takes(st, a, m) {
      TakingWrites(st, a, m);
    } else if Answers(st, a, m) {
      AnsweringRemoves(st, a, m);
    } else {
      OthersLeaveMessages(st, a, m);
    }
  }

  lemma {:induction false} StreamAccount(st: State, acts: seq<Action>)
    requires Runs(st, acts)
    ensures AfterAll(st, acts).mq.log == st.mq.log + Sent(st, acts)
    ensures AfterAll(st, acts).mq.dead == st.mq.dead + Burials(st, acts)
    decreases |acts|
  {
    if acts != [] {
      var a, mid := acts[0], Next(st, acts[0]);
      LogGrows(st, a);
      DeadGrows(st, a);
      StreamAccount(mid, acts[1..]);
      ConcatAssociates(st.mq.log, SentBy(st, a), Sent(mid, acts[1..]));
      ConcatAssociates(st.mq.dead, BuriedBy(st, a), Burials(mid, acts[1..]));
    }
  }

  /**
   The stream is an account of what has happened: its log is what publishers have sent, its dead stream what workers
   have buried; a message is unacknowledged until it is answered, and its entry says how often it was handed out, and to
   whom and when last.
   */
  lemma QueueLedger(acts: seq<Action>, m: MessageId)
    requires Runs(EMPTY, acts)
    ensures var mq := AfterAll(EMPTY, acts).mq;
      && mq.log == Sent(EMPTY, acts) && mq.dead == Burials(EMPTY, acts)
      && (Unacked(mq, m) <==> m < |Sent(EMPTY, acts)| && !Answered(EMPTY, acts, m))
      && (m in mq.pending ==>
            && mq.pending[m].count == TimesTaken(EMPTY, acts, m) >= 1
            && LastTaken(EMPTY, acts, m, mq.pending[m].consumer, mq.pending[m].since))
  {
    InvInitially();
    StreamAccount(EMPTY, acts);
    MessageAccount(EMPTY, acts, m);
    if m in AfterAll(EMPTY, acts).mq.pending {
      LastTakeAccount(EMPTY, acts, m);
    }
  }

  /** Handed out at this time or later, unless it is no longer pending. */
  ghost predicate TakenSince(st: State, m: MessageId, t: Time) {
    m < st.mq.delivered && t <= st.queueClock && (m in st.mq.pending ==> st.mq.pending[m].since >= t)
  }

  lemma TakenSinceStep(st: State, a: Action, m: MessageId, t: Time)
    requires Inv(st) && Can(st, a) && TakenSince(st, m, t)
    ensures TakenSince(Next(st, a), m, t)
  {
    if Takes(st, a, m) {
      TakingWrites(st, a, m);
    } else if Answers(st, a, m) {
      AnsweringRemoves(st, a, m);
    } else {
      OthersLeaveMessages(st, a, m);
    }
  }

  lemma {:induction false} TakenSinceStays(st: State, acts: seq<Action>, m: MessageId, t: Time)
    requires Inv(st) && Runs(st, acts) && TakenSince(st, m, t)
    ensures TakenSince(AfterAll(st, acts), m, t)
    decreases |acts|
  {
    if acts != [] {
      InvStep(st, acts[0]);
      TakenSinceStep(st, acts[0], m, t);
      TakenSinceStays(Next(st, acts[0]), acts[1..], m, t);
    }
  }

  /**
   Between two calls that take the same message lies at least the idle time for which the second one asks, on the clock
   of Redis and whatever anyone does in between.
   */
  lemma TakesAreSpaced(st: State, a: Action, acts: seq<Action>, b: Action, m: MessageId)
    requires Inv(st) && Can(st, a) && Takes(st, a, m) && Runs(Next(st, a), acts)
    requires Can(AfterAll(Next(st, a), acts), b) && Takes(AfterAll(Next(st, a), acts), b, m)
    ensures AfterAll(Next(st, a), acts).queueClock >= st.queueClock + b.minIdle
  {
    InvStep(st, a);
    TakingWrites(st, a, m);
    TakenSinceStays(Next(st, a), acts, m, st.queueClock);
  }

  // The attempts

  /** The call of worker w that starts attempt att, begun at time t. */
  predicate StartsAttempt(a: Action, att: AttemptId, w: string, t: Time) {
    a.Claim? && a.attempt == att && a.w == w && a.begun == t && Arrives(a.fault)
  }

  /** The call that ends attempt att with this code, begun at time t: its own worker's, or a claim that displaces it. */
  predicate EndsAttempt(st: State, a: Action, att: AttemptId, code: Option<ErrorCode>, t: Time) {
    match a
    case Finish(w, begun, fault) =>
      Arrives(fault) && begun == t && code == None && WorkerAt(st, w).Holding? && WorkerAt(st, w).job.attempt == att
    case Retry(w, begun, _, fault) =>
      && Arrives(fault) && begun == t && code == Some(Transient)
      && WorkerAt(st, w).Holding? && WorkerAt(st, w).job.attempt == att
    case Fail(w, begun, fault) =>
      && Arrives(fault) && begun == t && code == Some(AttemptsExhausted)
      && WorkerAt(st, w).Holding? && WorkerAt(st, w).job.attempt == att
    case Claim(w, _, begun, localNow, _, _, fault) =>
      && Arrives(fault) && begun == t && code == Some(LeaseExpired) && WorkerAt(st, w).Received?
      && WorkerAt(st, w).d.submission in st.db.submissions
      && var row := st.db.submissions[WorkerAt(st, w).d.submission];
         row.current == Some(att) && row.leaseUntil.Some? && row.leaseUntil.value <= localNow
    case _ => false
  }

  ghost predicate StartedAlong(st: State, acts: seq<Action>, att: AttemptId, w: string, t: Time)
    requires Runs(st, acts)
    decreases |acts|
  {
    acts != [] && (StartsAttempt(acts[0], att, w, t) || StartedAlong(Next(st, acts[0]), acts[1..], att, w, t))
  }

  ghost predicate EndedAlong(st: State, acts: seq<Action>, att: AttemptId, code: Option<ErrorCode>, t: Time)
    requires Runs(st, acts)
    decreases |acts|
  {
    acts != [] && (EndsAttempt(st, acts[0], att, code, t) || EndedAlong(Next(st, acts[0]), acts[1..], att, code, t))
  }

  /** An attempt has an end time if and only if it has ended. */
  predicate Dated(r: Attempt) {
    r.finishedAt.Some? <==> r.status == Final || r.status == FailedInternal
  }

  /** The attempt is as it was, goes on, or is ended by this call. */
  ghost predicate GoesOn(st: State, a: Action, att: AttemptId, r: Attempt, r': Attempt) {
    && r'.worker == r.worker && r'.startedAt == r.startedAt && Dated(r')
    && (r'.finishedAt.Some? ==> r' == r || EndsAttempt(st, a, att, r'.code, r'.finishedAt.value))
  }

  lemma ClaimGoesOn(st: State, a: Action, att: AttemptId)
    requires Inv(st) && Can(st, a) && a.Claim? && att in st.db.attempts && Dated(st.db.attempts[att])
    ensures att in Next(st, a).db.attempts && GoesOn(st, a, att, st.db.attempts[att], Next(st, a).db.attempts[att])
  {
    if Next(st, a).db != st.db {
      var s := WorkerAt(st, a.w).d.submission;
      ClaimRows(st.db, s, a.w, a.lease, a.begun, a.localNow, a.attempt);
      assert SubmissionOk(st.db, s);
    }
  }

  lemma FinishGoesOn(st: State, a: Action, att: AttemptId)
    requires Inv(st) && Can(st, a) && a.Finish?
    requires att in st.db.attempts && Dated(st.db.attempts[att])
    ensures att in Next(st, a).db.attempts && GoesOn(st, a, att, st.db.attempts[att], Next(st, a).db.attempts[att])
  {
    if Next(st, a).db != st.db {
      HolderIsActive(st, a.w);
      assert AttemptOk(st.db, att);
    }
  }

  lemma RetryGoesOn(st: State, a: Action, att: AttemptId)
    requires Inv(st) && Can(st, a) && a.Retry?
    requires att in st.db.attempts && Dated(st.db.attempts[att])
    ensures att in Next(st, a).db.attempts && GoesOn(st, a, att, st.db.attempts[att], Next(st, a).db.attempts[att])
  {
    if Next(st, a).db != st.db {
      HolderIsActive(st, a.w);
      assert AttemptOk(st.db, att);
    }
  }

  lemma FailGoesOn(st: State, a: Action, att: AttemptId)
    requires Inv(st) && Can(st, a) && a.Fail?
    requires att in st.db.attempts && Dated(st.db.attempts[att])
    ensures att in Next(st, a).db.attempts && GoesOn(st, a, att, st.db.attempts[att], Next(st, a).db.attempts[att])
  {
    if Next(st, a).db != st.db {
      HolderIsActive(st, a.w);
      assert AttemptOk(st.db, att);
    }
  }

  lemma EnterGoesOn(st: State, a: Action, att: AttemptId)
    requires Inv(st) && Can(st, a) && a.Enter? && att in st.db.attempts && Dated(st.db.attempts[att])
    ensures att in Next(st, a).db.attempts && GoesOn(st, a, att, st.db.attempts[att], Next(st, a).db.attempts[att])
  {
    if Next(st, a).db != st.db {
      HolderIsActive(st, a.w);
    }
  }

  lemma AttemptGoesOn(st: State, a: Action, att: AttemptId)
    requires Inv(st) && Can(st, a) && att in st.db.attempts && Dated(st.db.attempts[att])
    ensures att in Next(st, a).db.attempts && GoesOn(st, a, att, st.db.attempts[att], Next(st, a).db.attempts[att])
  {
    if a.Claim? {
      ClaimGoesOn(st, a, att);
    } else if a.Finish? {
      FinishGoesOn(st, a, att);
    } else if a.Retry? {
      RetryGoesOn(st, a, att);
    } else if a.Fail? {
      FailGoesOn(st, a, att);
    } else if a.Enter? {
      EnterGoesOn(st, a, att);
    } else if !WritesRows(a) {
      RowsFrame(st, a);
    }
  }

  lemma AttemptStarts(st: State, a: Action, att: AttemptId)
    requires Inv(st) && Can(st, a) && att !in st.db.attempts && att in Next(st, a).db.attempts
    ensures var r := Next(st, a).db.attempts[att];
      StartsAttempt(a, att, r.worker, r.startedAt) && r.finishedAt == None && Dated(r)
  {
    OnlyClaimAdds(st, a, att);
    ClaimRows(st.db, WorkerAt(st, a.w).d.submission, a.w, a.lease, a.begun, a.localNow, a.attempt);
  }

  lemma AttemptStep(st: State, a: Action, att: AttemptId)
    requires Inv(st) && Can(st, a) && (att in st.db.attempts ==> Dated(st.db.attempts[att]))
    ensures att in st.db.attempts ==>
      att in Next(st, a).db.attempts && GoesOn(st, a, att, st.db.attempts[att], Next(st, a).db.attempts[att])
    ensures att !in st.db.attempts && att in Next(st, a).db.attempts ==>
      var r := Next(st, a).db.attempts[att];
      StartsAttempt(a, att, r.worker, r.startedAt) && r.finishedAt == None && Dated(r)
  {
    if att in st.db.attempts {
      AttemptGoesOn(st, a, att);
    } else if att in Next(st, a).db.attempts {
      AttemptStarts(st, a, att);
    }
  }

  lemma {:induction false} AttemptAccount(st: State, acts: seq<Action>, att: AttemptId)
    requires Inv(st) && Runs(st, acts) && att in AfterAll(st, acts).db.attempts
    requires att in st.db.attempts ==> Dated(st.db.attempts[att])
    ensures var r := AfterAll(st, acts).db.attempts[att];
      && Dated(r)
      && (if att in st.db.attempts
          then r.worker == st.db.attempts[att].worker && r.startedAt == st.db.attempts[att].startedAt
          else StartedAlong(st, acts, att, r.worker, r.startedAt))
      && (r.finishedAt.Some? ==>
            || (att in st.db.attempts && st.db.attempts[att] == r)
            || EndedAlong(st, acts, att, r.code, r.finishedAt.value))
    decreases |acts|
  {
    if acts != [] {
      var mid := Next(st, acts[0]);
      InvStep(st, acts[0]);
      AttemptStep(st, acts[0], att);
      AttemptAccount(mid, acts[1..], att);
    }
  }

  /**
   Every stored time is that of the transaction that wrote it: an attempt was started by a claim of its worker, and what
   ended it, as its code says, was a call of that worker or a claim whose clock had reached the end of its lease.
   */
  lemma EveryTimeHasItsWriter(acts: seq<Action>, att: AttemptId)
    requires Runs(EMPTY, acts) && att in AfterAll(EMPTY, acts).db.attempts
    ensures var r := AfterAll(EMPTY, acts).db.attempts[att];
      && StartedAlong(EMPTY, acts, att, r.worker, r.startedAt)
      && (r.finishedAt.Some? <==> r.status == Final || r.status == FailedInternal)
      && (r.finishedAt.Some? ==> EndedAlong(EMPTY, acts, att, r.code, r.finishedAt.value))
  {
    InvInitially();
    AttemptAccount(EMPTY, acts, att);
  }

  // The outbox

  /** A retry's event is due when the retry delay ends, and waits for a publisher until then. */
  lemma RetriedEventIsDue(st: State, a: Action)
    requires Inv(st) && Can(st, a) && a.Retry? && Next(st, a).db != st.db
    ensures var s, db' := WorkerAt(st, a.w).job.submission, Next(st, a).db;
      var due := a.begun + RetryDelay(WorkerAt(st, a.w).job.number);
      && s in db'.submissions && db'.submissions[s].retryAfter == Some(due)
      && a.e in db'.outbox && db'.outbox[a.e] == Event(s, a.begun, due, None, None, None)
  {
    assert WorkerOk(st, a.w);
  }

  /** No batch contains an event before it is due, a published one, or one whose lease has not ended. */
  lemma BatchIsDue(st: State, a: Action, e: EventId)
    requires Can(st, a) && a.LeaseBatch? && e in a.batch
    ensures e in st.db.outbox && var event := st.db.outbox[e];
      && event.availableAt <= st.clock && event.publishedAt == None
      && (event.claimedUntil.Some? ==> event.claimedUntil.value < st.clock)
  {
  }

  ghost predicate IsDueAt(db: Db, e: EventId, due: Time) {
    e in db.outbox && db.outbox[e].availableAt == due
  }

  lemma {:induction false} DueTimesStay(st: State, acts: seq<Action>, e: EventId, due: Time)
    requires Inv(st) && Runs(st, acts) && IsDueAt(st.db, e, due)
    ensures IsDueAt(AfterAll(st, acts).db, e, due)
    decreases |acts|
  {
    if acts != [] {
      DatabaseAdvances(st, acts[0]);
      InvStep(st, acts[0]);
      DueTimesStay(Next(st, acts[0]), acts[1..], e, due);
    }
  }

  /** The event of a retry is in no batch of anyone before the retry delay has passed on the database clock. */
  lemma RetriesAreNotPublishedEarly(st: State, a: Action, acts: seq<Action>, b: Action)
    requires Inv(st) && Can(st, a) && a.Retry? && Next(st, a).db != st.db && Runs(Next(st, a), acts)
    requires Can(AfterAll(Next(st, a), acts), b) && b.LeaseBatch? && a.e in b.batch
    ensures AfterAll(Next(st, a), acts).clock >= a.begun + RetryDelay(WorkerAt(st, a.w).job.number)
  {
    RetriedEventIsDue(st, a);
    InvStep(st, a);
    DueTimesStay(Next(st, a), acts, a.e, a.begun + RetryDelay(WorkerAt(st, a.w).job.number));
    BatchIsDue(AfterAll(Next(st, a), acts), b, a.e);
  }

  /**
   An event can be leased if and only if it is unpublished, due, and under no lease that has not ended: then a batch of
   one is possible as soon as nobody else has it locked.
   */
  lemma LeasableIffDue(st: State, p: string, lease: Time, e: EventId)
    requires PublisherAt(st, p) == Resting && e in st.db.outbox
    ensures var event := st.db.outbox[e];
      Can(st, LeaseBatch(p, 1, lease, st.db.outbox.Keys - {e}, [e], Clean)) <==>
        && event.publishedAt == None && event.availableAt <= st.clock
        && (event.claimedUntil.Some? ==> event.claimedUntil.value < st.clock)
  {
    var locked := st.db.outbox.Keys - {e};
    if Ready(st.db.outbox[e], st.clock) {
      assert ReadyEvents(st.db, st.clock, locked) == {e};
    } else {
      assert e !in ReadyEvents(st.db, st.clock, locked);
    }
  }

  /** The oldest events go first: one that is due and unlocked is left out only for a full batch of older ones. */
  lemma OldestGoFirst(st: State, a: Action, e: EventId)
    requires Can(st, a) && a.LeaseBatch? && e in st.db.outbox && e !in a.locked && e !in a.batch
    requires var event := st.db.outbox[e];
      && event.publishedAt == None && event.availableAt <= st.clock
      && (event.claimedUntil.Some? ==> event.claimedUntil.value < st.clock)
    ensures |a.batch| == a.limit
    ensures forall d :: d in a.batch ==> st.db.outbox[d].createdAt <= st.db.outbox[e].createdAt
  {
    assert e in ReadyEvents(st.db, st.clock, a.locked);
  }

  /** The call of a publisher that marks the event at this time. */
  predicate MarksEvent(st: State, a: Action, e: EventId, t: Time) {
    && a.Mark? && Arrives(a.fault) && st.clock == t
    && PublisherAt(st, a.p).Marking? && PublisherAt(st, a.p).event.id == e
  }

  ghost predicate MarkedAlong(st: State, acts: seq<Action>, e: EventId, t: Time)
    requires Runs(st, acts)
    decreases |acts|
  {
    acts != [] && (MarksEvent(st, acts[0], e, t) || MarkedAlong(Next(st, acts[0]), acts[1..], e, t))
  }

  /** Published at this time, and under no lease any more. */
  predicate IsPublished(db: Db, e: EventId, t: Time) {
    e in db.outbox && db.outbox[e].publishedAt == Some(t) && db.outbox[e].claimedUntil == None
  }

  lemma LeaseLeavesPublished(st: State, a: Action, e: EventId)
    requires Can(st, a) && a.LeaseBatch? && e in st.db.outbox && st.db.outbox[e].publishedAt.Some?
    ensures e in Next(st, a).db.outbox && Next(st, a).db.outbox[e] == st.db.outbox[e]
  {
  }

  lemma LeaseAddsNothing(st: State, a: Action, e: EventId)
    requires Can(st, a) && a.LeaseBatch? && e in Next(st, a).db.outbox
    ensures e in st.db.outbox && Next(st, a).db.outbox[e].publishedAt == st.db.outbox[e].publishedAt
  {
  }

  /** The event was published before, or is now, by this very call. */
  lemma OnlyMarksPublish(st: State, a: Action, e: EventId)
    requires Can(st, a) && e in Next(st, a).db.outbox && Next(st, a).db.outbox[e].publishedAt.Some?
    ensures var event := Next(st, a).db.outbox[e];
      || (e in st.db.outbox && st.db.outbox[e] == event)
      || (MarksEvent(st, a, e, event.publishedAt.value) && event.claimedUntil == None)
  {
    if !WritesOutbox(a) {
      OutboxFrame(st, a);
    } else if a.LeaseBatch? {
      LeaseAddsNothing(st, a, e);
      LeaseLeavesPublished(st, a, e);
    }
  }

  lemma PublishedStep(st: State, a: Action, e: EventId, t: Time)
    requires Can(st, a)
    ensures IsPublished(Next(st, a).db, e, t) ==> IsPublished(st.db, e, t) || MarksEvent(st, a, e, t)
  {
    if IsPublished(Next(st, a).db, e, t) {
      OnlyMarksPublish(st, a, e);
    }
  }

  ghost predicate AllPublishedAreFree(db: Db) {
    forall e :: e in db.outbox && db.outbox[e].publishedAt.Some? ==> db.outbox[e].claimedUntil == None
  }

  lemma FreeStep(st: State, a: Action)
    requires Can(st, a) && AllPublishedAreFree(st.db)
    ensures AllPublishedAreFree(Next(st, a).db)
  {
    var db' := Next(st, a).db;
    forall e | e in db'.outbox && db'.outbox[e].publishedAt.Some? ensures db'.outbox[e].claimedUntil == None {
      OnlyMarksPublish(st, a, e);
    }
  }

  lemma {:induction false} MarkAccount(st: State, acts: seq<Action>, e: EventId, t: Time)
    requires Runs(st, acts) && AllPublishedAreFree(st.db)
    ensures AllPublishedAreFree(AfterAll(st, acts).db)
    ensures IsPublished(AfterAll(st, acts).db, e, t) ==> IsPublished(st.db, e, t) || MarkedAlong(st, acts, e, t)
    decreases |acts|
  {
    if acts != [] {
      FreeStep(st, acts[0]);
      MarkAccount(Next(st, acts[0]), acts[1..], e, t);
      PublishedStep(st, acts[0], e, t);
    }
  }

  /** A published event was marked by a publisher at the stored time, and no lease is left on it. */
  lemma PublishedHasItsMark(acts: seq<Action>, e: EventId)
    requires Runs(EMPTY, acts) && e in AfterAll(EMPTY, acts).db.outbox
    ensures var event := AfterAll(EMPTY, acts).db.outbox[e];
      event.publishedAt.Some? ==> event.claimedUntil == None && MarkedAlong(EMPTY, acts, e, event.publishedAt.value)
  {
    var event := AfterAll(EMPTY, acts).db.outbox[e];
    if event.publishedAt.Some? {
      MarkAccount(EMPTY, acts, e, event.publishedAt.value);
    }
  }
}
