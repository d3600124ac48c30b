/**
 What the store answers, in terms of the rows that an operator would look at: which call commits, which is refused and
 with what error. The transactions are those of internal/database; the rows are those of a state that can occur.
 */
module Answers {
  import opened Basics
  import opened Lifecycle
  import opened Judging
  import opened Database
  import opened FenceProofs
  import opened Protocol
  import opened Invariant

  // Claim

  /** The submission is open, and its retry delay or the lease of the attempt that has it lies past this time. */
  predicate Contended(row: Submission, localNow: Time) {
    && row.status != Final && row.status != FailedInternal
    && (|| (row.retryAfter.Some? && row.retryAfter.value > localNow)
        || (row.status != Queued && row.leaseUntil.Some? && row.leaseUntil.value > localNow))
  }

  /** The answer that the row calls for when worker w asks for submission s. */
  predicate ClaimGets(row: Submission, s: SubmissionId, attempt: AttemptId, localNow: Time, answer: Reply<Job>) {
    && (answer == Err(AlreadyTerminal(false)) <==> row.status == Final)
    && (answer == Err(AlreadyTerminal(true)) <==> row.status == FailedInternal)
    && (answer == Err(Busy) <==> Contended(row, localNow))
    && (answer.Ok? <==> row.status != Final && row.status != FailedInternal && !Contended(row, localNow))
    && (answer.Ok? ==>
          answer.value == Job(s, attempt, row.attempts + 1, row.language, row.source, row.problem))
  }

  /** Every well-formed claim that is answered gets the answer that its row calls for, and no other error. */
  lemma ClaimAnswers(st: State, a: Action)
    requires Inv(st) && Can(st, a) && a.Claim?
    ensures a.w == "" || a.lease <= 0 ==> ClaimCall(st, a) == Reject(Invalid)
    ensures a.w != "" && a.lease > 0 ==> var s := WorkerAt(st, a.w).d.submission;
      && s in st.db.submissions
      && ClaimGets(st.db.submissions[s], s, a.attempt, a.localNow, Reported(ClaimCall(st, a), Clean))
  {
    var s := WorkerAt(st, a.w).d.submission;
    assert WorkerOk(st, a.w);
    assert SubmissionOk(st.db, s);
    if st.db.submissions[s].current.Some? {
      assert AttemptOk(st.db, st.db.submissions[s].current.value);
    }
    NumberIsFree(st.db, s, a.begun);
  }

  // The calls behind the row lock

  /** The attempt exists and is the current one of its submission. */
  predicate Owns(db: Db, a: AttemptId) {
    && a in db.attempts && db.attempts[a].submission in db.submissions
    && db.submissions[db.attempts[a].submission].current == Some(a)
  }

  /** What an attempt that is not the current one is told, whatever it asks for. */
  predicate IsTurnedAway<T>(db: Db, a: AttemptId, tx: Tx<T>) {
    tx == Reject(if a !in db.attempts || db.attempts[a].submission !in db.submissions then NoRows
                 else if db.submissions[db.attempts[a].submission].current == None then NullScan
                 else Stale)
  }

  /** A transition commits if and only if the attempt is current and the step is the next one, or one of failing. */
  lemma TransitionAnswers(db: Db, a: AttemptId, to: Status)
    requires Fence(db)
    ensures !Owns(db, a) ==> IsTurnedAway(db, a, TransitionTx(db, a, to))
    ensures Owns(db, a) ==>
      var status := db.attempts[a].status;
      && (TransitionTx(db, a, to).Commit? <==>
            || (to == Compiling && status == Claimed)
            || (to == Running && (status == Claimed || status == Compiling))
            || (to == Final && (status == Compiling || status == Running))
            || (to == FailedInternal && (status == Claimed || status == Compiling || status == Running)))
      && (TransitionTx(db, a, to).Reject? ==> TransitionTx(db, a, to).error == Invalid)
  {
    if a in db.attempts {
      assert AttemptOk(db, a);
      EdgesInto(db.attempts[a].status, to);
    }
  }

  /** A result is stored if and only if the attempt is current and running, or compiling and it is a compile error. */
  lemma FinishAnswers(db: Db, a: AttemptId, r: Result, now: Time)
    requires Fence(db)
    ensures !Owns(db, a) ==> IsTurnedAway(db, a, FinishTx(db, a, r, now))
    ensures Owns(db, a) ==>
      && (FinishTx(db, a, r, now).Commit? <==>
            || db.attempts[a].status == Running
            || (db.attempts[a].status == Compiling && r.verdict == Some(CompilationError)))
      && (FinishTx(db, a, r, now).Reject? ==> FinishTx(db, a, r, now).error == Invalid)
  {
    if a in db.attempts {
      assert AttemptOk(db, a);
    }
  }

  /** Retry and Fail ask for nothing but the fence, and Retry for a delay of at most five minutes. */
  lemma EndAnswers(db: Db, a: AttemptId, delay: Time, now: Time, e: EventId)
    requires Fence(db)
    ensures delay < 0 || delay > 5 * 60 * 1000 ==> RetryTx(db, a, delay, now, e) == Reject(Invalid)
    ensures 0 <= delay <= 5 * 60 * 1000 && Owns(db, a) ==> RetryTx(db, a, delay, now, e).Commit?
    ensures 0 <= delay <= 5 * 60 * 1000 && !Owns(db, a) ==> IsTurnedAway(db, a, RetryTx(db, a, delay, now, e))
    ensures if Owns(db, a) then FailTx(db, a, now).Commit? else IsTurnedAway(db, a, FailTx(db, a, now))
  {
    if a in db.attempts {
      assert AttemptOk(db, a);
    }
  }

  /** A lease is renewed if and only if the attempt is current and active; a stale attempt writes nothing. */
  lemma RenewAnswers(db: Db, a: AttemptId, lease: Time, now: Time)
    requires Fence(db)
    ensures lease <= 0 ==> RenewTx(db, a, lease, now) == Reject(Invalid)
    ensures lease > 0 ==>
      && RenewTx(db, a, lease, now).Commit?
      && var tx := RenewTx(db, a, lease, now);
         if Owns(db, a) && db.attempts[a].status in {Claimed, Compiling, Running}
         then var s := db.attempts[a].submission;
              && tx.value == Ok(())
              && tx.db == db.(submissions := db.submissions[s := db.submissions[s].(leaseUntil := Some(now + lease))])
         else tx.value == Err(Stale) && tx.db == db
  {
    if lease > 0 {
      RenewFences(db, a, lease, now);
      RenewTouchesOneLease(db, a, lease, now);
      if Owns(db, a) {
        assert SubmissionOk(db, db.attempts[a].submission);
      }
    }
  }

  // The outbox

  /** A publisher with a name gets up to a hundred events, under a lease of any length. */
  lemma LeaseAnswers(db: Db, p: string, limit: int, lease: Time, now: Time, batch: seq<EventId>)
    requires forall e :: e in batch ==> e in db.outbox
    ensures ClaimOutboxTx(db, p, limit, lease, now, batch).Commit? <==> p != "" && 1 <= limit <= 100 && lease > 0
    ensures var tx := ClaimOutboxTx(db, p, limit, lease, now, batch); tx.Reject? ==> tx.error == Invalid
    ensures var tx := ClaimOutboxTx(db, p, limit, lease, now, batch); tx.Commit? ==>
      && tx.db == db.(outbox := tx.db.outbox) && tx.db.outbox.Keys == db.outbox.Keys
      && (forall e :: e in db.outbox && e !in batch ==> tx.db.outbox[e] == db.outbox[e])
      && (forall e :: e in batch ==>
            tx.db.outbox[e] == db.outbox[e].(claimedBy := Some(p), claimedUntil := Some(now + lease)))
  {
  }

  /** An event is marked once. */
  lemma MarkAnswers(db: Db, e: EventId, now: Time)
    ensures var tx := MarkPublishedTx(db, e, now);
      if e in db.outbox && db.outbox[e].publishedAt == None
      then tx.Commit? && MarkPublishedTx(tx.db, e, now) == Reject(NoRows)
      else tx == Reject(NoRows)
  {
  }

  // Creating submissions

  /** The problem may be solved in this language, and the source has an acceptable size. */
  predicate Admissible(p: Problem, language: string, source: string) {
    p.published && language in p.languages && 1 <= Utf8Length(source) <= 65536
  }

  /** A submission is accepted if and only if it is admissible, and then it waits in the queue with an event at once. */
  lemma CreateAnswers(db: Db, id: ProblemId, language: string, source: string, now: Time, s: SubmissionId, e: EventId)
    ensures var tx := CreateTx(db, id, language, source, now, s, e);
      && (tx.Commit? <==> id in db.problems && Admissible(db.problems[id], language, source))
      && (tx == Reject(NoRows) <==> id !in db.problems && 1 <= Utf8Length(source) <= 65536)
      && (tx.Reject? ==> tx.error == NoRows || tx.error == Invalid)
    ensures var tx := CreateTx(db, id, language, source, now, s, e); tx.Commit? ==>
      && tx.value == s && s in tx.db.submissions && e in tx.db.outbox
      && tx.db == db.(submissions := db.submissions[s := tx.db.submissions[s]],
                      outbox := db.outbox[e := tx.db.outbox[e]])
      && var row, event := tx.db.submissions[s], tx.db.outbox[e];
      && row.status == Queued && row.attempts == 0 && row.current == None && row.retryAfter == None
      && row.result.total == |db.problems[id].tests| && row.result.verdict == None
      && event.submission == s && event.createdAt == now && event.availableAt == now
      && event.publishedAt == None && event.claimedUntil == None
  {
  }

  lemma OnlyCreateAdds(st: State, a: Action, s: SubmissionId)
    requires Can(st, a) && s !in st.db.submissions && s in Next(st, a).db.submissions
    ensures a.Create? && a.s == s && CreateTx(st.db, a.problem, a.language, a.source, a.begun, a.s, a.e).Commit?
  {
    if !WritesRows(a) {
      RowsFrame(st, a);
    }
  }

  ghost predicate AllAdmissible(db: Db) {
    forall s :: s in db.submissions ==>
      Admissible(db.submissions[s].problem, db.submissions[s].language, db.submissions[s].source)
  }

  lemma NewIsAdmissible(st: State, a: Action, s: SubmissionId)
    requires Can(st, a) && s !in st.db.submissions && s in Next(st, a).db.submissions
    ensures var row := Next(st, a).db.submissions[s]; Admissible(row.problem, row.language, row.source)
  {
    OnlyCreateAdds(st, a, s);
    CreateAnswers(st.db, a.problem, a.language, a.source, a.begun, a.s, a.e);
  }

  lemma AdmissibleStep(st: State, a: Action)
    requires Inv(st) && Can(st, a) && AllAdmissible(st.db)
    ensures AllAdmissible(Next(st, a).db)
  {
    DatabaseAdvances(st, a);
    var db' := Next(st, a).db;
    forall s | s in db'.submissions
      ensures Admissible(db'.submissions[s].problem, db'.submissions[s].language, db'.submissions[s].source) {
      if s !in st.db.submissions {
        NewIsAdmissible(st, a, s);
      }
    }
  }

  /** Nothing but admissible submissions is ever judged, whatever authors do to their problems afterwards. */
  lemma {:induction false} SubmissionsAreAdmissible(st: State, acts: seq<Action>)
    requires Inv(st) && AllAdmissible(st.db) && Runs(st, acts)
    ensures AllAdmissible(AfterAll(st, acts).db)
    decreases |acts|
  {
    if acts != [] {
      AdmissibleStep(st, acts[0]);
      InvStep(st, acts[0]);
      SubmissionsAreAdmissible(Next(st, acts[0]), acts[1..]);
    }
  }

  lemma ReachableIsAdmissible(st: State, s: SubmissionId)
    requires Reachable(st) && s in st.db.submissions
    ensures var row := st.db.submissions[s]; Admissible(row.problem, row.language, row.source)
  {
    var acts :| Runs(EMPTY, acts) && AfterAll(EMPTY, acts) == st;
    InvInitially();
    SubmissionsAreAdmissible(EMPTY, acts);
  }

  ghost predicate Saves(a: Action, id: ProblemId) {
    a.SaveProblem? && a.problem == id
  }

  lemma ProblemsFrame(st: State, a: Action, id: ProblemId)
    requires Can(st, a) && id in st.db.problems && !Saves(a, id)
    ensures id in Next(st, a).db.problems && Next(st, a).db.problems[id] == st.db.problems[id]
  {
    if !WritesRows(a) && !WritesOutbox(a) && !a.SaveProblem? {
      DatabaseFrame(st, a);
    }
  }

  lemma {:induction false} ProblemStays(st: State, acts: seq<Action>, id: ProblemId)
    requires Runs(st, acts) && id in st.db.problems && forall i :: 0 <= i < |acts| ==> !Saves(acts[i], id)
    ensures id in AfterAll(st, acts).db.problems && AfterAll(st, acts).db.problems[id] == st.db.problems[id]
    decreases |acts|
  {
    if acts != [] {
      ProblemsFrame(st, acts[0], id);
      ProblemStays(Next(st, acts[0]), acts[1..], id);
    }
  }

  /** What is submitted is judged against the problem as it was last saved, and that one decides what is accepted. */
  lemma LastSaveDecides(st: State, id: ProblemId, p: Problem, acts: seq<Action>, a: Action)
    requires Runs(Next(st, SaveProblem(id, p)), acts) && forall i :: 0 <= i < |acts| ==> !Saves(acts[i], id)
    requires a.Create? && a.problem == id && a.fault == Clean && Can(AfterAll(Next(st, SaveProblem(id, p)), acts), a)
    ensures var at := AfterAll(Next(st, SaveProblem(id, p)), acts);
      && (a.s in Next(at, a).db.submissions <==> Admissible(p, a.language, a.source))
      && (a.s in Next(at, a).db.submissions ==> Next(at, a).db.submissions[a.s].problem == p)
  {
    var saved := Next(st, SaveProblem(id, p));
    ProblemStays(saved, acts, id);
    CreateAnswers(AfterAll(saved, acts).db, id, a.language, a.source, a.begun, a.s, a.e);
  }
}
