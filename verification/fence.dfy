/** Every transaction keeps the fence invariant and moves attempts only along lifecycle edges. */
module FenceProofs {
  import opened Basics
  import opened Lifecycle
  import opened Judging
  import opened Database

  /** What one transaction may do to existing rows; new attempts start CLAIMED. */
  ghost predicate Advance(db: Db, db': Db) {
    && (forall a :: a in db.attempts ==> a in db'.attempts && AttemptAdvances(db.attempts[a], db'.attempts[a]))
    && (forall a :: a in db'.attempts && a !in db.attempts ==> db'.attempts[a].status == Claimed)
    && (forall s :: s in db.submissions ==>
        s in db'.submissions && SubmissionAdvances(db.submissions[s], db'.submissions[s]))
    && (forall e :: e in db.outbox ==> e in db'.outbox && EventAdvances(db.outbox[e], db'.outbox[e]))
  }

  ghost predicate AttemptAdvances(r: Attempt, r': Attempt) {
    && r'.submission == r.submission && r'.number == r.number && r'.worker == r.worker && r'.startedAt == r.startedAt
    && (r' == r || CanTransition(r.status, r'.status))
  }

  /** Terminal rows are frozen, and what was submitted is frozen from the start. */
  ghost predicate SubmissionAdvances(s: Submission, s': Submission) {
    && s'.problem == s.problem && s'.language == s.language && s'.source == s.source
    && s.attempts <= s'.attempts
    && (Terminal(s.status) ==> s' == s)
  }

  ghost predicate EventAdvances(e: Event, e': Event) {
    && e'.submission == e.submission && e'.createdAt == e.createdAt && e'.availableAt == e.availableAt
    && (e.publishedAt.Some? ==> e'.publishedAt == e.publishedAt)
  }

  lemma FinishedRowsStay(db: Db, db': Db, a: AttemptId)
    requires Advance(db, db') && a in db.attempts && Terminal(db.attempts[a].status)
    ensures a in db'.attempts && db'.attempts[a] == db.attempts[a]
  {
    EdgesClimb(db.attempts[a].status);
  }

  lemma CreateKeepsFence(db: Db, id: ProblemId, language: string, source: string, now: Time, s: SubmissionId,
                         e: EventId)
    requires Fence(db) && s !in db.submissions && e !in db.outbox
    requires CreateTx(db, id, language, source, now, s, e).Commit?
    ensures var db' := CreateTx(db, id, language, source, now, s, e).db; Fence(db') && Advance(db, db')
  {
    var db' := CreateTx(db, id, language, source, now, s, e).db;
    forall i | i in db'.submissions ensures SubmissionOk(db', i) {
      assert i != s ==> SubmissionOk(db, i);
    }
    forall a | a in db'.attempts ensures AttemptOk(db', a) {
      assert AttemptOk(db, a);
    }
    forall i, n | i in db'.submissions && 1 <= n <= db'.submissions[i].attempts ensures HasNumber(db', i, n) {
      NumberCarries(db, db', i, n);
    }
    forall a, b | a in db'.attempts && b in db'.attempts ensures NumbersDiffer(db', a, b) {
      assert NumbersDiffer(db, a, b);
    }
    forall x | x in db'.outbox ensures EventOk(db', x) {
      assert x != e ==> EventOk(db, x);
    }
  }

  /** Attempts never change owner or number, so a number once present stays present. */
  lemma NumberCarries(db: Db, db': Db, i: SubmissionId, n: int)
    requires HasNumber(db, i, n)
    requires db.attempts.Keys <= db'.attempts.Keys
    requires forall a :: a in db.attempts ==>
               db'.attempts[a].submission == db.attempts[a].submission &&
                   db'.attempts[a].number == db.attempts[a].number
    ensures HasNumber(db', i, n)
  {
    var a :| a in db.attempts && db.attempts[a].submission == i && db.attempts[a].number == n;
    assert a in db'.attempts;
  }

  /** The number that Claim inserts is never taken, so the UNIQUE constraint cannot fire. */
  lemma NumberIsFree(db: Db, i: SubmissionId, now: Time)
    requires Fence(db) && i in db.submissions
    ensures !NumberTaken(db.attempts, i, db.submissions[i].attempts + 1)
    ensures forall a :: !NumberTaken(Displace(db.attempts, a, now), i, db.submissions[i].attempts + 1)
  {
    forall b | b in db.attempts && db.attempts[b].submission == i
      ensures db.attempts[b].number <= db.submissions[i].attempts {
      assert AttemptOk(db, b);
    }
  }

  /** What a committed claim writes, apart from displacing the previous attempt. */
  lemma ClaimRows(db: Db, id: SubmissionId, worker: string, lease: Time, now: Time, localNow: Time, attempt: AttemptId)
    requires Fence(db) && attempt !in db.attempts
    requires ClaimTx(db, id, worker, lease, now, localNow, attempt).Commit?
    ensures var db', s := ClaimTx(db, id, worker, lease, now, localNow, attempt).db, db.submissions[id];
            && !Terminal(s.status) && lease > 0 && worker != ""
            && db'.attempts.Keys == db.attempts.Keys + {attempt}
            && db'.attempts[attempt] == Attempt(id, s.attempts + 1, worker, Claimed, None, now, None)
            && (forall a :: a in db.attempts && s.current != Some(a) ==> db'.attempts[a] == db.attempts[a])
            && (forall a :: s.current == Some(a) ==>
                  a in db.attempts && Active(db.attempts[a].status)
                  && db'.attempts[a] == db.attempts[a].(status := FailedInternal, code := Some(LeaseExpired),
                      finishedAt := Some(now)))
            && db'.submissions == db.submissions[id := s.(status := Claimed, current := Some(attempt),
                                                         leaseUntil := Some(now + lease), retryAfter := None,
                                                             attempts := s.attempts + 1)]
            && db'.outbox == db.outbox
  {
    assert SubmissionOk(db, id);
  }

  lemma ClaimKeepsFence(db: Db, id: SubmissionId, worker: string, lease: Time, now: Time, localNow: Time,
                        attempt: AttemptId)
    requires Fence(db) && attempt !in db.attempts
    requires ClaimTx(db, id, worker, lease, now, localNow, attempt).Commit?
    ensures var db' := ClaimTx(db, id, worker, lease, now, localNow, attempt).db; Fence(db') && Advance(db, db')
  {
    var db' := ClaimTx(db, id, worker, lease, now, localNow, attempt).db;
    ClaimRows(db, id, worker, lease, now, localNow, attempt);
    assert SubmissionOk(db, id);
    NewAttemptKeepsFence(db, db', id, attempt);
    forall a | a in db.attempts ensures a in db'.attempts && AttemptAdvances(db.attempts[a], db'.attempts[a]) {}
  }

  lemma NewAttemptKeepsFence(db: Db, db': Db, id: SubmissionId, attempt: AttemptId)
    requires Fence(db) && attempt !in db.attempts && id in db.submissions
    requires db'.attempts.Keys == db.attempts.Keys + {attempt}
    requires db'.attempts[attempt].submission == id && db'.attempts[attempt].number == db.submissions[id].attempts + 1
    requires db'.attempts[attempt].status == Claimed && db'.attempts[attempt].code == None
    requires forall a :: a in db.attempts && db.submissions[id].current != Some(a) ==> db'.attempts[a] == db.attempts[a]
    requires forall a :: db.submissions[id].current == Some(a) ==>
               a in db.attempts && db'.attempts[a].submission == id && db'.attempts[a].number == db.attempts[a].number
               && db'.attempts[a].status == FailedInternal && db'.attempts[a].code == Some(LeaseExpired)
    requires id in db'.submissions && db'.submissions == db.submissions[id := db'.submissions[id]]
    requires var s := db'.submissions[id];
             s.status == Claimed && s.current == Some(attempt) && s.leaseUntil.Some? && s.retryAfter == None
             && s.attempts == db.submissions[id].attempts + 1 && s.finishedAt == None
    requires db'.outbox == db.outbox
    ensures Fence(db')
  {
    assert SubmissionOk(db, id);
    forall i | i in db'.submissions ensures SubmissionOk(db', i) {
      if i != id {
        BystandingRowOk(db, db', id, i);
      }
    }
    forall a | a in db'.attempts ensures AttemptOk(db', a) {
      if a != attempt {
        assert AttemptOk(db, a);
      }
    }
    NewAttemptKeepsNumbers(db, db', id, attempt);
    forall e | e in db'.outbox ensures EventOk(db', e) {
      assert EventOk(db, e);
    }
  }

  /** The displaced attempt is not the current one of any other submission. */
  lemma BystandingRowOk(db: Db, db': Db, id: SubmissionId, i: SubmissionId)
    requires Fence(db) && id in db.submissions && i in db.submissions && i != id
    requires i in db'.submissions && db'.submissions[i] == db.submissions[i] && db.attempts.Keys <= db'.attempts.Keys
    requires forall a :: a in db.attempts && db.submissions[id].current != Some(a) ==> db'.attempts[a] == db.attempts[a]
    ensures SubmissionOk(db', i)
  {
    assert SubmissionOk(db, i) && SubmissionOk(db, id);
  }

  lemma NewAttemptKeepsNumbers(db: Db, db': Db, id: SubmissionId, attempt: AttemptId)
    requires Numbered(db) && attempt !in db.attempts && id in db.submissions
    requires forall a :: a in db.attempts ==> AttemptOk(db, a)
    requires db'.attempts.Keys == db.attempts.Keys + {attempt}
    requires db'.attempts[attempt].submission == id && db'.attempts[attempt].number == db.submissions[id].attempts + 1
    requires forall a :: a in db.attempts ==>
               db'.attempts[a].submission == db.attempts[a].submission &&
                   db'.attempts[a].number == db.attempts[a].number
    requires db'.submissions.Keys == db.submissions.Keys
    requires forall i :: i in db.submissions ==>
               db'.submissions[i].attempts == if i == id then db.submissions[i].attempts + 1
                   else db.submissions[i].attempts
    ensures Numbered(db')
  {
    forall i, n | i in db'.submissions && 1 <= n <= db'.submissions[i].attempts ensures HasNumber(db', i, n) {
      if n <= db.submissions[i].attempts {
        NumberCarries(db, db', i, n);
      } else {
        assert db'.attempts[attempt].number == n;
      }
    }
    forall a, b | a in db'.attempts && b in db'.attempts ensures NumbersDiffer(db', a, b) {
      if a in db.attempts && b in db.attempts {
        assert NumbersDiffer(db, a, b);
      } else if a in db.attempts {
        assert AttemptOk(db, a);
      } else if b in db.attempts {
        assert AttemptOk(db, b);
      }
    }
  }

  /** Rewriting one attempt and its submission keeps the numbering. */
  lemma RowUpdateKeepsNumbers(db: Db, db': Db, a: AttemptId)
    requires Numbered(db) && a in db.attempts
    requires db'.attempts.Keys == db.attempts.Keys && db'.submissions.Keys == db.submissions.Keys
    requires forall b :: b in db.attempts ==>
      db'.attempts[b].submission == db.attempts[b].submission && db'.attempts[b].number == db.attempts[b].number
    requires forall i :: i in db.submissions ==> db'.submissions[i].attempts == db.submissions[i].attempts
    ensures Numbered(db')
  {
    forall i, n | i in db'.submissions && 1 <= n <= db'.submissions[i].attempts ensures HasNumber(db', i, n) {
      NumberCarries(db, db', i, n);
    }
    forall x, y | x in db'.attempts && y in db'.attempts ensures NumbersDiffer(db', x, y) {
      assert NumbersDiffer(db, x, y);
    }
  }

  /** Rewriting the current attempt and its submission consistently keeps every other row's invariant. */
  lemma RowUpdateKeepsFence(db: Db, db': Db, a: AttemptId, r: Attempt, s: Submission)
    requires Fence(db) && Fenced(db, a).Ok?
    requires r.submission == db.attempts[a].submission && r.number == db.attempts[a].number
    requires db'.attempts == db.attempts[a := r] && db'.submissions == db.submissions[r.submission := s]
    requires forall e :: e in db'.outbox ==> db'.outbox[e].submission in db.submissions
    requires s.attempts == db.submissions[r.submission].attempts && (s.current == Some(a) || s.current == None)
    requires SubmissionOk(db', r.submission) && AttemptOk(db', a)
    ensures Fence(db')
  {
    RowUpdateKeepsNumbers(db, db', a);
    forall i | i in db'.submissions ensures SubmissionOk(db', i) {
      assert SubmissionOk(db, i);
    }
    forall b | b in db'.attempts ensures AttemptOk(db', b) {
      assert AttemptOk(db, b);
    }
    forall e | e in db'.outbox ensures EventOk(db', e) {}
  }

  lemma RowUpdateAdvances(db: Db, db': Db, a: AttemptId, r: Attempt, s: Submission)
    requires Fenced(db, a).Ok?
    requires r.submission == db.attempts[a].submission
    requires db'.attempts == db.attempts[a := r] && db'.submissions == db.submissions[r.submission := s]
    requires AttemptAdvances(db.attempts[a], r) && SubmissionAdvances(db.submissions[r.submission], s)
    requires forall e :: e in db.outbox ==> e in db'.outbox && db'.outbox[e] == db.outbox[e]
    ensures Advance(db, db')
  {}

  /**
   A transition follows the lifecycle; it keeps the fence unless it is used to end the attempt, which leaves its lease.
   */
  lemma TransitionKeepsFence(db: Db, a: AttemptId, to: Status)
    requires Fence(db) && TransitionTx(db, a, to).Commit?
    ensures var db' := TransitionTx(db, a, to).db; Advance(db, db') && (Fence(db') <==> Active(to))
    ensures var i := db.attempts[a].submission;
      CanTransition(db.submissions[i].status, to) && TransitionTx(db, a, to).db.submissions[i].status == to
  {
    var db' := TransitionTx(db, a, to).db;
    var i := db.attempts[a].submission;
    assert SubmissionOk(db, i) && AttemptOk(db, a);
    forall x | x in db.outbox ensures db.outbox[x].submission in db.submissions {
      assert EventOk(db, x);
    }
    RowUpdateAdvances(db, db', a, db'.attempts[a], db'.submissions[i]);
    if Active(to) {
      RowUpdateKeepsFence(db, db', a, db'.attempts[a], db'.submissions[i]);
    } else {
      assert !SubmissionOk(db', i);
    }
  }

  lemma FinishKeepsFence(db: Db, a: AttemptId, r: Result, now: Time)
    requires Fence(db) && FinishTx(db, a, r, now).Commit?
    ensures var db' := FinishTx(db, a, r, now).db; Fence(db') && Advance(db, db')
  {
    var db' := FinishTx(db, a, r, now).db;
    var i := db.attempts[a].submission;
    assert SubmissionOk(db, i) && AttemptOk(db, a);
    forall x | x in db.outbox ensures db.outbox[x].submission in db.submissions {
      assert EventOk(db, x);
    }
    RowUpdateKeepsFence(db, db', a, db'.attempts[a], db'.submissions[i]);
    RowUpdateAdvances(db, db', a, db'.attempts[a], db'.submissions[i]);
  }

  /** Retry has no status guard: it keeps the fence only for an attempt that has not ended. */
  lemma RetryKeepsFence(db: Db, a: AttemptId, delay: Time, now: Time, e: EventId)
    requires Fence(db) && RetryTx(db, a, delay, now, e).Commit? && e !in db.outbox
    requires Active(db.attempts[a].status)
    ensures var db' := RetryTx(db, a, delay, now, e).db; Fence(db') && Advance(db, db')
  {
    var db' := RetryTx(db, a, delay, now, e).db;
    var i := db.attempts[a].submission;
    assert SubmissionOk(db, i) && AttemptOk(db, a);
    forall x | x in db.outbox ensures db.outbox[x].submission in db.submissions {
      assert EventOk(db, x);
    }
    RowUpdateKeepsFence(db, db', a, db'.attempts[a], db'.submissions[i]);
    RowUpdateAdvances(db, db', a, db'.attempts[a], db'.submissions[i]);
  }

  lemma FailKeepsFence(db: Db, a: AttemptId, now: Time)
    requires Fence(db) && FailTx(db, a, now).Commit?
    requires Active(db.attempts[a].status)
    ensures var db' := FailTx(db, a, now).db; Fence(db') && Advance(db, db')
  {
    var db' := FailTx(db, a, now).db;
    var i := db.attempts[a].submission;
    assert SubmissionOk(db, i) && AttemptOk(db, a);
    forall x | x in db.outbox ensures db.outbox[x].submission in db.submissions {
      assert EventOk(db, x);
    }
    RowUpdateKeepsFence(db, db', a, db'.attempts[a], db'.submissions[i]);
    RowUpdateAdvances(db, db', a, db'.attempts[a], db'.submissions[i]);
  }

  /** Retry respects what is final if and only if the attempt has not ended. */
  lemma RetryAdvancesIffActive(db: Db, a: AttemptId, delay: Time, now: Time, e: EventId)
    requires Fence(db) && RetryTx(db, a, delay, now, e).Commit? && e !in db.outbox
    ensures Advance(db, RetryTx(db, a, delay, now, e).db) <==> Active(db.attempts[a].status)
  {
    var i := db.attempts[a].submission;
    assert SubmissionOk(db, i);
    if Active(db.attempts[a].status) {
      RetryKeepsFence(db, a, delay, now, e);
    } else {
      assert !SubmissionAdvances(db.submissions[i], RetryTx(db, a, delay, now, e).db.submissions[i]);
    }
  }

  /** So does Fail; the one other case is that it repeats itself within the same instant and writes what is there. */
  lemma FailAdvancesIffActive(db: Db, a: AttemptId, now: Time)
    requires Fence(db) && FailTx(db, a, now).Commit?
    ensures var r := db.attempts[a];
      Advance(db, FailTx(db, a, now).db) <==>
          Active(r.status) || (r.status == FailedInternal && r.finishedAt == Some(now))
  {
    var i, db' := db.attempts[a].submission, FailTx(db, a, now).db;
    assert SubmissionOk(db, i) && AttemptOk(db, a);
    if Active(db.attempts[a].status) {
      FailKeepsFence(db, a, now);
    } else if db.attempts[a].status == Final {
      assert !SubmissionAdvances(db.submissions[i], db'.submissions[i]);
    } else {
      assert db.attempts[a].finishedAt == Some(now) ==> db'.submissions[i] == db.submissions[i];
      assert AttemptAdvances(db.attempts[a], db'.attempts[a]) <==> db.attempts[a].finishedAt == Some(now);
    }
  }

  /** One submission, judged FINAL by its first attempt. */
  function JudgedOnce(): Db {
    var p := Problem(true, ["cpp"], 1000, 64, [TestCase("1", "1")]);
    Db(map[0 := p],
       map[0 := Submission(p, "cpp", "x", Final, Result(Some(Accepted), 1, 1, 1, 1), Some(0), None, None, 1, Some(1))],
       map[0 := Attempt(0, 1, "w", Final, None, 0, Some(1))],
       map[])
  }

  /**
   A late Retry of that attempt would take the ACCEPTED submission back to the queue, and a late Fail would fail it.
   */
  lemma LateWritesThaw()
    ensures Fence(JudgedOnce())
    ensures RetryTx(JudgedOnce(), 0, 0, 2, 0).Commit? &&
        RetryTx(JudgedOnce(), 0, 0, 2, 0).db.submissions[0].status == Queued
    ensures FailTx(JudgedOnce(), 0, 2).Commit? && FailTx(JudgedOnce(), 0, 2).db.submissions[0].status == FailedInternal
  {
    var db := JudgedOnce();
    assert 0 in db.attempts && db.attempts[0].submission == 0 && db.attempts[0].number == 1;
    assert forall s, n | s in db.submissions && 1 <= n <= db.submissions[s].attempts :: HasNumber(db, s, n);
    assert SubmissionOk(db, 0) && AttemptOk(db, 0);
  }

  /** Renew changes at most the end of the one lease that the attempt holds. */
  lemma RenewTouchesOneLease(db: Db, a: AttemptId, lease: Time, now: Time)
    requires Fence(db) && RenewTx(db, a, lease, now).Commit?
    ensures var db' := RenewTx(db, a, lease, now).db;
      && db' == db.(submissions := db'.submissions) && db'.submissions.Keys == db.submissions.Keys
      && forall i :: i in db.submissions ==>
           db'.submissions[i] == if Current(db, a) && i == db.attempts[a].submission && Active(db.submissions[i].status)
                                 then db.submissions[i].(leaseUntil := Some(now + lease)) else db.submissions[i]
  {
    forall i | i in db.submissions
      ensures Renewable(db.submissions[i], a) ==> Current(db, a) && i == db.attempts[a].submission {
      assert SubmissionOk(db, i);
    }
  }

  lemma RenewKeepsFence(db: Db, a: AttemptId, lease: Time, now: Time)
    requires Fence(db) && RenewTx(db, a, lease, now).Commit?
    ensures var db' := RenewTx(db, a, lease, now).db; Fence(db') && Advance(db, db')
  {
    var db' := RenewTx(db, a, lease, now).db;
    RenewTouchesOneLease(db, a, lease, now);
    forall i | i in db'.submissions ensures SubmissionOk(db', i) {
      LeaseChangeKeepsRow(db, db', i);
    }
    forall e | e in db'.outbox ensures EventOk(db', e) {
      assert EventOk(db, e);
    }
    SameShapeKeepsFence(db, db');
  }

  lemma LeaseChangeKeepsRow(db: Db, db': Db, i: SubmissionId)
    requires Fence(db) && i in db.submissions && i in db'.submissions && db'.attempts == db.attempts
    requires db'.submissions[i] == db.submissions[i]
             || (Active(db.submissions[i].status) &&
                 exists t: Time :: db'.submissions[i] == db.submissions[i].(leaseUntil := Some(t)))
    ensures SubmissionOk(db', i)
  {
    assert SubmissionOk(db, i);
  }

  /** Renew reports success exactly when it extended the lease of the one submission that the attempt fences. */
  lemma RenewFences(db: Db, a: AttemptId, lease: Time, now: Time)
    requires Fence(db) && lease > 0
    ensures RenewTx(db, a, lease, now).Commit?
    ensures RenewTx(db, a, lease, now).value.Ok? <==> Fenced(db, a).Ok? && Active(db.attempts[a].status)
    ensures !(Fenced(db, a).Ok? && Active(db.attempts[a].status)) ==> RenewTx(db, a, lease, now).db == db
  {
    var rows := set i | i in db.submissions && Renewable(db.submissions[i], a);
    forall i | i in rows
      ensures a in db.attempts && i == db.attempts[a].submission
      ensures db.attempts[a].status == db.submissions[i].status {
      assert SubmissionOk(db, i);
    }
    if Fenced(db, a).Ok? && Active(db.attempts[a].status) {
      assert SubmissionOk(db, db.attempts[a].submission);
      assert rows == {db.attempts[a].submission};
    } else {
      assert rows == {};
      assert RenewRows(db, a, now + lease) == db.submissions;
    }
  }

  /** Attempts depend only on which submissions exist, how many attempts they had and which one is current. */
  lemma SameShapeKeepsFence(db: Db, db': Db)
    requires Fence(db)
    requires db'.attempts == db.attempts && db'.submissions.Keys == db.submissions.Keys
    requires forall i :: i in db.submissions ==>
               db'.submissions[i].attempts == db.submissions[i].attempts &&
                   db'.submissions[i].current == db.submissions[i].current
    requires forall i {:trigger SubmissionOk(db', i)} :: i in db'.submissions ==> SubmissionOk(db', i)
    requires forall e {:trigger EventOk(db', e)} :: e in db'.outbox ==> EventOk(db', e)
    ensures Fence(db')
  {
    forall b | b in db'.attempts ensures AttemptOk(db', b) {
      assert AttemptOk(db, b);
    }
    forall i, n | i in db'.submissions && 1 <= n <= db'.submissions[i].attempts ensures HasNumber(db', i, n) {
      NumberCarries(db, db', i, n);
    }
    forall x, y | x in db'.attempts && y in db'.attempts ensures NumbersDiffer(db', x, y) {
      assert NumbersDiffer(db, x, y);
    }
  }

  /** Changing the outbox alone cannot disturb the fence. */
  lemma OutboxChangeKeepsFence(db: Db, db': Db)
    requires Fence(db)
    requires db'.submissions == db.submissions && db'.attempts == db.attempts
    requires forall e :: e in db'.outbox ==> db'.outbox[e].submission in db.submissions
    ensures Fence(db')
  {
    forall i | i in db'.submissions ensures SubmissionOk(db', i) {
      assert SubmissionOk(db, i);
    }
    forall e | e in db'.outbox ensures EventOk(db', e) {}
    SameShapeKeepsFence(db, db');
  }

  lemma ReconcileKeepsFence(db: Db, now: Time, ids: map<SubmissionId, EventId>)
    requires Fence(db) && Insertable(db, ids)
    ensures Fence(ReconcileTx(db, now, ids).db) && Advance(db, ReconcileTx(db, now, ids).db)
  {
    var db' := ReconcileTx(db, now, ids).db;
    forall e | e in db'.outbox ensures db'.outbox[e].submission in db.submissions {
      if e in db.outbox {
        assert EventOk(db, e);
      } else {
        assert Addressee(ids, e) in ids;
      }
    }
    OutboxChangeKeepsFence(db, db');
  }

  lemma OutboxUpdateKeepsFence(db: Db, db': Db)
    requires Fence(db) && db' == db.(outbox := db'.outbox) && db'.outbox.Keys == db.outbox.Keys
    requires forall e :: e in db.outbox ==> EventAdvances(db.outbox[e], db'.outbox[e])
    ensures Fence(db') && Advance(db, db')
  {
    forall e | e in db'.outbox ensures db'.outbox[e].submission in db.submissions {
      assert EventOk(db, e);
    }
    OutboxChangeKeepsFence(db, db');
  }

  lemma ProblemChangeKeepsFence(db: Db, db': Db)
    requires Fence(db) && db' == db.(problems := db'.problems)
    ensures Fence(db') && Advance(db, db')
  {
    forall e | e in db'.outbox ensures db'.outbox[e].submission in db.submissions {
      assert EventOk(db, e);
    }
    OutboxChangeKeepsFence(db, db');
  }
}
