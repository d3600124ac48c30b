/**
 internal/database: the repository object. Each method is one transaction: it works on copies of the rows and writes
 them back on commit. The database clock, generated identifiers and the network's behaviour are parameters.
 */
module Repository {
  import opened Basics
  import opened Lifecycle
  import opened Judging
  import opened Database
  import opened Answers

  /** The reply that reaches the caller. */
  function Through<T>(fault: Fault, reply: Reply<T>): Reply<T> {
    if fault == Clean then reply else Err(Unavailable)
  }

  class Store {
    var problems: map<ProblemId, Problem>
    var submissions: map<SubmissionId, Submission>
    var attempts: map<AttemptId, Attempt>
    var outbox: map<EventId, Event>

    ghost function Rows(): Db
      reads this
    {
      Db(problems, submissions, attempts, outbox)
    }

    constructor ()
      ensures Rows() == Db(map[], map[], map[], map[])
    {
      problems, submissions, attempts, outbox := map[], map[], map[], map[];
    }

    method SaveProblem(id: ProblemId, p: Problem)
      modifies this
      ensures Rows() == SaveProblemTx(old(Rows()), id, p).db
    {
      problems := problems[id := p];
    }

    method CreateSubmission(id: ProblemId, language: string, source: string, now: Time,
                            s: SubmissionId, e: EventId, fault: Fault) returns (reply: Reply<SubmissionId>)
      modifies this
      ensures Rows() == Stored(old(Rows()), CreateTx(old(Rows()), id, language, source, now, s, e), fault)
      ensures reply == Reported(CreateTx(old(Rows()), id, language, source, now, s, e), fault)
      ensures fault == Clean ==> (reply.Ok? <==> id in problems && Admissible(problems[id], language, source))
    {
      if fault == Refused {
        return Err(Unavailable);
      }
      if Utf8Length(source) < 1 || Utf8Length(source) > 65536 {
        return Through(fault, Err(Invalid));
      }
      if id !in problems {
        return Through(fault, Err(NoRows));
      }
      var p := problems[id];
      if !p.published || language !in p.languages {
        return Through(fault, Err(Invalid));
      }
      var row := Submission(p, language, source, Queued, Blank(|p.tests|), None, None, None, 0, None);
      submissions := submissions[s := row];
      outbox := outbox[e := Event(s, now, now, None, None, None)];
      reply := Through(fault, Ok(s));
    }

    method Claim(id: SubmissionId, worker: string, lease: Time, now: Time, localNow: Time,
                 attempt: AttemptId, fault: Fault) returns (reply: Reply<Job>)
      modifies this
      ensures Rows() == Stored(old(Rows()), ClaimTx(old(Rows()), id, worker, lease, now, localNow, attempt), fault)
      ensures reply == Reported(ClaimTx(old(Rows()), id, worker, lease, now, localNow, attempt), fault)
      ensures fault == Clean && worker != "" && lease > 0 && id in old(submissions) ==>
        var row := old(submissions)[id];
        && (reply == Err(Busy) <==> Contended(row, localNow))
        && (reply.Err? && reply.error.AlreadyTerminal? <==> row.status == Final || row.status == FailedInternal)
    {
      if fault == Refused {
        return Err(Unavailable);
      }
      if worker == "" || lease <= 0 {
        return Through(fault, Err(Invalid));
      }
      if id !in submissions {
        return Through(fault, Err(NoRows));
      }
      var s := submissions[id];
      if s.status == Final || s.status == FailedInternal {
        var exhausted := s.current.Some? && s.current.value in attempts &&
            attempts[s.current.value].code == Some(AttemptsExhausted);
        return Through(fault, Err(AlreadyTerminal(exhausted)));
      }
      if s.retryAfter.Some? && s.retryAfter.value > localNow {
        return Through(fault, Err(Busy));
      }
      if s.status != Queued && s.leaseUntil.Some? && s.leaseUntil.value > localNow {
        return Through(fault, Err(Busy));
      }
      var rows := attempts;
      if s.status != Queued && s.current.Some? {
        var displaced := s.current.value;
        if displaced in rows && Active(rows[displaced].status) {
          rows := rows[displaced := rows[displaced].(status := FailedInternal, code := Some(LeaseExpired),
              finishedAt := Some(now))];
        }
      }
      var number := s.attempts + 1;
      if NumberTaken(rows, id, number) {
        return Through(fault, Err(UniqueViolation));
      }
      attempts := rows[attempt := Attempt(id, number, worker, Claimed, None, now, None)];
      submissions := submissions[id := s.(status := Claimed, current := Some(attempt), leaseUntil := Some(now + lease),
                                          retryAfter := None, attempts := number)];
      reply := Through(fault, Ok(Job(id, attempt, number, s.language, s.source, s.problem)));
    }

    /** The row-locking SELECT that every fenced write starts with. */
    method Lock(attempt: AttemptId) returns (locked: Reply<SubmissionId>)
      ensures locked == Fenced(Rows(), attempt)
    {
      if attempt !in attempts || attempts[attempt].submission !in submissions {
        return Err(NoRows);
      }
      var s := attempts[attempt].submission;
      match submissions[s].current
      case None => return Err(NullScan);
      case Some(current) =>
        if current != attempt {
          return Err(Stale);
        }
        return Ok(s);
    }

    method Transition(attempt: AttemptId, to: Status, fault: Fault) returns (reply: Reply<()>)
      modifies this
      ensures Rows() == Stored(old(Rows()), TransitionTx(old(Rows()), attempt, to), fault)
      ensures reply == Reported(TransitionTx(old(Rows()), attempt, to), fault)
    {
      if fault == Refused {
        return Err(Unavailable);
      }
      var locked := Lock(attempt);
      if locked.Err? {
        return Through(fault, Err(locked.error));
      }
      if !CanTransition(attempts[attempt].status, to) {
        return Through(fault, Err(Invalid));
      }
      attempts := attempts[attempt := attempts[attempt].(status := to)];
      submissions := submissions[locked.value := submissions[locked.value].(status := to)];
      reply := Through(fault, Ok(()));
    }

    method Renew(attempt: AttemptId, lease: Time, now: Time, fault: Fault) returns (reply: Reply<()>)
      modifies this
      ensures Rows() == Stored(old(Rows()), RenewTx(old(Rows()), attempt, lease, now), fault)
      ensures var seen := Reported(RenewTx(old(Rows()), attempt, lease, now), fault);
              reply == if seen.Ok? then seen.value else Err(seen.error)
    {
      if fault == Refused {
        return Err(Unavailable);
      }
      if lease <= 0 {
        return Through(fault, Err(Invalid));
      }
      var rows := set i | i in submissions && Renewable(submissions[i], attempt);
      submissions := map i | i in submissions ::
        if i in rows then submissions[i].(leaseUntil := Some(now + lease)) else submissions[i];
      reply := Through(fault, if |rows| == 1 then Ok(()) else Err(Stale));
    }

    method Finish(attempt: AttemptId, r: Result, now: Time, fault: Fault) returns (reply: Reply<()>)
      modifies this
      ensures Rows() == Stored(old(Rows()), FinishTx(old(Rows()), attempt, r, now), fault)
      ensures reply == Reported(FinishTx(old(Rows()), attempt, r, now), fault)
    {
      if fault == Refused {
        return Err(Unavailable);
      }
      var locked := Lock(attempt);
      if locked.Err? {
        return Through(fault, Err(locked.error));
      }
      var status := attempts[attempt].status;
      if status != Running && !(status == Compiling && r.verdict == Some(CompilationError)) {
        return Through(fault, Err(Invalid));
      }
      attempts := attempts[attempt := attempts[attempt].(status := Final, finishedAt := Some(now))];
      submissions := submissions[locked.value := submissions[locked.value].(
                                   status := Final, result := r, leaseUntil := None, retryAfter := None,
                                   finishedAt := Some(now))];
      reply := Through(fault, Ok(()));
    }

    method Retry(attempt: AttemptId, delay: Time, now: Time, e: EventId, fault: Fault) returns (reply: Reply<()>)
      modifies this
      ensures Rows() == Stored(old(Rows()), RetryTx(old(Rows()), attempt, delay, now, e), fault)
      ensures reply == Reported(RetryTx(old(Rows()), attempt, delay, now, e), fault)
    {
      if fault == Refused {
        return Err(Unavailable);
      }
      if delay < 0 || delay > RETRY_LIMIT {
        return Through(fault, Err(Invalid));
      }
      var locked := Lock(attempt);
      if locked.Err? {
        return Through(fault, Err(locked.error));
      }
      attempts := attempts[attempt := attempts[attempt].(
                             status := FailedInternal, code := Some(Transient), finishedAt := Some(now))];
      submissions := submissions[locked.value := submissions[locked.value].(
                                   status := Queued, current := None, leaseUntil := None,
                                       retryAfter := Some(now + delay))];
      outbox := outbox[e := Event(locked.value, now, now + delay, None, None, None)];
      reply := Through(fault, Ok(()));
    }

    method Fail(attempt: AttemptId, now: Time, fault: Fault) returns (reply: Reply<()>)
      modifies this
      ensures Rows() == Stored(old(Rows()), FailTx(old(Rows()), attempt, now), fault)
      ensures reply == Reported(FailTx(old(Rows()), attempt, now), fault)
    {
      if fault == Refused {
        return Err(Unavailable);
      }
      var locked := Lock(attempt);
      if locked.Err? {
        return Through(fault, Err(locked.error));
      }
      attempts := attempts[attempt := attempts[attempt].(
                             status := FailedInternal, code := Some(AttemptsExhausted), finishedAt := Some(now))];
      submissions := submissions[locked.value := submissions[locked.value].(
                                   status := FailedInternal, leaseUntil := None, retryAfter := None,
                                   finishedAt := Some(now))];
      reply := Through(fault, Ok(()));
    }

    /** SELECT ... ORDER BY created_at FOR UPDATE SKIP LOCKED LIMIT, when other transactions hold the locked rows. */
    method SelectReady(now: Time, limit: nat, locked: set<EventId>) returns (rows: seq<EventId>)
      ensures IsBatch(Rows(), now, limit, locked, rows)
    {
      var pool := set e | e in outbox && Ready(outbox[e], now) && e !in locked;
      ghost var ready := pool;
      rows := [];
      while |rows| < limit && pool != {}
        invariant |rows| <= limit && pool <= ready
        invariant forall e :: e in ready <==> e in pool || e in rows
        invariant forall e :: e in rows ==> e !in pool
        invariant forall i, j :: 0 <= i < j < |rows| ==> rows[i] != rows[j]
        invariant forall e, d :: e in rows && d in pool ==> outbox[e].createdAt <= outbox[d].createdAt
        decreases limit - |rows|
      {
        var oldest := OldestIn(pool);
        rows := rows + [oldest];
        pool := pool - {oldest};
      }
      assert ready == ReadyEvents(Rows(), now, locked);
    }

    method OldestIn(pool: set<EventId>) returns (oldest: EventId)
      requires pool != {} && pool <= outbox.Keys
      ensures oldest in pool && forall d :: d in pool ==> outbox[oldest].createdAt <= outbox[d].createdAt
    {
      oldest :| oldest in pool;
      var left := pool - {oldest};
      while left != {}
        invariant left <= pool && oldest in pool
        invariant forall d :: d in pool && d !in left ==> outbox[oldest].createdAt <= outbox[d].createdAt
        decreases left
      {
        var e :| e in left;
        left := left - {e};
        if outbox[e].createdAt < outbox[oldest].createdAt {
          oldest := e;
        }
      }
    }

    /** rows is what the leasing UPDATE returns, in the order in which it returns it. */
    method ClaimOutbox(publisher: string, limit: int, lease: Time, now: Time, ghost locked: set<EventId>,
                       rows: seq<EventId>, fault: Fault) returns (reply: Reply<seq<OutboxEvent>>)
      requires IsBatch(Rows(), now, limit, locked, rows)
      modifies this
      ensures Rows() == Stored(old(Rows()), ClaimOutboxTx(old(Rows()), publisher, limit, lease, now, rows), fault)
      ensures reply == Reported(ClaimOutboxTx(old(Rows()), publisher, limit, lease, now, rows), fault)
    {
      if fault == Refused {
        return Err(Unavailable);
      }
      if publisher == "" || limit < 1 || limit > 100 || lease <= 0 {
        return Through(fault, Err(Invalid));
      }
      outbox := map e | e in outbox ::
        if e in rows then outbox[e].(claimedBy := Some(publisher), claimedUntil := Some(now + lease)) else outbox[e];
      var events: seq<OutboxEvent> := [];
      while |events| < |rows|
        invariant |events| <= |rows| && forall k | 0 <= k < |rows| :: rows[k] in outbox
        invariant events == Refs(old(Rows()), rows)[..|events|]
        invariant outbox.Keys == old(outbox).Keys
        invariant forall e :: e in outbox ==> outbox[e].submission == old(outbox)[e].submission
        decreases |rows| - |events|
      {
        var e := rows[|events|];
        events := events + [OutboxEvent(e, outbox[e].submission)];
      }
      assert events == Refs(old(Rows()), rows);
      reply := Through(fault, Ok(events));
    }

    method MarkPublished(e: EventId, now: Time, fault: Fault) returns (reply: Reply<()>)
      modifies this
      ensures Rows() == Stored(old(Rows()), MarkPublishedTx(old(Rows()), e, now), fault)
      ensures reply == Reported(MarkPublishedTx(old(Rows()), e, now), fault)
    {
      if fault == Refused {
        return Err(Unavailable);
      }
      if e !in outbox || outbox[e].publishedAt != None {
        return Through(fault, Err(NoRows));
      }
      outbox := outbox[e := outbox[e].(publishedAt := Some(now), claimedUntil := None)];
      reply := Through(fault, Ok(()));
    }

    /** The SELECT of the reconciling INSERT ... SELECT, which sees the rows as they are when the statement begins. */
    method SelectUncarried(now: Time) returns (picked: set<SubmissionId>)
      ensures forall s :: s in picked <==> NeedsEvent(Rows(), s, now)
    {
      var due := set s | s in submissions && submissions[s].status == Queued && !After(submissions[s].retryAfter, now);
      picked := set s | s in due && forall e | e in outbox ::
        outbox[e].submission == s ==> outbox[e].publishedAt != None && outbox[e].createdAt < now - RECONCILE_AGE;
    }

    /** Its INSERT, with the identifiers that it generates. No row of a picked submission was locked in between. */
    method InsertEvents(begun: Time, ids: map<SubmissionId, EventId>, fault: Fault) returns (reply: Reply<nat>)
      requires Insertable(Rows(), ids)
      modifies this
      ensures Rows() == Stored(old(Rows()), ReconcileTx(old(Rows()), begun, ids), fault)
      ensures reply == Reported(ReconcileTx(old(Rows()), begun, ids), fault)
    {
      if fault == Refused {
        return Err(Unavailable);
      }
      var added := NewEvents(begun, ids);
      InsertedAll(Rows(), begun, ids, added);
      outbox := outbox + added;
      reply := Through(fault, Ok(|ids|));
    }

    /** One new event for each key of ids. */
    method NewEvents(now: Time, ids: map<SubmissionId, EventId>) returns (added: map<EventId, Event>)
      requires Injective(ids)
      ensures Inserted(now, ids, ids.Keys, added)
    {
      var todo := ids.Keys;
      ghost var done: set<SubmissionId> := {};
      added := map[];
      while todo != {}
        invariant done + todo == ids.Keys
        invariant Inserted(now, ids, done, added)
        decreases todo
      {
        var s :| s in todo;
        InsertedOneMore(now, ids, done, added, s);
        added := added[ids[s] := Event(s, now, now, None, None, None)];
        todo, done := todo - {s}, done + {s};
      }
      assert done == ids.Keys;
    }
  }

  /** One event for each of the submissions done, and no others. */
  ghost predicate Inserted(now: Time, ids: map<SubmissionId, EventId>, done: set<SubmissionId>,
                           added: map<EventId, Event>) {
    && (forall e :: e in added ==> e in ids.Values && added[e] == NewEvent(Addressee(ids, e), now, 0))
    && forall s :: s in done && s in ids ==> ids[s] in added
  }

  lemma AddresseeIs(ids: map<SubmissionId, EventId>, s: SubmissionId)
    requires Injective(ids) && s in ids
    ensures ids[s] in ids.Values && Addressee(ids, ids[s]) == s
  {
  }

  lemma InsertedOneMore(now: Time, ids: map<SubmissionId, EventId>, done: set<SubmissionId>,
                        added: map<EventId, Event>, s: SubmissionId)
    requires Injective(ids) && s in ids && Inserted(now, ids, done, added)
    ensures Inserted(now, ids, done + {s}, added[ids[s] := NewEvent(s, now, 0)])
  {
    AddresseeIs(ids, s);
  }

  lemma InsertedRow(now: Time, ids: map<SubmissionId, EventId>, added: map<EventId, Event>, e: EventId)
    requires Inserted(now, ids, ids.Keys, added)
    ensures e in added <==> e in ids.Values
    ensures e in added ==> added[e] == NewEvent(Addressee(ids, e), now, 0)
  {
    if e in ids.Values {
      var s := Addressee(ids, e);
      assert s in ids.Keys && ids[s] in added;
    }
  }

  lemma InsertedEach(was: map<EventId, Event>, whole: map<EventId, Event>, now: Time,
                     ids: map<SubmissionId, EventId>, added: map<EventId, Event>, e: EventId)
    requires Inserted(now, ids, ids.Keys, added) && (e in ids.Values ==> e !in was)
    requires whole == map k | k in was.Keys + ids.Values :: if k in was then was[k]
        else NewEvent(Addressee(ids, k), now, 0)
    ensures e in was + added <==> e in whole
    ensures e in whole ==> (was + added)[e] == whole[e]
  {
    InsertedRow(now, ids, added, e);
  }

  lemma InsertedAll(db: Db, now: Time, ids: map<SubmissionId, EventId>, added: map<EventId, Event>)
    requires Insertable(db, ids) && Inserted(now, ids, ids.Keys, added)
    ensures db.outbox + added == ReconcileTx(db, now, ids).db.outbox
  {
    var whole := ReconcileTx(db, now, ids).db.outbox;
    forall e ensures e in db.outbox + added <==> e in whole
             ensures e in whole ==> (db.outbox + added)[e] == whole[e] {
      assert e in ids.Values ==> Addressee(ids, e) in ids;
      InsertedEach(db.outbox, whole, now, ids, added, e);
    }
    SameMap(db.outbox + added, whole);
  }
}
