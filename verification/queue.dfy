/** The Redis stream of internal/queue/redis.go: log, consumer group and dead-letter stream. */
module Queue {
  import opened Basics
  import opened Judging

  /** Messages are numbered in stream order, as Redis orders its message IDs. */
  type MessageId = nat

  datatype Delivery = Delivery(message: MessageId, submission: SubmissionId, deliveries: int)

  datatype Pending = Pending(consumer: string, since: Time, count: int)

  datatype DeadEntry = DeadEntry(submission: SubmissionId, source: MessageId, deliveries: int, reason: string)

  /** log[..delivered] has been handed out at least once; pending is the group's pending list. */
  datatype Mq = Mq(log: seq<SubmissionId>, delivered: nat, pending: map<MessageId, Pending>, dead: seq<DeadEntry>)

  function Published(mq: Mq, s: SubmissionId): Mq {
    mq.(log := mq.log + [s])
  }

  predicate IdleFor(mq: Mq, m: MessageId, now: Time, minIdle: Time) {
    m in mq.pending && now - mq.pending[m].since >= minIdle
  }

  /** XAUTOCLAIM of one pending message: a new owner, a fresh idle time, one more delivery. */
  function Reclaimed(mq: Mq, m: MessageId, consumer: string, now: Time): Mq
    requires m in mq.pending
  {
    mq.(pending := mq.pending[m := Pending(consumer, now, mq.pending[m].count + 1)])
  }

  /** XREADGROUP of the next message that nobody has seen. */
  function ReadNew(mq: Mq, consumer: string, now: Time): Mq {
    mq.(delivered := mq.delivered + 1, pending := mq.pending[mq.delivered := Pending(consumer, now, 1)])
  }

  /** What one receive takes: a pending message, or the next new one. */
  predicate CanTake(mq: Mq, pick: Option<MessageId>, now: Time, minIdle: Time) {
    match pick
    case Some(m) => IdleFor(mq, m, now, minIdle)
    case None => mq.delivered < |mq.log|
  }

  function Taken(mq: Mq, pick: Option<MessageId>, consumer: string, now: Time): Mq
    requires pick.Some? ==> pick.value in mq.pending
  {
    match pick
    case Some(m) => Reclaimed(mq, m, consumer, now)
    case None => ReadNew(mq, consumer, now)
  }

  /**
   A message that is taken belongs to the caller, with one more delivery, and has been idle for some time only that much
   later; no other message is touched.
   */
  lemma TakenIsFresh(mq: Mq, pick: Option<MessageId>, consumer: string, now: Time, minIdle: Time, later: Time,
                     k: MessageId)
    requires WellFormed(mq) && CanTake(mq, pick, now, minIdle)
    ensures var m, mq' := TakenMessage(mq, pick), Taken(mq, pick, consumer, now);
      && m in mq'.pending && mq'.pending[m].consumer == consumer
      && mq'.pending[m].count == (if m in mq.pending then mq.pending[m].count + 1 else 1)
      && (forall idle: Time :: IdleFor(mq', m, later, idle) <==> later >= now + idle)
      && mq'.log == mq.log && mq'.dead == mq.dead && (k < mq'.delivered <==> k < mq.delivered || k == m)
      && (k != m ==> (k in mq'.pending <==> k in mq.pending) && (k in mq.pending ==> mq'.pending[k] == mq.pending[k]))
  {
  }

  function TakenMessage(mq: Mq, pick: Option<MessageId>): MessageId {
    match pick
    case Some(m) => m
    case None => mq.delivered
  }

  /** One call of XAUTOCLAIM with COUNT 1 looks at this many pending entries. */
  const SCAN_LIMIT: nat := 10

  /** The pending entries in front of message m. */
  function Before(mq: Mq, m: MessageId): set<MessageId> {
    set k | k in mq.pending && k < m
  }

  /** The entry lies within the reach of a scan from the lowest ID. */
  predicate InReach(mq: Mq, m: MessageId) {
    m in mq.pending && |Before(mq, m)| < SCAN_LIMIT
  }

  /**
   XAUTOCLAIM scans from the lowest ID, and new messages are read only when it finds nothing idle within its reach.
   */
  ghost predicate FirstPick(mq: Mq, pick: Option<MessageId>, now: Time, minIdle: Time) {
    match pick
    case Some(m) =>
      && InReach(mq, m) && IdleFor(mq, m, now, minIdle)
      && forall k :: k in Before(mq, m) ==> !IdleFor(mq, k, now, minIdle)
    case None => forall k: MessageId :: InReach(mq, k) ==> !IdleFor(mq, k, now, minIdle)
  }

  /** With ten pending entries in front of it, a message is not looked at. */
  lemma TenEntriesBlock(mq: Mq, m: MessageId, pick: Option<MessageId>, now: Time, minIdle: Time)
    requires FirstPick(mq, pick, now, minIdle) && m in mq.pending && IdleFor(mq, m, now, minIdle)
    requires forall k :: k in mq.pending && k < m ==> !IdleFor(mq, k, now, minIdle)
    ensures pick == Some(m) <==> |set k | k in mq.pending && k < m| <= 9
    ensures |set k | k in mq.pending && k < m| <= 9 ==> pick.Some?
  {
    assert Before(mq, m) == set k | k in mq.pending && k < m;
    assert InReach(mq, m) <==> |Before(mq, m)| <= 9;
  }

  function Acked(mq: Mq, m: MessageId): Mq {
    mq.(pending := mq.pending - {m})
  }

  /** The Lua script of DeadLetter: append and acknowledge as one step. */
  function Buried(mq: Mq, d: Delivery, reason: string): Mq {
    Acked(mq, d.message).(dead := mq.dead + [DeadEntry(d.submission, d.message, d.deliveries, reason)])
  }

  predicate Unacked(mq: Mq, m: MessageId) {
    m in mq.pending || mq.delivered <= m < |mq.log|
  }

  ghost predicate WellFormed(mq: Mq) {
    && mq.delivered <= |mq.log|
    && forall m :: m in mq.pending ==> m < mq.delivered
  }
}
