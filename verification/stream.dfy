/**
 internal/queue/redis.go: the stream object. Redis' clock and the network's behaviour are parameters; the Lua scripts
 run as one step.
 */
module Transport {
  import opened Basics
  import opened Judging
  import opened Queue
  import opened Counting

  class Stream {
    var log: seq<SubmissionId>
    var delivered: nat
    var pending: map<MessageId, Pending>
    var dead: seq<DeadEntry>

    ghost function Contents(): Mq
      reads this
    {
      Mq(log, delivered, pending, dead)
    }

    constructor ()
      ensures Contents() == Mq([], 0, map[], [])
    {
      log, delivered, pending, dead := [], 0, map[], [];
    }

    method Publish(s: SubmissionId, fault: Fault) returns (reply: Reply<()>)
      modifies this
      ensures Contents() == if fault == Refused then old(Contents()) else Published(old(Contents()), s)
      ensures reply == if fault == Clean then Ok(()) else Err(Unavailable)
    {
      if fault == Refused {
        return Err(Unavailable);
      }
      log := log + [s];
      reply := if fault == Clean then Ok(()) else Err(Unavailable);
    }

    /** The lowest pending message that has been idle for long enough, within the reach of one scan. */
    method FirstIdle(now: Time, minIdle: Time) returns (pick: Option<MessageId>)
      requires WellFormed(Contents())
      ensures FirstPick(Contents(), pick, now, minIdle)
    {
      var m, scanned := 0, 0;
      while m < delivered && scanned < SCAN_LIMIT
        invariant 0 <= m <= delivered && scanned == |Before(Contents(), m)| <= SCAN_LIMIT
        invariant forall k :: k in Before(Contents(), m) ==> !IdleFor(Contents(), k, now, minIdle)
      {
        if m in pending {
          if now - pending[m].since >= minIdle {
            return Some(m);
          }
          scanned := scanned + 1;
        }
        BeforeNext(Contents(), m);
        m := m + 1;
      }
      forall k: nat | InReach(Contents(), k) ensures k in Before(Contents(), m) {
        if k >= m {
          SubsetSize(Before(Contents(), m), Before(Contents(), k));
        }
      }
      return None;
    }

    /** XAUTOCLAIM from 0-0 with COUNT 1. */
    method AutoClaim(consumer: string, now: Time, minIdle: Time, fault: Fault)
        returns (reply: Reply<Option<MessageId>>, ghost pick: Option<MessageId>)
      requires WellFormed(Contents())
      modifies this
      ensures FirstPick(old(Contents()), pick, now, minIdle)
      ensures Contents() == if fault == Refused || pick == None then old(Contents())
          else Taken(old(Contents()), pick, consumer, now)
      ensures fault != Refused && pick.Some? ==>
        && pick.value in old(pending) && now - old(pending)[pick.value].since >= minIdle && pick.value in pending
        && pending[pick.value] == Pending(consumer, now, old(pending)[pick.value].count + 1)
      ensures reply == if fault == Clean then Ok(pick) else Err(Unavailable)
    {
      var first := FirstIdle(now, minIdle);
      pick := first;
      if fault != Refused && first.Some? {
        pending := pending[first.value := Pending(consumer, now, pending[first.value].count + 1)];
      }
      reply := if fault == Clean then Ok(first) else Err(Unavailable);
    }

    /** XREADGROUP of one message that the group has not seen. */
    method ReadGroup(consumer: string, now: Time, fault: Fault) returns (reply: Reply<MessageId>)
      modifies this
      ensures Contents() == if fault == Refused || old(delivered) >= |old(log)| then old(Contents())
          else Taken(old(Contents()), None, consumer, now)
      ensures fault != Refused && old(delivered) < |old(log)| ==>
        old(delivered) in pending && pending[old(delivered)] == Pending(consumer, now, 1)
      ensures reply == if fault != Clean then Err(Unavailable)
          else if old(delivered) >= |old(log)| then Err(Empty) else Ok(old(delivered))
    {
      if fault == Refused {
        return Err(Unavailable);
      }
      if delivered >= |log| {
        return if fault == Clean then Err(Empty) else Err(Unavailable);
      }
      pending := pending[delivered := Pending(consumer, now, 1)];
      delivered := delivered + 1;
      reply := if fault == Clean then Ok(delivered - 1) else Err(Unavailable);
    }

    /** XPENDING of one message: the delivery is described only while it is still pending. */
    method Describe(m: MessageId, fault: Fault) returns (reply: Reply<Delivery>)
      ensures reply == if fault == Clean && m in pending && m < |log| then Ok(Delivery(m, log[m], pending[m].count))
                       else Err(Unavailable)
    {
      if fault == Clean && m in pending && m < |log| {
        reply := Ok(Delivery(m, log[m], pending[m].count));
      } else {
        reply := Err(Unavailable);
      }
    }

    method Ack(m: MessageId, fault: Fault) returns (reply: Reply<()>)
      modifies this
      ensures Contents() == if fault == Refused then old(Contents()) else Acked(old(Contents()), m)
      ensures reply == if fault == Clean then Ok(()) else Err(Unavailable)
    {
      if fault != Refused {
        pending := pending - {m};
      }
      reply := if fault == Clean then Ok(()) else Err(Unavailable);
    }

    method DeadLetter(d: Delivery, reason: string, fault: Fault) returns (reply: Reply<()>)
      modifies this
      ensures Contents() == if fault == Refused || reason == "" then old(Contents())
          else Buried(old(Contents()), d, reason)
      ensures reply == if reason == "" then Err(Invalid) else if fault == Clean then Ok(()) else Err(Unavailable)
    {
      if reason == "" {
        return Err(Invalid);
      }
      if fault != Refused {
        dead := dead + [DeadEntry(d.submission, d.message, d.deliveries, reason)];
        pending := pending - {d.message};
      }
      reply := if fault == Clean then Ok(()) else Err(Unavailable);
    }
  }

  lemma BeforeNext(mq: Mq, m: MessageId)
    ensures Before(mq, m + 1) == if m in mq.pending then Before(mq, m) + {m} else Before(mq, m)
  {
  }
}
