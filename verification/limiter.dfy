/** Allow of internal/queue/redis.go: a counter per key that expires one window after its first request. */
module RateLimit {
  import opened Basics

  /** A counter and the time at which its timeout has passed. */
  datatype Counter = Counter(n: nat, expiry: Time)

  datatype Request = Request(key: string, limit: int, window: Time, now: Time, fault: Fault)

  predicate Valid(r: Request) {
    r.limit >= 1 && r.window >= 1
  }

  /** The script runs at the server. */
  predicate Effective(r: Request) {
    Valid(r) && r.fault != Refused
  }

  predicate Alive(counters: map<string, Counter>, key: string, now: Time) {
    key in counters && now < counters[key].expiry
  }

  /** INCR, and PEXPIRE for the first request. */
  function Counted(counters: map<string, Counter>, r: Request): map<string, Counter> {
    if !Effective(r) then counters
    else if Alive(counters, r.key, r.now) then
      counters[r.key := Counter(counters[r.key].n + 1, counters[r.key].expiry)]
    else counters[r.key := Counter(1, r.now + r.window)]
  }

  /** The counters behind a sequence of requests. */
  function Counters(trace: seq<Request>, n: nat): map<string, Counter>
    requires n <= |trace|
  {
    if n == 0 then map[] else Counted(Counters(trace, n - 1), trace[n - 1])
  }

  /** The server counts request i within its limit. */
  predicate Permitted(trace: seq<Request>, i: nat)
    requires i < |trace|
  {
    var r := trace[i];
    Effective(r) && r.key in Counters(trace, i + 1) && Counters(trace, i + 1)[r.key].n <= r.limit
  }

  /** The counters of all API processes, which share one server. */
  class Limiter {
    var counters: map<string, Counter>
    ghost var trace: seq<Request>

    ghost predicate Valid()
      reads this
    {
      counters == Counters(trace, |trace|)
    }

    constructor ()
      ensures Valid() && trace == []
    {
      counters, trace := map[], [];
    }

    /** An error leaves allowed set when the call failed on its way: callers look at the error first. */
    method Allow(key: string, limit: int, window: Time, now: Time, fault: Fault)
        returns (allowed: bool, err: Option<Error>)
      requires Valid()
      modifies this
      ensures Valid() && trace == old(trace) + [Request(key, limit, window, now, fault)]
      ensures allowed && err == None <==> fault == Clean && Permitted(trace, |old(trace)|)
      ensures err == if limit < 1 || window < 1 then Some(Invalid) else if fault == Clean then None
          else Some(Unavailable)
    {
      ghost var r := Request(key, limit, window, now, fault);
      CountersSnoc(trace, r);
      trace := trace + [r];
      if limit < 1 || window < 1 {
        return false, Some(Invalid);
      }
      var count := 0;
      if fault != Refused {
        if key in counters && now < counters[key].expiry {
          count := counters[key].n + 1;
          counters := counters[key := Counter(count, counters[key].expiry)];
        } else {
          count := 1;
          counters := counters[key := Counter(1, now + window)];
        }
      }
      if fault != Clean {
        return true, Some(Unavailable);
      }
      allowed, err := count <= limit, None;
    }
  }

  lemma {:induction false} CountersOfPrefix(trace: seq<Request>, more: seq<Request>, n: nat)
    requires n <= |trace|
    ensures Counters(trace + more, n) == Counters(trace, n)
  {
    if n > 0 {
      CountersOfPrefix(trace, more, n - 1);
    }
  }

  lemma CountersSnoc(trace: seq<Request>, r: Request)
    ensures Counters(trace + [r], |trace| + 1) == Counted(Counters(trace, |trace|), r)
  {
    CountersOfPrefix(trace, [r], |trace|);
  }

  // Counting over stretches of a trace

  /** The requests for a key that reach the server between positions i and j. */
  function Hits(trace: seq<Request>, key: string, i: nat, j: nat): nat
    requires i <= j <= |trace|
  {
    if i == j then 0
    else
      var r := trace[j - 1];
      Hits(trace, key, i, j - 1)
        + if r.key == key && r.limit >= 1 && r.window >= 1 && (r.fault == Clean || r.fault == ReplyLost) then 1 else 0
  }

  /** Those of them that the server permits. */
  function Passed(trace: seq<Request>, key: string, i: nat, j: nat): nat
    requires i <= j <= |trace|
  {
    if i == j then 0
    else Passed(trace, key, i, j - 1) + if trace[j - 1].key == key && Permitted(trace, j - 1) then 1 else 0
  }

  /** All valid requests for the key share one limit and one window, and time does not run backwards. */
  ghost predicate Steady(trace: seq<Request>, key: string, limit: nat, window: Time) {
    && limit >= 1 && window >= 1
    && (forall i | 0 <= i < |trace| && trace[i].key == key && Valid(trace[i]) ::
          trace[i].limit == limit && trace[i].window == window)
    && forall i, j | 0 <= i <= j < |trace| :: trace[i].now <= trace[j].now
  }

  /** Request i finds no living counter for its key. */
  predicate Opens(trace: seq<Request>, i: nat)
    requires i < |trace|
  {
    Effective(trace[i]) && !Alive(Counters(trace, i), trace[i].key, trace[i].now)
  }

  /** A fixed window permits exactly as many of its requests as the limit allows. */
  lemma {:induction false} WindowCounts(trace: seq<Request>, limit: nat, window: Time, i: nat, j: nat)
    requires i < j <= |trace| && Opens(trace, i) && Steady(trace, trace[i].key, limit, window)
    requires trace[j - 1].now < trace[i].now + window
    ensures trace[i].key in Counters(trace, j)
    ensures Counters(trace, j)[trace[i].key] == Counter(Hits(trace, trace[i].key, i, j), trace[i].now + window)
    ensures Passed(trace, trace[i].key, i, j) == Min(Hits(trace, trace[i].key, i, j), limit)
  {
    if j > i + 1 {
      WindowCounts(trace, limit, window, i, j - 1);
    } else {
      assert Hits(trace, trace[i].key, i, i) == 0 && Passed(trace, trace[i].key, i, i) == 0;
    }
  }

  /** What a stretch that starts at time a has permitted, by the state of the counter. */
  ghost predicate Within(counters: map<string, Counter>, key: string, passed: nat, limit: nat, window: Time, a: Time) {
    if key !in counters then passed == 0
    else
      var c := counters[key];
      && c.n >= 1
      && (|| passed <= Min(limit, c.n) - 1
          || (c.expiry >= a + window && passed <= limit - 1 + Min(limit, c.n)))
  }

  lemma {:induction false} CountersArePositive(trace: seq<Request>, n: nat, key: string)
    requires n <= |trace|
    ensures key in Counters(trace, n) ==> Counters(trace, n)[key].n >= 1
  {
    if n > 0 {
      CountersArePositive(trace, n - 1, key);
    }
  }

  lemma {:induction false} StretchIsWithin(trace: seq<Request>, key: string, limit: nat, window: Time, i: nat,
                                           j: nat, a: Time)
    requires i <= j <= |trace| && Steady(trace, key, limit, window)
    requires forall k | i <= k < j :: a <= trace[k].now < a + window
    ensures Within(Counters(trace, j), key, Passed(trace, key, i, j), limit, window, a)
  {
    if i == j {
      CountersArePositive(trace, j, key);
    } else {
      StretchIsWithin(trace, key, limit, window, i, j - 1, a);
    }
  }

  /** Any half-open interval as long as the window permits fewer than twice the limit, wherever it starts. */
  lemma AnyIntervalIsBounded(trace: seq<Request>, key: string, limit: nat, window: Time, i: nat, j: nat, a: Time)
    requires i <= j <= |trace| && Steady(trace, key, limit, window)
    requires forall k | i <= k < j :: a <= trace[k].now < a + window
    ensures Passed(trace, key, i, j) <= 2 * limit - 1
  {
    StretchIsWithin(trace, key, limit, window, i, j, a);
  }

  /** One request at time 0, limit - 1 at the end of its window and limit right behind it. */
  function Burst(key: string, limit: nat, window: Time): seq<Request> {
    seq(2 * limit, i =>
      Request(key, limit, window, if i == 0 then 0 else if i < limit then window - 1 else window, Clean))
  }

  lemma {:induction false} AllHit(trace: seq<Request>, key: string, i: nat, j: nat)
    requires i <= j <= |trace| && forall k | i <= k < j :: trace[k].key == key && Effective(trace[k])
    ensures Hits(trace, key, i, j) == j - i
  {
    if i < j {
      AllHit(trace, key, i, j - 1);
    }
  }

  lemma {:induction false} PassedConcat(trace: seq<Request>, key: string, i: nat, j: nat, k: nat)
    requires i <= j <= k <= |trace|
    ensures Passed(trace, key, i, k) == Passed(trace, key, i, j) + Passed(trace, key, j, k)
  {
    if j < k {
      PassedConcat(trace, key, i, j, k - 1);
    }
  }

  lemma BurstIsSteady(key: string, limit: nat, window: Time)
    requires limit >= 1 && window >= 2
    ensures var t := Burst(key, limit, window);
      && Steady(t, key, limit, window)
      && (forall k | 0 <= k < |t| :: t[k].key == key && Effective(t[k]))
      && forall k | 1 <= k < |t| :: window - 1 <= t[k].now < window - 1 + window
  {
  }

  /** A window that opens at i and gets no more requests than the limit permits them all. */
  lemma WindowPermitsAll(t: seq<Request>, key: string, limit: nat, window: Time, i: nat, j: nat)
    requires i < j <= |t| && j - i <= limit && Steady(t, key, limit, window) && Opens(t, i) && t[i].key == key
    requires (forall k | i <= k < j :: t[k].key == key && Effective(t[k])) && t[j - 1].now < t[i].now + window
    ensures Passed(t, key, i, j) == j - i && key in Counters(t, j) && Counters(t, j)[key].expiry == t[i].now + window
  {
    AllHit(t, key, i, j);
    WindowCounts(t, limit, window, i, j);
  }

  /** The bound is reached for every limit: the interval that starts at window - 1 permits 2 * limit - 1 requests. */
  lemma BoundIsReached(key: string, limit: nat, window: Time)
    requires limit >= 1 && window >= 2
    ensures var t := Burst(key, limit, window);
      && (forall k | 1 <= k < |t| :: window - 1 <= t[k].now < window - 1 + window)
      && Steady(t, key, limit, window)
      && Passed(t, key, 1, |t|) == 2 * limit - 1
  {
    var t := Burst(key, limit, window);
    BurstIsSteady(key, limit, window);
    WindowPermitsAll(t, key, limit, window, 0, 1);
    WindowPermitsAll(t, key, limit, window, 0, limit);
    WindowPermitsAll(t, key, limit, window, limit, 2 * limit);
    PassedConcat(t, key, 0, 1, 2 * limit);
    PassedConcat(t, key, 0, limit, 2 * limit);
  }
}
