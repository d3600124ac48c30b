/** Shared result types and the way a remote call can go wrong. */
module Basics {

  datatype Option<+T> = None | Some(value: T)

  /** Why a database or queue call did not succeed. */
  datatype Error =
    | AlreadyTerminal(deadLetter: bool)  // judge.ErrTerminal together with Job.DeadLetter
    | Busy                               // judge.ErrBusy
    | Stale                              // judge.ErrStaleAttempt
    | NullScan                           // a NULL current_attempt_id scanned into a Go string
    | NoRows                             // pgx.ErrNoRows
    | Empty                              // redis.Nil
    | UniqueViolation                    // UNIQUE(submission_id, attempt_number)
    | Invalid                            // an argument or state guard failed
    | Unavailable                        // lost request, lost reply, or infrastructure failure

  datatype Reply<+T> = Ok(value: T) | Err(error: Error)

  /** One remote call: it succeeds, never reaches the server, or takes effect with its reply lost. */
  datatype Fault = Clean | Refused | ReplyLost

  /** Milliseconds on some clock. */
  type Time = int

  function Max(a: int, b: int): int {
    if a < b then b else a
  }

  function Min(a: int, b: int): int {
    if a < b then a else b
  }

  // Text

  /** The bytes of a character in UTF-8. */
  function Utf8Width(c: char): nat {
    var code := c as int;
    if code < 0x80 then 1 else if code < 0x800 then 2 else if code < 0x10000 then 3 else 4
  }

  /** What len says of a Go string with this text. */
  function Utf8Length(s: string): nat {
    if s == "" then 0 else Utf8Width(s[0]) + Utf8Length(s[1..])
  }

  lemma {:induction false} Utf8LengthConcat(s: string, t: string)
    ensures Utf8Length(s + t) == Utf8Length(s) + Utf8Length(t)
  {
    if s == "" {
      assert s + t == t;
    } else {
      assert (s + t)[1..] == s[1..] + t;
      Utf8LengthConcat(s[1..], t);
    }
  }

  /** The codes that n bytes of UTF-8 can hold: seven bits in one, eleven in two, and five more in each further one. */
  function Utf8Capacity(n: nat): int {
    if n == 0 then 0 else if n == 1 then 128 else if n == 2 then 2048 else 32 * Utf8Capacity(n - 1)
  }

  /** A character takes the fewest bytes that hold its code; a text is as long as it has characters only in ASCII. */
  lemma {:induction false} Utf8LengthMeans(s: string)
    ensures forall c: char :: Utf8Capacity(Utf8Length([c]) - 1) <= c as int < Utf8Capacity(Utf8Length([c]))
    ensures |s| <= Utf8Length(s) <= 4 * |s|
    ensures Utf8Length(s) == |s| <==> forall i :: 0 <= i < |s| ==> s[i] as int < 128
  {
    assert Utf8Capacity(4) == 0x20_0000 && Utf8Capacity(3) == 0x1_0000 && Utf8Capacity(2) == 0x800;
    forall c: char ensures Utf8Length([c]) == Utf8Width(c) {
      assert [c][1..] == "";
    }
    if s != "" {
      Utf8LengthMeans(s[1..]);
      assert s == [s[0]] + s[1..];
    }
  }

  // Sequences

  lemma ConcatAssociates<T>(a: seq<T>, b: seq<T>, c: seq<T>)
    ensures a + (b + c) == a + b + c
  {
  }

  lemma DropConcat<T>(s: seq<T>, t: seq<T>, n: nat)
    requires n <= |s|
    ensures (s + t)[n..] == s[n..] + t
  {
  }

  lemma SplitAround<T>(s: seq<T>, n: nat)
    requires n < |s|
    ensures s == s[..n] + [s[n]] + s[n + 1..]
  {
  }

  lemma AppendNothing<T>(s: seq<T>)
    ensures s + [] == s
  {
  }

  // Maps

  lemma SameMap<K, V>(a: map<K, V>, b: map<K, V>)
    requires forall k :: (k in a <==> k in b) && (k in b ==> a[k] == b[k])
    ensures a == b
  {
  }

  lemma OneValue<K, V>(k: K, v: V)
    ensures map[k := v].Values == {v}
  {
    assert map[k := v][k] == v;
  }
}
