/** Sizes of finite sets of numbers. */
module Counting {

  /** The numbers 1..k. */
  function UpTo(k: nat): (r: set<int>)
    ensures |r| == k
    ensures forall n :: n in r <==> 1 <= n <= k
  {
    if k == 0 then {} else UpTo(k - 1) + {k}
  }

  lemma {:induction false} SubsetSize<T>(a: set<T>, b: set<T>)
    requires a <= b
    ensures |a| <= |b|
  {
    if a != {} {
      var x :| x in a;
      SubsetSize(a - {x}, b - {x});
    }
  }

  function Image<T>(s: set<T>, f: T -> int): set<int> {
    set x | x in s :: f(x)
  }

  lemma {:induction false} ImageSize<T>(s: set<T>, f: T -> int)
    ensures |Image(s, f)| <= |s|
  {
    if s != {} {
      var x :| x in s;
      ImageSize(s - {x}, f);
      assert Image(s, f) <= Image(s - {x}, f) + {f(x)};
      SubsetSize(Image(s, f), Image(s - {x}, f) + {f(x)});
    }
  }

  lemma {:induction false} InjectiveImageSize<T>(s: set<T>, f: T -> int)
    requires forall x, y :: x in s && y in s && x != y ==> f(x) != f(y)
    ensures |Image(s, f)| == |s|
  {
    if s != {} {
      var x :| x in s;
      InjectiveImageSize(s - {x}, f);
      assert Image(s, f) == Image(s - {x}, f) + {f(x)};
    }
  }

  /** Some number outside a finite set. */
  lemma {:induction false} SomeNumberOutside(s: set<nat>) returns (n: nat)
    ensures n !in s && forall x :: x in s ==> x < n
  {
    if s == {} {
      n := 0;
    } else {
      var x :| x in s;
      var k := SomeNumberOutside(s - {x});
      n := if k <= x then x + 1 else k;
      forall y | y in s ensures y < n {
        assert y == x || y in s - {x};
      }
    }
  }
}
