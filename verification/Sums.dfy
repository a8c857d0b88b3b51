/** Sums over finite sets. */
module Sums {

  ghost function Sum<T(!new)>(s: set<T>, f: T -> int): int {
    if s == {} then 0 else
    var x :| x in s;
    f(x) + Sum(s - {x}, f)
  }

  lemma SumEmpty<T(!new)>(f: T -> int)
    ensures Sum({}, f) == 0
  {
  }

  /** Any element may be taken out first. */
  lemma {:induction false} SumTake<T(!new)>(s: set<T>, f: T -> int, x: T)
    requires x in s
    ensures Sum(s, f) == f(x) + Sum(s - {x}, f)
    decreases s
  {
    var y :| y in s && Sum(s, f) == f(y) + Sum(s - {y}, f);
    if y != x {
      SumTake(s - {y}, f, x);
      SumTake(s - {x}, f, y);
      assert s - {y} - {x} == s - {x} - {y};
    }
  }

  lemma SumAdd<T(!new)>(s: set<T>, f: T -> int, x: T)
    requires x !in s
    ensures Sum(s + {x}, f) == Sum(s, f) + f(x)
  {
    SumTake(s + {x}, f, x);
    assert s + {x} - {x} == s;
  }

  lemma {:induction false} SumUnion<T(!new)>(a: set<T>, b: set<T>, f: T -> int)
    requires a !! b
    ensures Sum(a + b, f) == Sum(a, f) + Sum(b, f)
    decreases a
  {
    if a == {} {
      assert a + b == b;
    } else {
      var x :| x in a;
      SumTake(a, f, x);
      SumTake(a + b, f, x);
      SumUnion(a - {x}, b, f);
      assert a + b - {x} == (a - {x}) + b;
    }
  }

  lemma SumMinus<T(!new)>(a: set<T>, b: set<T>, f: T -> int)
    requires b <= a
    ensures Sum(a - b, f) == Sum(a, f) - Sum(b, f)
  {
    SumUnion(a - b, b, f);
    assert (a - b) + b == a;
  }

  lemma {:induction false} SumSame<T(!new)>(s: set<T>, f: T -> int, g: T -> int)
    requires forall x :: x in s ==> f(x) == g(x)
    ensures Sum(s, f) == Sum(s, g)
    decreases s
  {
    if s != {} {
      var x :| x in s;
      SumTake(s, f, x);
      SumTake(s, g, x);
      SumSame(s - {x}, f, g);
    }
  }

  lemma {:induction false} SumNonNegative<T(!new)>(s: set<T>, f: T -> int)
    requires forall x :: x in s ==> 0 <= f(x)
    ensures 0 <= Sum(s, f)
    decreases s
  {
    if s != {} {
      var x :| x in s;
      SumTake(s, f, x);
      SumNonNegative(s - {x}, f);
    }
  }

  lemma SumSubset<T(!new)>(a: set<T>, b: set<T>, f: T -> int)
    requires a <= b && forall x :: x in b ==> 0 <= f(x)
    ensures Sum(a, f) <= Sum(b, f)
  {
    SumMinus(b, a, f);
    SumNonNegative(b - a, f);
  }

  /** A sum over disjoint parts is the sum over their union. */
  lemma {:induction false} SumParts<K(!new), T(!new)>(
    ks: set<K>, part: K -> set<T>, g: K -> int, f: T -> int, all: set<T>)
    requires forall j, k :: j in ks && k in ks && j != k ==> part(j) !! part(k)
    requires forall k :: k in ks ==> part(k) <= all && g(k) == Sum(part(k), f)
    requires forall x :: x in all ==> exists k :: k in ks && x in part(k)
    ensures Sum(ks, g) == Sum(all, f)
    decreases ks
  {
    if ks == {} {
      assert all == {};
    } else {
      var k :| k in ks;
      SumTake(ks, g, k);
      var rest := all - part(k);
      forall x | x in rest ensures exists j :: j in ks - {k} && x in part(j) {
        var j :| j in ks && x in part(j);
      }
      forall j | j in ks - {k} ensures part(j) <= rest {}
      SumParts(ks - {k}, part, g, f, rest);
      SumMinus(all, part(k), f);
    }
  }

  /** Terms that count only in part of the set. */
  lemma SumFilter<T(!new)>(s: set<T>, part: set<T>, f: T -> int, g: T -> int)
    requires part <= s && forall x :: x in s ==> g(x) == if x in part then f(x) else 0
    ensures Sum(s, g) == Sum(part, f)
  {
    SumMinus(s, part, g);
    SumSame(part, f, g);
    SumZero(s - part, g);
  }

  lemma {:induction false} SumZero<T(!new)>(s: set<T>, f: T -> int)
    requires forall x :: x in s ==> f(x) == 0
    ensures Sum(s, f) == 0
    decreases s
  {
    if s != {} {
      var x :| x in s;
      SumTake(s, f, x);
      SumZero(s - {x}, f);
    }
  }

  lemma {:induction false} SumPlus<T(!new)>(s: set<T>, f: T -> int, a: T -> int, b: T -> int)
    requires forall x :: x in s ==> f(x) == a(x) + b(x)
    ensures Sum(s, f) == Sum(s, a) + Sum(s, b)
    decreases s
  {
    if s != {} {
      var x :| x in s;
      SumTake(s, f, x);
      SumTake(s, a, x);
      SumTake(s, b, x);
      SumPlus(s - {x}, f, a, b);
    }
  }

  function Elements<T(==, !new)>(s: seq<T>): (r: set<T>)
    ensures forall x :: x in r <==> x in s
  {
    set x | x in s
  }

  /** One more element of a sequence without repetitions. */
  lemma SumNext<T(!new)>(s: seq<T>, n: nat, f: T -> int)
    requires n < |s| && s[n] !in s[..n]
    ensures Sum(Elements(s[..n+1]), f) == Sum(Elements(s[..n]), f) + f(s[n])
  {
    assert Elements(s[..n+1]) == Elements(s[..n]) + {s[n]};
    SumAdd(Elements(s[..n]), f, s[n]);
  }

  lemma SomeElement<T(!new)>(s: set<T>) returns (x: T)
    requires s != {}
    ensures x in s
  {
    x :| x in s;
  }
}
