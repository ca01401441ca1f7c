/** Counting arguments about quorums of 2*((n-1)/3)+1 among n nodes. */
module Quorums {
  import opened Pbft

  /** How many faulty nodes the quorum size is meant for. */
  function MaxFaulty(n: int): (f: int)
    ensures n >= 1 ==> 0 <= f && 3 * f < n && n <= 3 * f + 3 && Quorum(n) == 2 * f + 1
  {
    (Max(1, n) - 1) / 3
  }

  lemma UnionSize<T>(a: set<T>, b: set<T>)
    ensures |a + b| + |a * b| == |a| + |b|
  {
    assert a + b == (a - b) + (a * b) + (b - a);
    assert a == (a - b) + (a * b) && b == (b - a) + (a * b);
  }

  lemma SubsetSize<T>(a: set<T>, b: set<T>)
    requires a <= b
    ensures |a| <= |b|
  {
    assert b == a + (b - a);
  }

  /** Two sets among n nodes share at least what their sizes exceed n by. */
  lemma Overlap<T>(a: set<T>, b: set<T>, all: set<T>)
    requires a <= all && b <= all
    ensures |a * b| >= |a| + |b| - |all|
  {
    UnionSize(a, b);
    SubsetSize(a + b, all);
  }

  lemma MinusSize<T>(a: set<T>, b: set<T>)
    ensures |a - b| >= |a| - |b|
  {
    assert a == (a - b) + (a * b);
    SubsetSize(a * b, b);
  }

  /** A quorum contains at least f+1 nodes that are not faulty. */
  lemma QuorumHonest<T>(a: set<T>, faulty: set<T>, n: int)
    requires n >= 1 && |a| >= Quorum(n) && |faulty| <= MaxFaulty(n)
    ensures |a - faulty| >= MaxFaulty(n) + 1
  {
    MinusSize(a, faulty);
  }

  /** Any two quorums among n = 3f+1 nodes share a node that is not faulty. */
  lemma QuorumsShareHonest<T>(a: set<T>, b: set<T>, faulty: set<T>, all: set<T>) returns (v: T)
    requires a <= all && b <= all && |all| >= 1 && |all| % 3 == 1
    requires |a| >= Quorum(|all|) && |b| >= Quorum(|all|) && |faulty| <= MaxFaulty(|all|)
    ensures v in a && v in b && v !in faulty
  {
    Remainders(|all|);
    Overlap(a, b, all);
    MinusSize(a * b, faulty);
    assert |a * b - faulty| >= 1;
    v :| v in a * b - faulty;
  }

  /** The integers from lo up to hi. */
  function Range(lo: int, hi: int): (r: set<int>)
    requires lo <= hi
    ensures |r| == hi - lo
    ensures forall i :: i in r <==> lo <= i < hi
    decreases hi - lo
  {
    if lo == hi then {} else Range(lo + 1, hi) + {lo}
  }

  lemma Remainders(n: int)
    requires n >= 1
    ensures n % 3 == 1 <==> n == 3 * MaxFaulty(n) + 1
  {
  }

  /** Two quorums that overlap as little as n allows have no more than the faulty nodes in common. */
  lemma SmallOverlap(n: int)
    requires n >= 1 && n % 3 != 1
    ensures 2 * Quorum(n) - n <= MaxFaulty(n) && Quorum(n) <= n
  {
  }

  lemma {:induction false} RangeOverlap(lo: int, mid: int, mid': int, hi: int)
    requires lo <= mid <= mid' <= hi
    ensures Range(lo, mid') * Range(mid, hi) == Range(mid, mid')
    ensures Range(lo, mid) * Range(mid', hi) == {}
  {
  }

  /** The first q and the last q of n share what does not fit apart. */
  lemma {:induction false} EndsOverlap(n: int, q: int)
    requires 0 <= q <= n
    ensures |Range(0, q) * Range(n - q, n)| == Max(0, 2 * q - n)
    ensures Range(0, q) <= Range(0, n) && Range(n - q, n) <= Range(0, n)
  {
    if n - q <= q { RangeOverlap(0, n - q, q, n); } else { RangeOverlap(0, q, n - q, n); }
  }

  /** For every other n two quorums may have nothing in common but faulty nodes; five nodes are such a case. */
  lemma {:induction false} QuorumsMayMiss(n: int) returns (a: set<int>, b: set<int>, faulty: set<int>)
    requires n >= 1 && n % 3 != 1
    ensures a <= Range(0, n) && b <= Range(0, n) && |Range(0, n)| == n
    ensures |a| == Quorum(n) && |b| == Quorum(n) && |faulty| <= MaxFaulty(n) && a * b <= faulty
  {
    SmallOverlap(n);
    var q := Quorum(n);
    a, b := Range(0, q), Range(n - q, n);
    faulty := a * b;
    EndsOverlap(n, q);
  }

  /** Two quorums always share an honest node exactly when n is of the form 3f+1. */
  lemma {:induction false} HonestOverlapExact(n: int)
    requires n >= 1
    ensures n % 3 == 1 <==>
            (forall a: set<int>, b: set<int>, faulty: set<int> ::
               a <= Range(0, n) && b <= Range(0, n) && |a| >= Quorum(n) && |b| >= Quorum(n) && |faulty| <= MaxFaulty(n)
               ==> a * b - faulty != {})
  {
    if n % 3 == 1 {
      forall a: set<int>, b: set<int>, faulty: set<int>
        | a <= Range(0, n) && b <= Range(0, n) && |a| >= Quorum(n) && |b| >= Quorum(n) && |faulty| <= MaxFaulty(n)
        ensures a * b - faulty != {}
      {
        var v := QuorumsShareHonest(a, b, faulty, Range(0, n));
        assert v in a * b - faulty;
      }
    } else {
      var a, b, faulty := QuorumsMayMiss(n);
      assert a * b - faulty == {};
    }
  }
}
