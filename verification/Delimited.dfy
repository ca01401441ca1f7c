/** Concatenation around a delimiter, and when it can be undone. */
module Delimited {

  ghost predicate Free<T>(d: T, s: seq<T>) {
    forall i :: 0 <= i < |s| ==> s[i] != d
  }

  /** With a delimiter-free left part, the cut is at the first delimiter. */
  lemma CutFirst<T>(d: T, a: seq<T>, b: seq<T>, a': seq<T>, b': seq<T>)
    requires Free(d, a) && Free(d, a')
    requires a + [d] + b == a' + [d] + b'
    ensures a == a' && b == b'
  {
    var s, s' := a + [d] + b, a' + [d] + b';
    assert s[|a|] == d && s'[|a'|] == d;
    assert a == s[..|a|] == s'[..|a'|] == a';
    assert b == s[|a| + 1..] == s'[|a'| + 1..] == b';
  }

  /** With a delimiter-free right part, the cut is at the last delimiter. */
  lemma CutLast<T>(d: T, a: seq<T>, b: seq<T>, a': seq<T>, b': seq<T>)
    requires Free(d, b) && Free(d, b')
    requires a + [d] + b == a' + [d] + b'
    ensures a == a' && b == b'
  {
    var s, s' := a + [d] + b, a' + [d] + b';
    assert s[|a|] == d && s'[|a'|] == d;
    assert forall k :: |a| < k < |s| ==> s[k] == b[k - |a| - 1];
    assert forall k :: |a'| < k < |s'| ==> s'[k] == b'[k - |a'| - 1];
    assert a == s[..|a|] == s'[..|a'|] == a';
    assert b == s[|a| + 1..] == s'[|a'| + 1..] == b';
  }

  lemma FreeConcat<T>(d: T, a: seq<T>, b: seq<T>)
    ensures Free(d, a + b) <==> Free(d, a) && Free(d, b)
  {
    if Free(d, a + b) {
      forall i | 0 <= i < |a| ensures a[i] != d { assert a[i] == (a + b)[i]; }
      forall i | 0 <= i < |b| ensures b[i] != d { assert b[i] == (a + b)[|a| + i]; }
    }
  }

  // ---------------------------------------------------------------- cutting a stream at delimiters

  /** The pieces of `s` that a delimiter has closed, in order. */
  function Closed<T(==)>(d: T, s: seq<T>): seq<seq<T>> {
    if s == [] then []
    else
      var before := s[..|s| - 1];
      if s[|s| - 1] == d then Closed(d, before) + [Open(d, before)] else Closed(d, before)
  }

  /** What follows the last delimiter. */
  function Open<T(==)>(d: T, s: seq<T>): seq<T> {
    if s == [] || s[|s| - 1] == d then [] else Open(d, s[..|s| - 1]) + [s[|s| - 1]]
  }

  lemma ClosedSnoc<T>(d: T, s: seq<T>, x: T)
    ensures Closed(d, s + [x]) == (if x == d then Closed(d, s) + [Open(d, s)] else Closed(d, s))
    ensures Open(d, s + [x]) == (if x == d then [] else Open(d, s) + [x])
  {
    assert (s + [x])[..|s|] == s;
  }

  /** Two streams that differ by pieces closed long ago go on differing by them. */
  lemma {:induction false} ClosedAhead<T>(d: T, done: seq<seq<T>>, u: seq<T>, v: seq<T>, x: T)
    requires Closed(d, u) == done + Closed(d, v) && Open(d, u) == Open(d, v)
    ensures Closed(d, u + [x]) == done + Closed(d, v + [x]) && Open(d, u + [x]) == Open(d, v + [x])
  {
    ClosedSnoc(d, u, x);
    ClosedSnoc(d, v, x);
    Assoc(done, Closed(d, v), [Open(d, v)]);
  }

  lemma Assoc<T>(a: seq<T>, b: seq<T>, c: seq<T>)
    ensures a + (b + c) == a + b + c
  {
  }

  lemma TailConcat<T>(a: seq<T>, b: seq<T>)
    requires a != []
    ensures (a + b)[1..] == a[1..] + b
  {
  }

  lemma SnocConcat<T>(a: seq<T>, b: seq<T>)
    requires b != []
    ensures a + b == (a + b[..|b| - 1]) + [b[|b| - 1]]
  {
  }

  /** Only the open end matters for what comes next: a stream may be cut anywhere. */
  lemma {:induction false} ClosedConcat<T>(d: T, a: seq<T>, b: seq<T>)
    ensures Closed(d, a + b) == Closed(d, a) + Closed(d, Open(d, a) + b)
    ensures Open(d, a + b) == Open(d, Open(d, a) + b)
  {
    var open := Open(d, a);
    if b == [] {
      OpenIsFree(d, a);
      FreeIsOpen(d, open);
      assert a + b == a && open + b == open;
    } else {
      var front, x := b[..|b| - 1], b[|b| - 1];
      SnocConcat(a, b);
      SnocConcat(open, b);
      ClosedConcat(d, a, front);
      ClosedAhead(d, Closed(d, a), a + front, open + front, x);
    }
  }

  lemma {:induction false} OpenIsFree<T>(d: T, s: seq<T>)
    ensures Free(d, Open(d, s))
  {
    if s != [] { OpenIsFree(d, s[..|s| - 1]); }
  }

  lemma {:induction false} FreeIsOpen<T>(d: T, s: seq<T>)
    requires Free(d, s)
    ensures Closed(d, s) == [] && Open(d, s) == s
  {
    if s != [] { FreeIsOpen(d, s[..|s| - 1]); }
  }

  /** A free piece, a delimiter and the rest. */
  lemma ClosedCons<T>(d: T, a: seq<T>, b: seq<T>)
    requires Free(d, a)
    ensures Closed(d, a + [d] + b) == [a] + Closed(d, b) && Open(d, a + [d] + b) == Open(d, b)
  {
    FreeIsOpen(d, a);
    ClosedSnoc(d, a, d);
    ClosedConcat(d, a + [d], b);
    assert [] + b == b && [] + [a] == [a];
  }

  lemma {:induction false} FirstDelimiter<T>(d: T, s: seq<T>) returns (a: seq<T>, b: seq<T>)
    requires !Free(d, s)
    ensures Free(d, a) && s == a + [d] + b
  {
    if s[0] == d {
      a, b := [], s[1..];
    } else {
      var rest := s[1..];
      assert s == [s[0]] + rest;
      FreeConcat(d, [s[0]], rest);
      a, b := FirstDelimiter(d, rest);
      Assoc([s[0]], a, [d]);
      Assoc([s[0]], a + [d], b);
      a := [s[0]] + a;
    }
  }

  /** A free piece put in front goes before the first piece. */
  lemma ClosedAfter<T>(d: T, a: seq<T>, s: seq<T>)
    requires Free(d, a) && Closed(d, s) != []
    ensures Closed(d, a + s) == [a + Closed(d, s)[0]] + Closed(d, s)[1..] && Open(d, a + s) == Open(d, s)
  {
    if Free(d, s) { FreeIsOpen(d, s); }
    var x, y := FirstDelimiter(d, s);
    ClosedCons(d, x, y);
    FreeConcat(d, a, x);
    ClosedCons(d, a + x, y);
    Assoc(a, x, [d]);
    Assoc(a, x + [d], y);
  }

  lemma {:induction false} ClosedAreFree<T>(d: T, s: seq<T>)
    ensures forall i :: 0 <= i < |Closed(d, s)| ==> Free(d, Closed(d, s)[i])
  {
    if s != [] {
      ClosedAreFree(d, s[..|s| - 1]);
      OpenIsFree(d, s[..|s| - 1]);
    }
  }

  /** Repeated getline: the closed pieces, and a last open one that is delivered only when not empty. */
  function Pieces<T(==)>(d: T, s: seq<T>): seq<seq<T>> {
    if Open(d, s) == [] then Closed(d, s) else Closed(d, s) + [Open(d, s)]
  }
}
