/** The Merkle tree of crypto/ProofChain.hpp over a layer of hashes: roots, sibling paths and their verification. */
module Merkle {
  import opened Symbolic

  /** One level up: pairs are hashed together, an unpaired tail is hashed alone. */
  function NextLayer(layer: seq<Str>): (r: seq<Str>)
    ensures |r| == (|layer| + 1) / 2
  {
    seq((|layer| + 1) / 2, i requires 0 <= i < (|layer| + 1) / 2 =>
      if 2 * i + 1 < |layer| then Sha(layer[2 * i] + layer[2 * i + 1]) else Sha(layer[2 * i]))
  }

  function Root(layer: seq<Str>): Str
    requires layer != []
    decreases |layer|
  {
    if |layer| == 1 then layer[0] else Root(NextLayer(layer))
  }

  /** What a level contributes to the path of leaf k: its sibling, and nothing for an unpaired tail. */
  function Siblings(layer: seq<Str>, k: nat): seq<Str>
    requires k < |layer|
  {
    if k % 2 == 1 then [[Ch('L')] + layer[k - 1]]
    else if k + 1 < |layer| then [[Ch('R')] + layer[k + 1]]
    else []
  }

  function Path(layer: seq<Str>, k: nat): seq<Str>
    requires k < |layer|
    decreases |layer|
  {
    if |layer| == 1 then [] else Siblings(layer, k) + Path(NextLayer(layer), k / 2)
  }

  /** The same path with an empty entry at each level where the ancestor is unpaired. */
  function PaddedPath(layer: seq<Str>, k: nat): seq<Str>
    requires k < |layer|
    decreases |layer|
  {
    if |layer| == 1 then []
    else (if Siblings(layer, k) == [] then [[]] else Siblings(layer, k)) + PaddedPath(NextLayer(layer), k / 2)
  }

  /** One round of verify_proof's loop. */
  function Climb(cur: Str, s: Str): Str {
    if s != [] && s[0] == Ch('L') then Sha(s[1..] + cur)
    else if s != [] && s[0] == Ch('R') then Sha(cur + s[1..])
    else Sha(cur + s)
  }

  function Fold(leaf: Str, path: seq<Str>): Str
    decreases |path|
  {
    if path == [] then leaf else Fold(Climb(leaf, path[0]), path[1..])
  }

  predicate Accepts(root: Str, leaf: Str, path: seq<Str>) {
    Fold(leaf, path) == root
  }

  predicate PathAccepted(layer: seq<Str>, k: nat)
    requires k < |layer|
  {
    Accepts(Root(layer), layer[k], Path(layer, k))
  }

  // ---------------------------------------------------------------- which leaves are always paired

  predicate UnpairedTail(size: int, k: int) {
    size > 1 && size % 2 == 1 && k == size - 1
  }

  /** The size of the j-th layer over n leaves, and the index in it of leaf k's ancestor. */
  function LayerSize(n: nat, j: nat): nat { if j == 0 then n else (LayerSize(n, j - 1) + 1) / 2 }
  function Ancestor(k: nat, j: nat): nat { if j == 0 then k else Ancestor(k, j - 1) / 2 }

  /** No ancestor of leaf k is an unpaired tail of a layer of more than one node. */
  ghost predicate NeverUnpaired(n: nat, k: nat) {
    forall j: nat :: !UnpairedTail(LayerSize(n, j), Ancestor(k, j))
  }

  lemma {:induction false} LevelShift(n: nat, k: nat, j: nat)
    ensures LayerSize(n, j + 1) == LayerSize((n + 1) / 2, j) && Ancestor(k, j + 1) == Ancestor(k / 2, j)
  {
    if j > 0 { LevelShift(n, k, j - 1); }
  }

  lemma NeverUnpairedUp(n: nat, k: nat)
    ensures NeverUnpaired(n, k) <==> !UnpairedTail(n, k) && NeverUnpaired((n + 1) / 2, k / 2)
  {
    assert LayerSize(n, 0) == n && Ancestor(k, 0) == k;
    if NeverUnpaired(n, k) {
      forall j: nat ensures !UnpairedTail(LayerSize((n + 1) / 2, j), Ancestor(k / 2, j)) {
        LevelShift(n, k, j);
        assert !UnpairedTail(LayerSize(n, j + 1), Ancestor(k, j + 1));
      }
    }
    if !UnpairedTail(n, k) && NeverUnpaired((n + 1) / 2, k / 2) {
      forall j: nat ensures !UnpairedTail(LayerSize(n, j), Ancestor(k, j)) {
        if j > 0 { LevelShift(n, k, j - 1); }
      }
    }
  }

  lemma {:induction false} TopNeverUnpaired(j: nat, k: nat)
    ensures LayerSize(1, j) == 1 && LayerSize(0, j) == 0
  {
    if j > 0 { TopNeverUnpaired(j - 1, k); }
  }

  // ---------------------------------------------------------------- paths that skip a level fall behind

  /** How many digests deep the last symbol is. */
  function Spine(s: Str): nat {
    if s == [] then 0
    else match s[|s| - 1]
      case Ch(_) => 0
      case Digest(preimage) => 1 + Spine(preimage)
  }

  lemma SpineSha(a: Str, b: Str)
    requires b != []
    ensures Spine(Sha(a + b)) == 1 + Spine(b)
  {
    assert Sha(a + b)[|Sha(a + b)| - 1] == Digest(a + b);
    assert (a + b)[|a + b| - 1] == b[|b| - 1];
  }

  ghost predicate NonEmpty(layer: seq<Str>) {
    forall i :: 0 <= i < |layer| ==> layer[i] != []
  }

  lemma NextLayerNonEmpty(layer: seq<Str>)
    ensures NonEmpty(NextLayer(layer))
  {
  }

  lemma FoldCons(leaf: Str, s: Str, path: seq<Str>)
    ensures Fold(leaf, [s] + path) == Fold(Climb(leaf, s), path)
  {
    assert ([s] + path)[1..] == path;
  }

  lemma ClimbSides(cur: Str, h: Str)
    ensures Climb(cur, [Ch('L')] + h) == Sha(h + cur)
    ensures Climb(cur, [Ch('R')] + h) == Sha(cur + h)
    ensures Climb(cur, []) == Sha(cur)
  {
    assert ([Ch('L')] + h)[1..] == h && ([Ch('R')] + h)[1..] == h;
    assert cur + [] == cur;
  }

  /** The parent of node k. */
  lemma ParentOf(layer: seq<Str>, k: nat)
    requires k < |layer|
    ensures k / 2 < |NextLayer(layer)| && (k == |layer| - 1 ==> k / 2 == |NextLayer(layer)| - 1)
    ensures k % 2 == 1 ==> NextLayer(layer)[k / 2] == Sha(layer[k - 1] + layer[k])
    ensures k % 2 == 0 && k + 1 < |layer| ==> NextLayer(layer)[k / 2] == Sha(layer[k] + layer[k + 1])
    ensures k % 2 == 0 && k + 1 == |layer| ==> NextLayer(layer)[k / 2] == Sha(layer[k])
  {
    if k % 2 == 1 { assert 2 * (k / 2) == k - 1; } else { assert 2 * (k / 2) == k; }
  }

  lemma LagStep(layer: seq<Str>, k: nat, cur: Str, up: seq<Str>) returns (cur': Str)
    requires NonEmpty(layer) && |layer| > 1 && k == |layer| - 1 && cur != [] && Spine(cur) < Spine(layer[k])
    ensures cur' != [] && k / 2 < |NextLayer(layer)| && Spine(cur') < Spine(NextLayer(layer)[k / 2])
    ensures Fold(cur, Siblings(layer, k) + up) == Fold(cur', up)
  {
    ParentOf(layer, k);
    if k % 2 == 1 {
      var h := layer[k - 1];
      SpineSha(h, cur);
      SpineSha(h, layer[k]);
      ClimbSides(cur, h);
      FoldCons(cur, [Ch('L')] + h, up);
      cur' := Sha(h + cur);
    } else {
      SpineSha([], layer[k]);
      assert [] + layer[k] == layer[k];
      assert Siblings(layer, k) + up == up;
      cur' := cur;
    }
  }

  /** Once the candidate lags behind the true node on the right edge, it never catches up. */
  lemma {:induction false} LaggingPathFails(layer: seq<Str>, k: nat, cur: Str)
    requires NonEmpty(layer) && k == |layer| - 1 && cur != [] && Spine(cur) < Spine(layer[k])
    ensures Fold(cur, Path(layer, k)) != Root(layer)
    decreases |layer|
  {
    if |layer| > 1 {
      NextLayerNonEmpty(layer);
      ParentOf(layer, k);
      var next := NextLayer(layer);
      var cur' := LagStep(layer, k, cur, Path(next, k / 2));
      LaggingPathFails(next, k / 2, cur');
    }
  }

  /** At a paired level the verifier computes the parent. */
  lemma {:induction false} PairedClimb(layer: seq<Str>, k: nat, up: seq<Str>)
    requires k < |layer| && |layer| > 1 && !UnpairedTail(|layer|, k)
    ensures k / 2 < |NextLayer(layer)|
    ensures Siblings(layer, k) != [] && Fold(layer[k], Siblings(layer, k) + up) == Fold(NextLayer(layer)[k / 2], up)
  {
    ParentOf(layer, k);
    var h := if k % 2 == 1 then layer[k - 1] else layer[k + 1];
    ClimbSides(layer[k], h);
    FoldCons(layer[k], [Ch(if k % 2 == 1 then 'L' else 'R')] + h, up);
  }

  /** At an unpaired level an empty entry computes the parent, and no entry leaves the node itself. */
  lemma {:induction false} UnpairedClimb(layer: seq<Str>, k: nat, up: seq<Str>)
    requires k < |layer| && UnpairedTail(|layer|, k)
    ensures k / 2 == |NextLayer(layer)| - 1 && Siblings(layer, k) == [] && NextLayer(layer)[k / 2] == Sha(layer[k])
    ensures Fold(layer[k], [[]] + up) == Fold(NextLayer(layer)[k / 2], up)
    ensures Siblings(layer, k) + up == up
  {
    ParentOf(layer, k);
    ClimbSides(layer[k], []);
    FoldCons(layer[k], [], up);
  }

  /**
   verify_proof accepts the path of leaf k against the root exactly when no ancestor of k is an
   unpaired tail.
   */
  lemma {:induction false} PathAcceptedIff(layer: seq<Str>, k: nat)
    requires NonEmpty(layer) && k < |layer|
    ensures PathAccepted(layer, k) <==> NeverUnpaired(|layer|, k)
    decreases |layer|
  {
    NeverUnpairedUp(|layer|, k);
    if |layer| == 1 {
      forall j: nat ensures !UnpairedTail(LayerSize(1, j), Ancestor(k, j)) { TopNeverUnpaired(j, k); }
    } else {
      NextLayerNonEmpty(layer);
      var up := Path(NextLayer(layer), k / 2);
      if UnpairedTail(|layer|, k) {
        UnpairedClimb(layer, k, up);
        SpineSha([], layer[k]);
        assert [] + layer[k] == layer[k];
        LaggingPathFails(NextLayer(layer), k / 2, layer[k]);
      } else {
        PairedClimb(layer, k, up);
        PathAcceptedIff(NextLayer(layer), k / 2);
      }
    }
  }

  /** With the empty entries put in, every path of every leaf is accepted. */
  lemma {:induction false} PaddedPathAccepted(layer: seq<Str>, k: nat)
    requires k < |layer|
    ensures Accepts(Root(layer), layer[k], PaddedPath(layer, k))
    decreases |layer|
  {
    if |layer| > 1 {
      var up := PaddedPath(NextLayer(layer), k / 2);
      PaddedPathAccepted(NextLayer(layer), k / 2);
      if UnpairedTail(|layer|, k) {
        UnpairedClimb(layer, k, up);
      } else {
        PairedClimb(layer, k, up);
      }
    }
  }

  // ---------------------------------------------------------------- all leaves at once

  predicate PowerOfTwo(n: nat) {
    n == 1 || (n > 1 && n % 2 == 0 && PowerOfTwo(n / 2))
  }

  lemma {:induction false} LastLeafPaired(n: nat)
    requires n >= 1
    ensures NeverUnpaired(n, n - 1) <==> PowerOfTwo(n)
  {
    NeverUnpairedUp(n, n - 1);
    if n == 1 {
      forall j: nat ensures !UnpairedTail(LayerSize(1, j), Ancestor(0, j)) { TopNeverUnpaired(j, 0); }
    } else if n % 2 == 0 {
      LastLeafPaired(n / 2);
      assert (n + 1) / 2 == n / 2 && (n - 1) / 2 == n / 2 - 1;
    }
  }

  lemma {:induction false} PowerOfTwoPaired(n: nat, k: nat)
    requires PowerOfTwo(n) && k < n
    ensures NeverUnpaired(n, k)
  {
    NeverUnpairedUp(n, k);
    if n == 1 {
      forall j: nat ensures !UnpairedTail(LayerSize(1, j), Ancestor(k, j)) { TopNeverUnpaired(j, k); }
    } else {
      assert (n + 1) / 2 == n / 2;
      PowerOfTwoPaired(n / 2, k / 2);
    }
  }

  lemma {:induction false} LastPathAcceptedIff(layer: seq<Str>)
    requires NonEmpty(layer) && layer != []
    ensures PathAccepted(layer, |layer| - 1) <==> PowerOfTwo(|layer|)
  {
    LastLeafPaired(|layer|);
    PathAcceptedIff(layer, |layer| - 1);
  }

  lemma {:induction false} PowerOfTwoAccepted(layer: seq<Str>, k: nat)
    requires NonEmpty(layer) && k < |layer| && PowerOfTwo(|layer|)
    ensures PathAccepted(layer, k)
  {
    PowerOfTwoPaired(|layer|, k);
    PathAcceptedIff(layer, k);
  }

  /** The paths of all leaves are accepted exactly when their number is a power of two. */
  lemma {:induction false} AllPathsAcceptedIff(layer: seq<Str>)
    requires NonEmpty(layer) && layer != []
    ensures (forall k: nat :: k < |layer| ==> PathAccepted(layer, k)) <==> PowerOfTwo(|layer|)
  {
    LastPathAcceptedIff(layer);
    if PowerOfTwo(|layer|) {
      forall k: nat | k < |layer| ensures PathAccepted(layer, k) { PowerOfTwoAccepted(layer, k); }
    }
  }

  // ---------------------------------------------------------------- binding

  /** A fixed path leads two different leaves to two different roots. */
  lemma {:induction false} PathBindsLeaf(root: Str, leaf: Str, leaf': Str, path: seq<Str>)
    requires Accepts(root, leaf, path) && Accepts(root, leaf', path)
    ensures leaf == leaf'
    decreases |path|
  {
    if path != [] {
      var s := path[0];
      PathBindsLeaf(root, Climb(leaf, s), Climb(leaf', s), path[1..]);
      ClimbInjective(leaf, leaf', s);
    }
  }

  lemma ClimbInjective(cur: Str, cur': Str, s: Str)
    requires Climb(cur, s) == Climb(cur', s)
    ensures cur == cur'
  {
    var side := if s != [] && (s[0] == Ch('L') || s[0] == Ch('R')) then s[1..] else s;
    if s != [] && s[0] == Ch('L') {
      assert Digest(side + cur) == Climb(cur, s)[0] == Climb(cur', s)[0] == Digest(side + cur');
      assert cur == (side + cur)[|side|..] == (side + cur')[|side|..] == cur';
    } else {
      assert Digest(cur + side) == Climb(cur, s)[0] == Climb(cur', s)[0] == Digest(cur' + side);
      assert |cur| == |cur'|;
      assert cur == (cur + side)[..|cur|] == (cur' + side)[..|cur'|] == cur';
    }
  }

  ghost predicate SameShape(a: seq<Str>, b: seq<Str>) {
    |a| == |b| && forall i :: 0 <= i < |a| ==> |a[i]| == |b[i]|
  }

  lemma NextLayerInjective(a: seq<Str>, b: seq<Str>)
    requires SameShape(a, b) && NextLayer(a) == NextLayer(b)
    ensures a == b
  {
    forall i | 0 <= i < |a| ensures a[i] == b[i] {
      var p := i / 2;
      assert NextLayer(a)[p] == NextLayer(b)[p];
      if 2 * p + 1 < |a| {
        var x, y := a[2 * p] + a[2 * p + 1], b[2 * p] + b[2 * p + 1];
        assert Digest(x) == NextLayer(a)[p][0] == NextLayer(b)[p][0] == Digest(y);
        assert a[2 * p] == x[..|a[2 * p]|] == y[..|b[2 * p]|] == b[2 * p];
        assert a[2 * p + 1] == x[|a[2 * p]|..] == y[|b[2 * p]|..] == b[2 * p + 1];
      } else {
        assert Digest(a[2 * p]) == NextLayer(a)[p][0] == NextLayer(b)[p][0] == Digest(b[2 * p]);
      }
    }
  }

  /** Two lists of equally many hashes of equal width have the same root only if they are the same list. */
  lemma {:induction false} RootBindsLeaves(a: seq<Str>, b: seq<Str>)
    requires a != [] && SameShape(a, b) && Root(a) == Root(b)
    ensures a == b
    decreases |a|
  {
    if |a| > 1 {
      RootBindsLeaves(NextLayer(a), NextLayer(b));
      NextLayerInjective(a, b);
    }
  }
}
