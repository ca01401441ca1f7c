/** The bounded hash chain of crypto/ProofChain.hpp with its lazily rebuilt Merkle root. */
module ProofChain {
  import opened Delimited
  import opened Decimal
  import opened Symbolic
  import opened Merkle

  const MAX_CHAIN: int := 4096

  datatype Event =
    | AnomalyDetected | PbftPrePrepare | PbftPrepare | PbftCommit
    | ConsensusReached | IsolationExecuted | TelemetryGossip | RecordingFrame

  function EventCode(e: Event): nat {
    match e
    case AnomalyDetected => 0
    case PbftPrePrepare => 1
    case PbftPrepare => 2
    case PbftCommit => 3
    case ConsensusReached => 4
    case IsolationExecuted => 5
    case TelemetryGossip => 6
    case RecordingFrame => 7
  }

  datatype Link = Link(
    sequence: U64, event: Event, node: string, target: string, dataHash: Str, parentHash: Str,
    linkHash: Str, timestamp: int, signature: Signature)

  /** The text a link's hash is taken over; timestamp and signature are not part of it. */
  function Canonical(l: Link): Str {
    Lift(Print(l.sequence)) + [BAR] + (Lift(Print(EventCode(l.event))) + [BAR] + (Lift(l.node) + [BAR] +
    (Lift(l.target) + [BAR] + (l.dataHash + [BAR] + l.parentHash))))
  }

  function Leaves(links: seq<Link>): (r: seq<Str>)
    ensures |r| == |links|
  {
    seq(|links|, i requires 0 <= i < |links| => links[i].linkHash)
  }

  // ---------------------------------------------------------------- what a chain is

  ghost predicate Hashed(links: seq<Link>) {
    forall i :: 0 <= i < |links| ==> links[i].linkHash == Sha(Canonical(links[i]))
  }

  ghost predicate Linked(links: seq<Link>) {
    forall i :: 0 < i < |links| ==> links[i].parentHash == links[i - 1].linkHash
  }

  ghost predicate Consecutive(links: seq<Link>) {
    forall i :: 0 < i < |links| ==> links[i].sequence == (links[i - 1].sequence + 1) % TWO_64
  }

  ghost predicate WellLinked(links: seq<Link>) {
    Hashed(links) && Linked(links) && Consecutive(links)
  }

  /** Evidence of the event and its parties agree, and so do all hashes; not the timestamp or signature. */
  ghost predicate SameHashedFields(a: Link, b: Link) {
    && a.sequence == b.sequence && a.event == b.event && a.node == b.node && a.target == b.target
    && a.dataHash == b.dataHash && a.parentHash == b.parentHash && a.linkHash == b.linkHash
  }

  /** No bar in the hashes; true of every appended link. */
  ghost predicate HashesFree(l: Link) {
    Free(BAR, l.dataHash) && Free(BAR, l.parentHash)
  }

  lemma EventCodeInjective(e: Event, f: Event)
    requires EventCode(e) == EventCode(f)
    ensures e == f
  {
  }

  lemma CutNumber(m: nat, b: Str, n: nat, b': Str)
    requires Lift(Print(m)) + [BAR] + b == Lift(Print(n)) + [BAR] + b'
    ensures m == n && b == b'
  {
    LiftFree(Print(m));
    LiftFree(Print(n));
    CutFirst(BAR, Lift(Print(m)), b, Lift(Print(n)), b');
    LiftInjective(Print(m), Print(n));
    PrintInjective(m, n);
  }

  /** Free text, then two bar-free fields. */
  lemma CutTwo(e: Str, x: Str, y: Str, e': Str, x': Str, y': Str)
    requires Free(BAR, x) && Free(BAR, y) && Free(BAR, x') && Free(BAR, y')
    requires e + [BAR] + (x + [BAR] + y) == e' + [BAR] + (x' + [BAR] + y')
    ensures e == e' && x == x' && y == y'
  {
    var ex, ex' := e + [BAR] + x, e' + [BAR] + x';
    assert e + [BAR] + (x + [BAR] + y) == ex + [BAR] + y && e' + [BAR] + (x' + [BAR] + y') == ex' + [BAR] + y';
    CutLast(BAR, ex, y, ex', y');
    CutLast(BAR, e, x, e', x');
  }

  /**
   For every target: a link hash determines sequence, event and all hashes; and node and target too, exactly if
   neither node begins with the other and a bar.
   */
  lemma LinkHashBinds(a: Link, b: Link)
    requires a.linkHash == Sha(Canonical(a)) && b.linkHash == Sha(Canonical(b)) && a.linkHash == b.linkHash
    requires HashesFree(a) && HashesFree(b)
    ensures a.sequence == b.sequence && a.event == b.event && a.dataHash == b.dataHash && a.parentHash == b.parentHash
    ensures SameHashedFields(a, b) <==> !Overlaps(a.node, b.node)
  {
    assert Digest(Canonical(a)) == a.linkHash[0] == b.linkHash[0] == Digest(Canonical(b));
    var a4, b4 := a.dataHash + [BAR] + a.parentHash, b.dataHash + [BAR] + b.parentHash;
    JoinedText(a.node, a.target, a4);
    JoinedText(b.node, b.target, b4);
    var a2, b2 := Lift(Joined(a.node, a.target)) + [BAR] + a4, Lift(Joined(b.node, b.target)) + [BAR] + b4;
    CutNumber(a.sequence, Lift(Print(EventCode(a.event))) + [BAR] + a2,
              b.sequence, Lift(Print(EventCode(b.event))) + [BAR] + b2);
    CutNumber(EventCode(a.event), a2, EventCode(b.event), b2);
    EventCodeInjective(a.event, b.event);
    CutTwo(Lift(Joined(a.node, a.target)), a.dataHash, a.parentHash, Lift(Joined(b.node, b.target)), b.dataHash, b.parentHash);
    LiftInjective(Joined(a.node, a.target), Joined(b.node, b.target));
    JoinedSameIff(a.node, a.target, b.node, b.target);
  }

  ghost predicate AllHashesFree(links: seq<Link>) {
    forall i :: 0 <= i < |links| ==> HashesFree(links[i])
  }

  /**
   Two well-linked chains whose last link hashes agree, agree on every hashed field of every link they
   both still hold, counted from the end; on node and target of a link exactly if the nodes do not overlap.
   */
  lemma {:induction false} LastHashBindsChain(a: seq<Link>, b: seq<Link>, back: nat)
    requires WellLinked(a) && WellLinked(b) && AllHashesFree(a) && AllHashesFree(b) && back < |a| && back < |b|
    requires a[|a| - 1].linkHash == b[|b| - 1].linkHash
    ensures var x, y := a[|a| - 1 - back], b[|b| - 1 - back];
            && x.linkHash == y.linkHash && x.sequence == y.sequence && x.event == y.event && x.dataHash == y.dataHash
            && (SameHashedFields(x, y) <==> !Overlaps(x.node, y.node))
  {
    if back > 0 {
      LastHashBindsChain(a, b, back - 1);
      var i, j := |a| - back, |b| - back;
      LinkHashBinds(a[i], b[j]);
      assert a[i].parentHash == a[i - 1].linkHash && b[j].parentHash == b[j - 1].linkHash;
    }
    LinkHashBinds(a[|a| - 1 - back], b[|b| - 1 - back]);
  }

  /** The data behind equal data hashes is equal too. */
  lemma DataHashBinds(data: string, data': string)
    requires Sha(Lift(data)) == Sha(Lift(data'))
    ensures data == data'
  {
    assert Digest(Lift(data)) == Sha(Lift(data))[0] == Sha(Lift(data'))[0] == Digest(Lift(data'));
    LiftInjective(data, data');
  }

  // ---------------------------------------------------------------- append

  function NewLink(node: string, links: seq<Link>, next: U64, event: Event, target: string, data: string, sig: Signature, now: int): Link {
    var l := Link(next, event, node, target, Sha(Lift(data)),
                  if links == [] then [] else links[|links| - 1].linkHash, [], now, sig);
    l.(linkHash := Sha(Canonical(l)))
  }

  function Appended(links: seq<Link>, l: Link): seq<Link> {
    if |links| + 1 > MAX_CHAIN then (links + [l])[1..] else links + [l]
  }

  lemma CanonicalIgnoresHash(l: Link, h: Str)
    ensures Canonical(l.(linkHash := h)) == Canonical(l)
  {
  }

  lemma SnocWellLinked(links: seq<Link>, l: Link)
    requires WellLinked(links) && l.linkHash == Sha(Canonical(l))
    requires links != [] ==> l.parentHash == links[|links| - 1].linkHash && l.sequence == (links[|links| - 1].sequence + 1) % TWO_64
    ensures WellLinked(links + [l])
  {
    var all := links + [l];
    forall i | 0 <= i < |all| ensures all[i].linkHash == Sha(Canonical(all[i])) {
      if i < |links| { assert all[i] == links[i]; }
    }
    forall i | 0 < i < |all| ensures all[i].parentHash == all[i - 1].linkHash && all[i].sequence == (all[i - 1].sequence + 1) % TWO_64 {
      assert all[i - 1] == links[i - 1];
      if i < |links| { assert all[i] == links[i]; }
    }
  }

  lemma TailWellLinked(links: seq<Link>)
    requires WellLinked(links) && links != []
    ensures WellLinked(links[1..])
  {
    var rest := links[1..];
    forall i | 0 < i < |rest| ensures rest[i].parentHash == rest[i - 1].linkHash && rest[i].sequence == (rest[i - 1].sequence + 1) % TWO_64 {
      assert rest[i] == links[i + 1] && rest[i - 1] == links[i];
    }
  }

  lemma AppendedWellLinked(links: seq<Link>, l: Link)
    requires WellLinked(links) && |links| <= MAX_CHAIN && l.linkHash == Sha(Canonical(l))
    requires links != [] ==> l.parentHash == links[|links| - 1].linkHash && l.sequence == (links[|links| - 1].sequence + 1) % TWO_64
    ensures WellLinked(Appended(links, l)) && 0 < |Appended(links, l)| <= MAX_CHAIN
    ensures Appended(links, l)[|Appended(links, l)| - 1] == l
  {
    SnocWellLinked(links, l);
    TailWellLinked(links + [l]);
  }

  // ---------------------------------------------------------------- whole runs of appends

  datatype Entry = Entry(event: Event, target: string, data: string, signature: Signature, now: int)

  /** The links held after appending the entries in order to an empty chain. */
  function ChainAfter(node: string, es: seq<Entry>): seq<Link> {
    if es == [] then []
    else
      var before, e := ChainAfter(node, es[..|es| - 1]), es[|es| - 1];
      Appended(before, NewLink(node, before, (|es| - 1) % TWO_64, e.event, e.target, e.data, e.signature, e.now))
  }

  ghost predicate Records(l: Link, node: string, index: nat, e: Entry) {
    && l.sequence == index % TWO_64 && l.event == e.event && l.node == node && l.target == e.target
    && l.dataHash == Sha(Lift(e.data)) && l.timestamp == e.now && l.signature == e.signature
  }

  /** The chain holds exactly the last MAX_CHAIN entries in order. */
  ghost predicate HoldsLast(links: seq<Link>, node: string, es: seq<Entry>) {
    && |links| == (if |es| <= MAX_CHAIN then |es| else MAX_CHAIN)
    && forall i :: 0 <= i < |links| ==> Records(links[i], node, |es| - |links| + i, es[|es| - |links| + i])
  }

  lemma AppendedHoldsLast(links: seq<Link>, node: string, es: seq<Entry>, e: Entry, l: Link)
    requires HoldsLast(links, node, es) && Records(l, node, |es|, e)
    ensures HoldsLast(Appended(links, l), node, es + [e])
  {
    var r, all := Appended(links, l), es + [e];
    forall i | 0 <= i < |r| ensures Records(r[i], node, |all| - |r| + i, all[|all| - |r| + i]) {
      var k := |all| - |r| + i;
      if k < |es| { assert all[k] == es[k] && r[i] == links[k - (|es| - |links|)]; }
    }
  }

  lemma SuccessorMod(n: nat)
    ensures (n % TWO_64 + 1) % TWO_64 == (n + 1) % TWO_64
  {
  }

  lemma NewLinkFits(links: seq<Link>, node: string, es: seq<Entry>, e: Entry)
    requires HoldsLast(links, node, es)
    ensures var l := NewLink(node, links, |es| % TWO_64, e.event, e.target, e.data, e.signature, e.now);
            && l.linkHash == Sha(Canonical(l)) && Records(l, node, |es|, e)
            && (links != [] ==> l.parentHash == links[|links| - 1].linkHash
                                && l.sequence == (links[|links| - 1].sequence + 1) % TWO_64)
  {
    var l := NewLink(node, links, |es| % TWO_64, e.event, e.target, e.data, e.signature, e.now);
    CanonicalIgnoresHash(l.(linkHash := []), l.linkHash);
    if links != [] {
      assert Records(links[|links| - 1], node, |es| - 1, es[|es| - 1]);
      SuccessorMod(|es| - 1);
    }
  }

  lemma AppendStep(links: seq<Link>, node: string, es: seq<Entry>, e: Entry)
    requires WellLinked(links) && HoldsLast(links, node, es)
    ensures var l := NewLink(node, links, |es| % TWO_64, e.event, e.target, e.data, e.signature, e.now);
            WellLinked(Appended(links, l)) && HoldsLast(Appended(links, l), node, es + [e])
  {
    var l := NewLink(node, links, |es| % TWO_64, e.event, e.target, e.data, e.signature, e.now);
    NewLinkFits(links, node, es, e);
    AppendedWellLinked(links, l);
    AppendedHoldsLast(links, node, es, e, l);
  }

  lemma SnocBack(es: seq<Entry>)
    requires es != []
    ensures es[..|es| - 1] + [es[|es| - 1]] == es
  {
  }

  /** After any run of appends, eviction included, the chain is linked, consecutive, bounded and holds the last entries. */
  lemma {:induction false} ChainAfterHolds(node: string, es: seq<Entry>)
    ensures var links := ChainAfter(node, es);
            WellLinked(links) && |links| <= 4096 && HoldsLast(links, node, es)
  {
    if es != [] {
      var before, e := es[..|es| - 1], es[|es| - 1];
      ChainAfterHolds(node, before);
      AppendStep(ChainAfter(node, before), node, before, e);
      ChainAfterSnoc(node, before, e);
      SnocBack(es);
    }
  }

  lemma AppendedFree(links: seq<Link>, l: Link)
    requires AllHashesFree(links) && HashesFree(l)
    ensures AllHashesFree(Appended(links, l))
  {
    var all := links + [l];
    assert AllHashesFree(all);
    assert forall i :: 0 <= i < |all[1..]| ==> all[1..][i] == all[i + 1];
  }

  lemma {:induction false} ChainAfterFree(node: string, es: seq<Entry>)
    ensures AllHashesFree(ChainAfter(node, es))
  {
    if es != [] {
      var before, e := ChainAfter(node, es[..|es| - 1]), es[|es| - 1];
      ChainAfterFree(node, es[..|es| - 1]);
      ChainAfterHolds(node, es[..|es| - 1]);
      var l := NewLink(node, before, (|es| - 1) % TWO_64, e.event, e.target, e.data, e.signature, e.now);
      assert before != [] ==> before[|before| - 1].linkHash == Sha(Canonical(before[|before| - 1]));
      AppendedFree(before, l);
    }
  }

  ghost predicate SameEntry(e: Entry, e': Entry) {
    e.event == e'.event && e.target == e'.target && e.data == e'.data
  }

  lemma SameRecord(x: Link, node: string, i: nat, e: Entry, y: Link, node': string, j: nat, e': Entry)
    requires Records(x, node, i, e) && Records(y, node', j, e') && !Overlaps(node, node')
    requires x.dataHash == y.dataHash && (SameHashedFields(x, y) <==> !Overlaps(x.node, y.node))
    ensures node == node' && SameEntry(e, e')
  {
    DataHashBinds(e.data, e'.data);
  }

  /** The links held by a node, and what they record. */
  ghost predicate Trail(links: seq<Link>, node: string, es: seq<Entry>) {
    WellLinked(links) && AllHashesFree(links) && HoldsLast(links, node, es)
  }

  lemma TrailsAgree(a: seq<Link>, node: string, es: seq<Entry>, b: seq<Link>, node': string, es': seq<Entry>, back: nat)
    requires Trail(a, node, es) && Trail(b, node', es') && !Overlaps(node, node')
    requires back < |a| && back < |b| && a[|a| - 1].linkHash == b[|b| - 1].linkHash
    ensures node == node' && SameEntry(es[|es| - 1 - back], es'[|es'| - 1 - back])
  {
    LastHashBindsChain(a, b, back);
    var i, j := |a| - 1 - back, |b| - 1 - back;
    assert Records(a[i], node, |es| - |a| + i, es[|es| - |a| + i]) && Records(b[j], node', |es'| - |b| + j, es'[|es'| - |b| + j]);
    SameRecord(a[i], node, |es| - 1 - back, es[|es| - 1 - back], b[j], node', |es'| - 1 - back, es'[|es'| - 1 - back]);
  }

  lemma {:induction false} ChainAfterTrail(node: string, es: seq<Entry>)
    ensures Trail(ChainAfter(node, es), node, es)
  {
    ChainAfterHolds(node, es);
    ChainAfterFree(node, es);
  }

  /**
   What two nodes with separable names have recorded, whatever targets and data: if their last link hashes agree
   they are one node, and have recorded the same events about the same targets with the same data, as far back as
   both chains still reach.
   */
  lemma {:induction false} LastHashBindsEntries(node: string, es: seq<Entry>, node': string, es': seq<Entry>, back: nat)
    requires !Overlaps(node, node')
    requires var a, b := ChainAfter(node, es), ChainAfter(node', es');
             back < |a| && back < |b| && a[|a| - 1].linkHash == b[|b| - 1].linkHash
    ensures node == node' && back < |es| && back < |es'| && SameEntry(es[|es| - 1 - back], es'[|es'| - 1 - back])
  {
    ChainAfterTrail(node, es);
    ChainAfterTrail(node', es');
    TrailsAgree(ChainAfter(node, es), node, es, ChainAfter(node', es'), node', es', back);
  }

  lemma LeavesNonEmpty(links: seq<Link>)
    requires Hashed(links)
    ensures NonEmpty(Leaves(links))
  {
    forall i | 0 <= i < |links| ensures Leaves(links)[i] != [] { assert Leaves(links)[i] == Sha(Canonical(links[i])); }
  }

  /** The entry behind a held link. */
  lemma {:induction false} LinkRecords(node: string, es: seq<Entry>, i: nat) returns (k: nat)
    requires i < |ChainAfter(node, es)|
    ensures k < |es| && k == i + (if |es| <= MAX_CHAIN then 0 else |es| - MAX_CHAIN)
    ensures Records(ChainAfter(node, es)[i], node, k, es[k])
  {
    ChainAfterHolds(node, es);
    k := |es| - |ChainAfter(node, es)| + i;
  }

  lemma ModSame(n: nat, d: nat)
    requires n < TWO_64
    ensures (n + d) % TWO_64 == n <==> d % TWO_64 == 0
  {
    var q, r := d / TWO_64, d % TWO_64;
    assert d == q * TWO_64 + r;
    if n + r < TWO_64 {
      ModUnique(n + d, q, n + r);
    } else {
      ModUnique(n + d, q + 1, n + r - TWO_64);
    }
  }

  lemma ModUnique(x: nat, q: nat, r: nat)
    requires x == q * TWO_64 + r && r < TWO_64
    ensures x % TWO_64 == r
  {
  }

  /**
   The link at index n is link number n if and only if nothing was evicted, 64-bit wrap-around aside: a proof
   asked for by number is one for that number exactly then.
   */
  lemma {:induction false} IndexIsNumberIff(node: string, es: seq<Entry>, n: nat)
    requires n < |ChainAfter(node, es)|
    ensures ChainAfter(node, es)[n].sequence == n
       <==> |es| <= MAX_CHAIN || (|es| - MAX_CHAIN) % TWO_64 == 0
  {
    var k := LinkRecords(node, es, n);
    ModSame(n, k - n);
  }

  /** After an eviction the newest links have numbers for which no path is given, though they are held. */
  lemma {:induction false} NewestHasNoProof(node: string, es: seq<Entry>)
    requires MAX_CHAIN < |es| <= TWO_64
    ensures var links := ChainAfter(node, es);
            |links| == MAX_CHAIN && links[|links| - 1].sequence == |es| - 1 && links[|links| - 1].sequence >= |links|
  {
    ChainAfterHolds(node, es);
    var k := LinkRecords(node, es, MAX_CHAIN - 1);
    ModUnique(k, 0, k);
  }

  /** The chain's own proof of link k is accepted against its root exactly when k is never an unpaired tail. */
  lemma ChainProofAcceptedIff(links: seq<Link>, k: nat)
    requires Hashed(links) && k < |links|
    ensures Accepts(Root(Leaves(links)), links[k].linkHash, Path(Leaves(links), k)) <==> NeverUnpaired(|links|, k)
  {
    LeavesNonEmpty(links);
    PathAcceptedIff(Leaves(links), k);
  }

  // ---------------------------------------------------------------- the object

  /** The inner loop of rebuild_merkle. */
  method BuildNext(layer: seq<Str>) returns (next: seq<Str>)
    ensures next == NextLayer(layer)
  {
    next := [];
    var i := 0;
    while i < |layer|
      invariant i % 2 == 0 && 0 <= i <= |layer| + 1
      invariant |next| == i / 2
      invariant forall j :: 0 <= j < |next| ==> next[j] == NextLayer(layer)[j]
    {
      assert 2 * (i / 2) == i;
      if i + 1 < |layer| {
        next := next + [Sha(layer[i] + layer[i + 1])];
      } else {
        next := next + [Sha(layer[i])];
      }
      i := i + 2;
    }
  }

  /** The outer loop of rebuild_merkle: layer by layer until one hash is left. */
  method BuildRoot(leaves: seq<Str>) returns (root: Str)
    requires leaves != []
    ensures root == Root(leaves)
  {
    var layer := leaves;
    while |layer| > 1
      invariant layer != [] && Root(layer) == Root(leaves)
      decreases |layer|
    {
      layer := BuildNext(layer);
    }
    root := layer[0];
  }

  /** One level of compute_sibling_path: the index is overwritten inside the loop that still compares against it. */
  method SiblingLevel(layer: seq<Str>, k: nat) returns (next: seq<Str>, siblings: seq<Str>, idx: nat)
    requires k < |layer|
    ensures next == NextLayer(layer) && siblings == Siblings(layer, k) && idx == k / 2
  {
    next, siblings, idx := [], [], k;
    var i := 0;
    while i < |layer|
      invariant i % 2 == 0 && 0 <= i <= |layer| + 1
      invariant |next| == i / 2
      invariant forall j :: 0 <= j < |next| ==> next[j] == NextLayer(layer)[j]
      invariant i <= k ==> idx == k && siblings == []
      invariant i > k ==> idx == k / 2 && siblings == Siblings(layer, k)
    {
      assert 2 * (i / 2) == i;
      if i + 1 < |layer| {
        if i == idx {
          siblings := siblings + [[Ch('R')] + layer[i + 1]];
        } else if i + 1 == idx {
          siblings := siblings + [[Ch('L')] + layer[i]];
        }
        next := next + [Sha(layer[i] + layer[i + 1])];
      } else {
        next := next + [Sha(layer[i])];
      }
      if i <= idx < i + 2 { idx := i / 2; }
      i := i + 2;
    }
  }

  lemma {:induction false} PathStep(layer: seq<Str>, k: nat, done: seq<Str>)
    requires |layer| > 1 && k < |layer|
    ensures k / 2 < |NextLayer(layer)|
    ensures done + Path(layer, k) == done + Siblings(layer, k) + Path(NextLayer(layer), k / 2)
  {
    ParentOf(layer, k);
    var here, up := Siblings(layer, k), Path(NextLayer(layer), k / 2);
    assert done + (here + up) == done + here + up;
  }

  method BuildPath(leaves: seq<Str>, k: nat) returns (siblings: seq<Str>)
    requires k < |leaves|
    ensures siblings == Path(leaves, k)
  {
    siblings := [];
    var layer, idx: nat := leaves, k;
    while |layer| > 1
      invariant idx < |layer| && siblings + Path(layer, idx) == Path(leaves, k)
      decreases |layer|
    {
      PathStep(layer, idx, siblings);
      var next, more, up := SiblingLevel(layer, idx);
      layer, siblings, idx := next, siblings + more, up;
    }
    assert siblings + [] == siblings;
  }

  method VerifyProof(root: Str, leaf: Str, siblings: seq<Str>) returns (ok: bool)
    ensures ok <==> Accepts(root, leaf, siblings)
  {
    var cur := leaf;
    var i := 0;
    while i < |siblings|
      invariant 0 <= i <= |siblings|
      invariant Fold(cur, siblings[i..]) == Fold(leaf, siblings)
    {
      var s := siblings[i];
      if s != [] && s[0] == Ch('L') { cur := Sha(s[1..] + cur); }
      else if s != [] && s[0] == Ch('R') { cur := Sha(cur + s[1..]); }
      else { cur := Sha(cur + s); }
      assert siblings[i..][1..] == siblings[i + 1..];
      i := i + 1;
    }
    return cur == root;
  }

  /** One more entry: one more link. */
  lemma {:induction false} ChainAfterSnoc(node: string, es: seq<Entry>, e: Entry)
    ensures var links := ChainAfter(node, es);
            ChainAfter(node, es + [e]) ==
            Appended(links, NewLink(node, links, |es| % TWO_64, e.event, e.target, e.data, e.signature, e.now))
    ensures (|es| % TWO_64 + 1) % TWO_64 == |es + [e]| % TWO_64
  {
    assert (es + [e])[..|es|] == es;
    SuccessorMod(|es|);
  }

  method MakeLink(node: string, links: seq<Link>, next: U64, event: Event, target: string, data: string, sig: Signature, now: int)
    returns (l: Link)
    ensures l == NewLink(node, links, next, event, target, data, sig, now)
  {
    var parent: Str := [];
    if links != [] { parent := links[|links| - 1].linkHash; }
    l := Link(next, event, node, target, Sha(Lift(data)), parent, [], now, sig);
    l := l.(linkHash := Sha(Canonical(l)));
  }

  /** The link made from an entry, put at the end; the oldest link goes when there are too many. */
  method Extend(node: string, links: seq<Link>, next: U64, e: Entry, ghost es: seq<Entry>) returns (r: seq<Link>, next': U64)
    requires links == ChainAfter(node, es) && next == |es| % TWO_64
    ensures r == ChainAfter(node, es + [e]) && next' == |es + [e]| % TWO_64
  {
    var l := MakeLink(node, links, next, e.event, e.target, e.data, e.signature, e.now);
    ChainAfterSnoc(node, es, e);
    r := links + [l];
    if |r| > MAX_CHAIN { r := r[1..]; }
    next' := (next + 1) % TWO_64;
  }

  class Chain {
    const nodeId: string
    var links: seq<Link>
    var nextSeq: U64
    var merkleDirty: bool
    var merkleRoot: Str
    /** Everything appended so far. */
    ghost var entries: seq<Entry>

    ghost predicate Valid()
      reads this
    {
      && links == ChainAfter(nodeId, entries)
      && nextSeq == |entries| % TWO_64
      && (links != [] && !merkleDirty ==> merkleRoot == Root(Leaves(links)))
    }

    constructor (node: string)
      ensures Valid() && nodeId == node && links == [] && entries == []
    {
      nodeId := node;
      links, nextSeq, merkleDirty, merkleRoot := [], 0, false, [];
      entries := [];
    }

    method Append(event: Event, target: string, data: string, sig: Signature, now: int)
      requires Valid()
      modifies this
      ensures Valid() && entries == old(entries) + [Entry(event, target, data, sig, now)]
    {
      var e := Entry(event, target, data, sig, now);
      links, nextSeq := Extend(nodeId, links, nextSeq, e, entries);
      merkleDirty := true;
      entries := entries + [e];
    }

    method RebuildMerkle()
      requires Valid()
      modifies this`merkleDirty, this`merkleRoot
      ensures Valid() && (links != [] ==> !merkleDirty)
    {
      if !merkleDirty || links == [] { return; }
      merkleRoot := BuildRoot(Leaves(links));
      merkleDirty := false;
    }

    /** However appends and queries interleave, the root is the one recomputed from scratch. */
    method GetRootHash() returns (root: Str)
      requires Valid()
      modifies this`merkleDirty, this`merkleRoot
      ensures Valid()
      ensures root == if links == [] then [] else Root(Leaves(links))
    {
      if links == [] { return []; }
      RebuildMerkle();
      return merkleRoot;
    }

    /** The argument is an index into the links still held. */
    method GetProofPath(index: nat) returns (siblings: seq<Str>)
      requires Valid()
      modifies this`merkleDirty, this`merkleRoot
      ensures Valid()
      ensures siblings == if index < |links| then Path(Leaves(links), index) else []
    {
      if index >= |links| { return []; }
      RebuildMerkle();
      siblings := BuildPath(Leaves(links), index);
    }
  }
}
