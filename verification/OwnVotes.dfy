/** What becomes of a node's own votes once one of them was kept out of its own record. */
module OwnVotes {
  import opened Symbolic
  import opened Pbft
  import opened CommitSigs

  lemma {:induction false} LargestExists(keys: set<U64>) returns (k: U64)
    requires keys != {}
    ensures k in keys && forall j :: j in keys ==> j <= k
    decreases keys
  {
    k :| k in keys;
    var rest := keys - {k};
    assert forall j :: j in keys ==> j == k || j in rest;
    if rest != {} {
      var k' := LargestExists(rest);
      if k < k' { k := k'; }
    }
  }

  ghost function LargestKey(h: map<U64, Str>): (k: U64)
    requires h != map[]
    ensures IsLargest(k, h)
  {
    assert exists k :: IsLargest(k, h) by { var k := LargestExists(h.Keys); assert IsLargest(k, h); }
    var k :| IsLargest(k, h); k
  }

  /** get_last_sent_hash as a value. */
  ghost function LastHash(l: Log, id: NodeId): (hash: Str)
    ensures IsLastHash(l, id, hash)
  {
    var h := HistoryAt(l, id);
    if h == map[] then Genesis() else h[LargestKey(h)]
  }

  // ---------------------------------------------------------------- runs of one node

  /** A broadcast of the node itself, or any other call of its engine. */
  datatype NodeOp =
    | Own(stage: string, target: NodeId, evidence: string, now: int, now': int, dropped: set<Str>)
    | Other(op: Op)

  ghost function OwnNext(s: State, last: U64, o: NodeOp): Message
    requires o.Own? && last + 1 < TWO_64
  {
    OwnVote(s.me, s.signingKey, o.stage, o.target, o.evidence, LastHash(s.log, s.me), last + 1, s.view)
  }

  /** broadcast_pbft_stage without the calls it nests: store the COMMIT signature, verify, advance. */
  ghost function Broadcast(s: State, m: Message, now: int, now': int, dropped: set<Str>): State {
    var rk := RoundKey(m.evidence, m.target);
    var s0 := if m.stage == "COMMIT" then Step(s, CommitSigOp(rk, m.signature)) else s;
    var s1 := Verify(s0, m, now);
    if Verifies(s0, m) then Advance(s1, m, MessageHash(m), rk, now', dropped).0 else s1
  }

  ghost function NodeStep(s: State, last: U64, o: NodeOp): (State, U64)
    requires last + 1 < TWO_64
  {
    match o
    case Own(_, _, _, now, now', dropped) => (Broadcast(s, OwnNext(s, last, o), now, now', dropped), last + 1)
    case Other(op) => (Step(s, op), last)
  }

  ghost function NodeRun(s: State, last: U64, ops: seq<NodeOp>): (r: (State, U64))
    requires last + |ops| < TWO_64
    ensures last <= r.1 <= last + |ops|
  {
    if ops == [] then (s, last)
    else
      var before := NodeRun(s, last, ops[..|ops| - 1]);
      NodeStep(before.0, before.1, ops[|ops| - 1])
  }

  function OwnCount(ops: seq<NodeOp>): nat {
    if ops == [] then 0 else OwnCount(ops[..|ops| - 1]) + if ops[|ops| - 1].Own? then 1 else 0
  }

  /** Calls that bring no message of the node itself and leave its registration alone. */
  predicate Quiet(o: NodeOp, me: NodeId) {
    o.Other? ==>
      match o.op
      case VerifyOp(m, _) => m.sender != me
      case AdvanceOp(m, _, _, _, _) => m.sender != me
      case PruneOp(id) => id != me
      case RegisterOp(id, _) => id != me
      case IdentityOp(_, _) => false
      case _ => true
  }

  ghost predicate QuietRun(ops: seq<NodeOp>, me: NodeId) {
    forall i :: 0 <= i < |ops| ==> Quiet(ops[i], me)
  }

  // ---------------------------------------------------------------- the gap

  /** What the node has on record of itself: something, ending before its last vote. */
  ghost predicate Gapped(h: map<U64, Str>, last: U64) {
    h != map[] && forall k :: k in h ==> k < last && h[k] != Genesis() && h[k] != []
  }

  lemma GapRefuses(s: State, last: U64, m: Message)
    requires Gapped(HistoryAt(s.log, m.sender), last) && m.seqNo == last + 1 && IsLastHash(s.log, m.sender, m.prevHash)
    ensures !Verifies(s, m)
  {
    assert Predecessor(m.seqNo) == last;
  }

  /** Banned by itself, or shut out with n failures counted. */
  ghost predicate ShutOut(s: State, last: U64, n: nat) {
    || s.me in s.members.banned
    || (&& s.me in s.members.keys && Gapped(HistoryAt(s.log, s.me), last)
        && TrustAt(s.members, s.me).failures == n && n < AUTO_PRUNE_FAILURES)
  }

  lemma FailureShutsOut(s: State, last: U64, n: nat, now: int)
    requires s.me in s.members.keys && Gapped(HistoryAt(s.log, s.me), last) && TrustAt(s.members, s.me).failures == n
    ensures ShutOut(RecordFailure(s, s.me, now), last, n + 1) && RecordFailure(s, s.me, now).me == s.me
  {
  }

  lemma RefusedShutsOut(s: State, last: U64, n: nat, m: Message, now: int)
    requires ShutOut(s, last, n) && m.sender == s.me && !Verifies(s, m) && last + 1 < TWO_64
    ensures ShutOut(Verify(s, m, now), last + 1, n + 1) && Verify(s, m, now).me == s.me
  {
    if s.me !in s.members.banned { FailureShutsOut(s, last, n, now); }
  }

  lemma StoredShutsOut(s: State, last: U64, n: nat, rk: Str, sig: Signature)
    requires ShutOut(s, last, n)
    ensures ShutOut(Step(s, CommitSigOp(rk, sig)), last, n) && Step(s, CommitSigOp(rk, sig)).me == s.me
    ensures Step(s, CommitSigOp(rk, sig)).log == s.log && Step(s, CommitSigOp(rk, sig)).members == s.members
  {
  }

  lemma OwnRefused(s: State, last: U64, n: nat, m: Message)
    requires ShutOut(s, last, n) && m.sender == s.me && m.seqNo == last + 1 && IsLastHash(s.log, s.me, m.prevHash)
    ensures !Verifies(s, m)
  {
    if s.me !in s.members.banned { GapRefuses(s, last, m); }
  }

  lemma OwnShutsOut(s: State, last: U64, n: nat, m: Message, now: int, now': int, dropped: set<Str>)
    requires ShutOut(s, last, n) && m.sender == s.me && m.seqNo == last + 1 && IsLastHash(s.log, s.me, m.prevHash)
    ensures ShutOut(Broadcast(s, m, now, now', dropped), last + 1, n + 1) && Broadcast(s, m, now, now', dropped).me == s.me
  {
    var rk := RoundKey(m.evidence, m.target);
    StoredShutsOut(s, last, n, rk, m.signature);
    var s0 := if m.stage == "COMMIT" then Step(s, CommitSigOp(rk, m.signature)) else s;
    OwnRefused(s0, last, n, m);
    RefusedShutsOut(s0, last, n, m, now);
  }

  // ---------------------------------------------------------------- other calls leave it alone

  /** All that matters of the node's own standing. */
  ghost predicate Alike(s: State, s': State) {
    && s'.me == s.me && (s.me in s.members.banned ==> s.me in s'.members.banned)
    && (s.me in s.members.keys ==> s.me in s'.members.keys) && TrustAt(s'.members, s.me) == TrustAt(s.members, s.me)
    && HistoryAt(s'.log, s.me) == HistoryAt(s.log, s.me)
  }

  lemma RecordFailureAlike(s: State, id: NodeId, now: int)
    requires id != s.me
    ensures Alike(s, RecordFailure(s, id, now))
  {
  }

  lemma DetectAlike(s: State, m: Message, mh: Str, now: int)
    requires m.sender != s.me
    ensures Alike(s, DetectEquivocation(s, m, mh, now))
  {
  }

  lemma AdmittedAlike(s: State, m: Message, mh: Str, rk: Str, now: int, dropped: set<Str>)
    requires m.sender != s.me
    ensures Alike(s, Admitted(s, m, mh, rk, now, dropped).0)
  {
    var s1 := s.(log := s.log.(seen := EvictSeen(s.log.seen + {mh}, dropped)));
    DetectAlike(s1, m, mh, now);
    var s2 := DetectEquivocation(s1, m, mh, now);
    ReplacedAlike(s1, s2, CountVote(s2.ballots, Quorum(s2.members.total), m, mh, rk, now).0);
  }

  lemma ReplacedAlike(s: State, s': State, b: Ballots)
    requires Alike(s, s')
    ensures Alike(s, s'.(ballots := b))
  {
  }

  lemma AdvanceAlike(s: State, m: Message, mh: Str, rk: Str, now: int, dropped: set<Str>)
    requires m.sender != s.me
    ensures Alike(s, Advance(s, m, mh, rk, now, dropped).0)
  {
    if m.sender in s.members.keys && m.sender !in s.members.banned {
      var s1 := Swept(s, m.sender, now);
      if RateAdmits(s, m.sender, now) {
        AdmittedAlike(s1, m, mh, rk, now, dropped);
      } else {
        RecordFailureAlike(s1, m.sender, now);
      }
    }
  }

  lemma OtherAlike(s: State, op: Op)
    requires Quiet(Other(op), s.me)
    ensures Alike(s, Step(s, op))
  {
    match op
    case AdvanceOp(m, mh, rk, now, dropped) => AdvanceAlike(s, m, mh, rk, now, dropped);
    case VerifyOp(m, now) => RecordFailureAlike(s, m.sender, now);
    case _ =>
  }

  lemma StepShutsOut(s: State, last: U64, n: nat, o: NodeOp)
    requires ShutOut(s, last, n) && Quiet(o, s.me) && last + 1 < TWO_64
    ensures var r := NodeStep(s, last, o);
            ShutOut(r.0, r.1, n + if o.Own? then 1 else 0) && r.0.me == s.me
  {
    match o
    case Own(_, _, _, now, now', dropped) => OwnShutsOut(s, last, n, OwnNext(s, last, o), now, now', dropped);
    case Other(op) => OtherAlike(s, op);
  }

  /** Once shut out, the node stays so through every run, and every own vote adds a failure. */
  lemma {:induction false} GapNeverCloses(s: State, last: U64, n: nat, ops: seq<NodeOp>)
    requires ShutOut(s, last, n) && QuietRun(ops, s.me) && last + |ops| < TWO_64
    ensures var r := NodeRun(s, last, ops);
            ShutOut(r.0, r.1, n + OwnCount(ops)) && r.0.me == s.me
  {
    if ops != [] {
      var front := ops[..|ops| - 1];
      GapNeverCloses(s, last, n, front);
      var r := NodeRun(s, last, front);
      StepShutsOut(r.0, r.1, n + OwnCount(front), ops[|ops| - 1]);
    }
  }

  // ---------------------------------------------------------------- how it starts

  /** The last vote is the last one on record. */
  ghost predicate InStep(h: map<U64, Str>, last: U64) {
    IsLargest(last, h) && forall k :: k in h ==> h[k] != Genesis() && h[k] != []
  }

  lemma LimitedShutsOut(s: State, last: U64, m: Message, mh: Str, rk: Str, now: int, dropped: set<Str>)
    requires m.sender == s.me && s.me in s.members.keys && s.me !in s.members.banned && last + 1 < TWO_64
    requires InStep(HistoryAt(s.log, s.me), last) && TrustAt(s.members, s.me).failures == 0
    requires !RateAdmits(s, s.me, now)
    ensures ShutOut(Advance(s, m, mh, rk, now, dropped).0, last + 1, 1)
    ensures Advance(s, m, mh, rk, now, dropped).0.me == s.me
  {
    FailureShutsOut(Swept(s, s.me, now), last + 1, 0, now);
  }

  lemma VerifiedStanding(s: State, m: Message, now: int)
    requires m.sender == s.me && Verifies(s, m)
    ensures var s' := Verify(s, m, now);
            && s'.me == s.me && s.me in s'.members.keys && s.me !in s'.members.banned
            && s'.log == s.log && TrustAt(s'.members, s.me).failures == 0 && s'.rateWindow == s.rateWindow && s'.rateMax == s.rateMax
  {
  }

  /** A vote that verifies but is over the node's own rate limit opens the gap. */
  lemma LimiterOpensGap(s: State, last: U64, m: Message, now: int, now': int, dropped: set<Str>)
    requires m.sender == s.me && m.seqNo == last + 1 && Verifies(s, m) && InStep(HistoryAt(s.log, s.me), last)
    requires !RateAdmits(s, s.me, now')
    ensures ShutOut(Broadcast(s, m, now, now', dropped), last + 1, 1) && Broadcast(s, m, now, now', dropped).me == s.me
  {
    var rk := RoundKey(m.evidence, m.target);
    var s0 := if m.stage == "COMMIT" then Step(s, CommitSigOp(rk, m.signature)) else s;
    assert s0.me == s.me && s0.log == s.log && s0.members == s.members;
    assert Verifies(s0, m);
    VerifiedStanding(s0, m, now);
    LimitedShutsOut(Verify(s0, m, now), last, m, MessageHash(m), rk, now', dropped);
  }

  /**
   One own vote over the rate limit, and from then on, whatever else is called, no own vote verifies, and with
   the ninety-ninth more the node has banned itself.
   */
  lemma {:induction false} OneLimitedVoteShutsOut(s: State, last: U64, o: NodeOp, ops: seq<NodeOp>, next: NodeOp)
    requires o.Own? && next.Own? && last + 2 + |ops| < TWO_64 && InStep(HistoryAt(s.log, s.me), last)
    requires Verifies(s, OwnNext(s, last, o)) && !RateAdmits(s, s.me, o.now') && QuietRun(ops, s.me)
    ensures var first := NodeStep(s, last, o);
            var r := NodeRun(first.0, first.1, ops);
            && !Verifies(r.0, OwnNext(r.0, r.1, next))
            && (OwnCount(ops) >= AUTO_PRUNE_FAILURES - 1 ==> s.me in r.0.members.banned)
  {
    LimiterOpensGap(s, last, OwnNext(s, last, o), o.now, o.now', o.dropped);
    var first := NodeStep(s, last, o);
    GapNeverCloses(first.0, first.1, 1, ops);
    var r := NodeRun(first.0, first.1, ops);
    OwnRefused(r.0, r.1, 1 + OwnCount(ops), OwnNext(r.0, r.1, next));
  }
}
