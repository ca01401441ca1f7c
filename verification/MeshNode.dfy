/** The node around the engine: its own votes, the votes it receives, and the audit trail of what was decided. */
module MeshNode {
  import opened Wrappers
  import opened Delimited
  import opened Symbolic
  import opened Pbft
  import opened PbftEngine
  import opened PbftText
  import opened PbftRegistry
  import opened CommitSigs
  import opened NodeSpec
  import ProofChain
  import N = Network

  /** A vote of this stage by `me`, signed if there is a key. */
  ghost predicate IsOwnVote(m: Message, me: NodeId, key: Option<nat>, stage: string, target: NodeId, evidence: string) {
    m == OwnVote(me, key, stage, target, evidence, m.prevHash, m.seqNo, m.view)
  }

  /** Votes for one evidence and target, each for the stage after the one before. */
  ghost predicate Cascade(ms: seq<Message>, me: NodeId, key: Option<nat>, stage: string, target: NodeId, evidence: string) {
    && ms != []
    && IsOwnVote(ms[0], me, key, stage, target, evidence)
    && (|ms| == 1 || (CallsLeft(stage) > 1 && Cascade(ms[1..], me, key, StageAfter(stage), target, evidence)))
  }

  lemma {:induction false} CascadeShort(ms: seq<Message>, me: NodeId, key: Option<nat>, stage: string,
                                        target: NodeId, evidence: string)
    requires Cascade(ms, me, key, stage, target, evidence)
    ensures |ms| <= CallsLeft(stage) <= 3
  {
    if |ms| > 1 { CascadeShort(ms[1..], me, key, StageAfter(stage), target, evidence); }
  }

  /** From `before` to `after`, exactly one cascade was sent: one vote for each nested call. */
  ghost predicate Cascades(before: seq<Message>, after: seq<Message>, me: NodeId, key: Option<nat>,
                           stage: string, target: NodeId, evidence: string)
  {
    exists votes :: after == before + votes && |votes| <= CallsLeft(stage) && Cascade(votes, me, key, stage, target, evidence)
  }

  lemma {:induction false} CascadeOne(before: seq<Message>, m: Message, me: NodeId, key: Option<nat>, stage: string, target: NodeId, evidence: string)
    requires IsOwnVote(m, me, key, stage, target, evidence)
    ensures Cascades(before, before + [m], me, key, stage, target, evidence)
  {
    assert Cascade([m], me, key, stage, target, evidence);
  }

  lemma {:induction false} CascadeCons(before: seq<Message>, m: Message, after: seq<Message>,
                    me: NodeId, key: Option<nat>, stage: string, target: NodeId, evidence: string)
    requires CallsLeft(stage) > 1 && IsOwnVote(m, me, key, stage, target, evidence)
    requires Cascades(before + [m], after, me, key, StageAfter(stage), target, evidence)
    ensures Cascades(before, after, me, key, stage, target, evidence)
  {
    var votes :| after == before + [m] + votes && Cascade(votes, me, key, StageAfter(stage), target, evidence);
    Assoc(before, [m], votes);
    CascadeAhead(m, votes, me, key, stage, target, evidence);
  }

  lemma {:induction false} CascadeAhead(m: Message, votes: seq<Message>, me: NodeId, key: Option<nat>, stage: string,
                                        target: NodeId, evidence: string)
    requires CallsLeft(stage) > 1 && IsOwnVote(m, me, key, stage, target, evidence)
    requires Cascade(votes, me, key, StageAfter(stage), target, evidence)
    ensures Cascade([m] + votes, me, key, stage, target, evidence) && |[m] + votes| <= CallsLeft(stage)
  {
    TailOf(m, votes);
    CascadeShort(votes, me, key, StageAfter(stage), target, evidence);
  }

  lemma TailOf(m: Message, votes: seq<Message>)
    ensures ([m] + votes)[1..] == votes
  {
  }

  /** Whatever the reason, a proposed ban is recognised as one when its round executes. */
  lemma BanEvidenceMarked(reason: string)
    ensures Contains(BanEvidence(reason), BAN_MARK)
  {
    var e := BanEvidence(reason);
    assert e[1..][..|BAN_MARK|] == BAN_MARK;
    assert Contains(e[1..], BAN_MARK);
  }

  // ---------------------------------------------------------------- the audit trail

  /** Every decision carries this node's COMMIT signature for a pair that makes the same round key. */
  ghost predicate DecisionsSigned(es: seq<ProofChain.Entry>, key: nat, targets: set<NodeId>) {
    forall i :: 0 <= i < |es| && es[i].event == ProofChain.ConsensusReached ==> DecisionSigned(es[i], key, targets)
  }

  ghost predicate DecisionSigned(e: ProofChain.Entry, key: nat, targets: set<NodeId>) {
    RoundSigned(RoundKey(e.data, e.target), e.signature, key, targets)
  }

  lemma DecisionsSignedSnoc(es: seq<ProofChain.Entry>, e: ProofChain.Entry, key: nat, targets: set<NodeId>)
    requires DecisionsSigned(es, key, targets) && DecisionSigned(e, key, targets)
    ensures DecisionsSigned(es + [e], key, targets)
  {
  }

  lemma DecisionsSignedGrow(es: seq<ProofChain.Entry>, key: nat, targets: set<NodeId>, targets': set<NodeId>)
    requires DecisionsSigned(es, key, targets) && targets <= targets'
    ensures DecisionsSigned(es, key, targets')
  {
    forall i | 0 <= i < |es| && es[i].event == ProofChain.ConsensusReached ensures DecisionSigned(es[i], key, targets') {
      assert DecisionSigned(es[i], key, targets);
    }
  }

  /** A COMMIT signature by `key` for this target and the evidence hashed here. */
  ghost predicate LinkSigned(dataHash: Str, target: NodeId, sig: Signature, key: nat) {
    exists evidence :: dataHash == Sha(Lift(evidence)) && OwnCommit(sig, key, evidence, target)
  }

  /** One for a pair that makes the same round key. */
  ghost predicate LinkRoundSigned(dataHash: Str, target: NodeId, sig: Signature, key: nat, targets: set<NodeId>) {
    exists evidence :: dataHash == Sha(Lift(evidence)) && RoundSigned(RoundKey(evidence, target), sig, key, targets)
  }

  /**
   Every CONSENSUS_REACHED link still held carries this node's own COMMIT signature for its round; and for
   exactly its target and evidence, unless a target this node committed itself can be taken for the link's.
   */
  lemma HeldLinksSigned(node: string, es: seq<ProofChain.Entry>, key: nat, targets: set<NodeId>, i: nat)
    requires DecisionsSigned(es, key, targets) && i < |ProofChain.ChainAfter(node, es)|
    requires ProofChain.ChainAfter(node, es)[i].event == ProofChain.ConsensusReached
    ensures var link := ProofChain.ChainAfter(node, es)[i];
            && LinkRoundSigned(link.dataHash, link.target, link.signature, key, targets)
            && ((forall t :: t in targets ==> !Confusable(link.target, t)) ==>
                  LinkSigned(link.dataHash, link.target, link.signature, key))
  {
    var link := ProofChain.ChainAfter(node, es)[i];
    var k := ProofChain.LinkRecords(node, es, i);
    assert DecisionSigned(es[k], key, targets);
    if forall t :: t in targets ==> !Confusable(link.target, t) {
      RoundSignedExact(es[k].data, es[k].target, es[k].signature, key, targets);
    }
  }

  /** A trail on which this node's decisions about `target` are all signed for exactly their target and evidence. */
  ghost predicate TrailExact(node: string, es: seq<ProofChain.Entry>, key: nat, target: NodeId) {
    forall i :: 0 <= i < |ProofChain.ChainAfter(node, es)| ==> LinkExact(ProofChain.ChainAfter(node, es)[i], key, target)
  }

  ghost predicate LinkExact(link: ProofChain.Link, key: nat, target: NodeId) {
    link.event == ProofChain.ConsensusReached && link.target == target ==>
      LinkSigned(link.dataHash, link.target, link.signature, key)
  }

  /** A trail of one decision. */
  lemma OneLink(node: string, e: ProofChain.Entry, key: nat)
    requires e.event == ProofChain.ConsensusReached
    ensures TrailExact(node, [e], key, e.target) ==> OwnCommit(e.signature, key, e.data, e.target)
  {
    ProofChain.ChainAfterHolds(node, [e]);
    var links := ProofChain.ChainAfter(node, [e]);
    if TrailExact(node, [e], key, e.target) {
      assert LinkExact(links[0], key, e.target);
      var evidence :| links[0].dataHash == Sha(Lift(evidence)) && OwnCommit(e.signature, key, evidence, e.target);
      ProofChain.DataHashBinds(evidence, e.data);
    }
  }

  /**
   Over all trails the node may record, the links about a target are signed for exactly their target and
   evidence if and only if no target the node committed itself can be taken for this one.
   */
  lemma TrailExactIff(node: string, key: nat, target: NodeId, targets: set<NodeId>)
    ensures (forall es :: DecisionsSigned(es, key, targets) ==> TrailExact(node, es, key, target))
       <==> (forall t :: t in targets ==> !Confusable(target, t))
  {
    if forall t :: t in targets ==> !Confusable(target, t) {
      forall es, i | DecisionsSigned(es, key, targets) && 0 <= i < |ProofChain.ChainAfter(node, es)|
        ensures LinkExact(ProofChain.ChainAfter(node, es)[i], key, target)
      {
        if ProofChain.ChainAfter(node, es)[i].event == ProofChain.ConsensusReached {
          HeldLinksSigned(node, es, key, targets, i);
        }
      }
    } else {
      var t :| t in targets && Confusable(target, t);
      var evidence, sig := ConfusedSignature(target, key, targets, t);
      var e := ProofChain.Entry(ProofChain.ConsensusReached, target, evidence, sig, 0);
      OneLink(node, e, key);
      assert DecisionsSigned([e], key, targets);
    }
  }

  /** A decision that an executed round records, with a signature for another pair. */
  lemma ConfusedLink(node: string, key: nat, front: string, target: NodeId) returns (s: State, m: Message)
    requires Receivable(target, "{}")
    ensures Consistent(s) && Ready(s, key, {front + "|" + target}, {}) && s.me != m.sender && Verifies(s, m) && m.target == target
    ensures var rk := RoundKey(m.evidence, m.target);
            var (s', stage) := Advance(s, m, MessageHash(m), rk, 0, {});
            var e := ProofChain.Entry(ProofChain.ConsensusReached, m.target, m.evidence, RoundAt(s'.ballots, rk).commitSignature, 0);
            && stage == Executed && DecisionsSigned([e], key, {front + "|" + target}) && !TrailExact(node, [e], key, target)
  {
    s, m := ConfusedExecution(key, front, target);
    var rk := RoundKey(m.evidence, m.target);
    var sig := RoundAt(Advance(s, m, MessageHash(m), rk, 0, {}).0.ballots, rk).commitSignature;
    OneLink(node, ProofChain.Entry(ProofChain.ConsensusReached, m.target, m.evidence, sig, 0), key);
  }

  /** Nothing was recorded, or one decision for this target and evidence that is not a ban. */
  ghost predicate RecordsAtMost(es: seq<ProofChain.Entry>, es': seq<ProofChain.Entry>, target: NodeId, evidence: string) {
    || es' == es
    || (&& !Contains(evidence, BAN_MARK) && |es'| == |es| + 1 && es' == es + [es'[|es|]]
        && es'[|es|].event == ProofChain.ConsensusReached && es'[|es|].target == target && es'[|es|].data == evidence)
  }

  /** A decision recorded on the way carries a COMMIT signature for exactly this target and evidence. */
  ghost predicate RecordsExact(es: seq<ProofChain.Entry>, es': seq<ProofChain.Entry>, key: nat, target: NodeId, evidence: string) {
    es' == es || (|es'| > |es| && OwnCommit(es'[|es|].signature, key, evidence, target))
  }

  // ---------------------------------------------------------------- the shape of a broadcast

  /** One cascade was sent, at most one decision recorded, and id, key and peers stay. */
  ghost predicate Shape(d: Desk, d': Desk, stage: string, target: NodeId, evidence: string) {
    && d'.id == d.id && d'.peers == d.peers && d'.pbft.signingKey == d.pbft.signingKey
    && Cascades(d.sent, d'.sent, d.id, d.pbft.signingKey, stage, target, evidence)
    && RecordsAtMost(d.entries, d'.entries, target, evidence)
  }

  /** Casting leaves the signing key alone. */
  ghost predicate KeepsKey(cast: Casting) {
    CastingOk(cast) && forall s: State, m: Message, tick: Tick :: cast(s, m, tick).0.signingKey == s.signingKey
  }

  lemma EngineKeepsKey()
    ensures KeepsKey(Engine())
  {
    forall s: State, m: Message, tick: Tick ensures Engine()(s, m, tick).0.signingKey == s.signingKey {
      CastKeepsKey(s, m, tick);
    }
  }

  lemma CastKeepsKey(s: State, m: Message, tick: Tick)
    ensures CastOn(s, m, tick).0.signingKey == s.signingKey
  {
    AdvanceKeepsKey(Verify(s, m, tick.now), m, MessageHash(m), RoundKey(m.evidence, m.target), tick.now', tick.dropped);
  }

  lemma ExecuteShape(d: Desk, stage: string, target: NodeId, evidence: string, sig: Signature, at: int)
    ensures var d' := ExecuteOn(d, stage, target, evidence, sig, at);
            && d'.id == d.id && d'.peers == d.peers && d'.pbft.signingKey == d.pbft.signingKey && d'.sent == d.sent
            && RecordsAtMost(d.entries, d'.entries, target, evidence)
  {
  }

  lemma {:induction false} ReactShape(cast: Casting, d: Desk, next: Stage, stage: string, target: NodeId, evidence: string, sig: Signature, at: int, env: Env)
    requires KeepsKey(cast) && Follows(stage, next)
    ensures var d' := ReactOn(cast, d, next, stage, target, evidence, sig, at, env);
            if next == Prepare || next == Commit then Shape(d, d', StageAfter(stage), target, evidence)
            else && d'.id == d.id && d'.peers == d.peers && d'.pbft.signingKey == d.pbft.signingKey && d'.sent == d.sent
                 && RecordsAtMost(d.entries, d'.entries, target, evidence)
    decreases CallsLeft(stage), 0
  {
    match next
    case Prepare => BroadcastShape(cast, d, "PREPARE", target, evidence, env);
    case Commit => BroadcastShape(cast, d.(journal := d.journal + [("COMMIT", target, evidence)]), "COMMIT", target, evidence, env);
    case Executed => ExecuteShape(d, stage, target, evidence, sig, at);
    case _ =>
  }

  /** One level of a broadcast: the vote sent, the engine after it was cast, and the stage it reported. */
  lemma BroadcastUnfolds(cast: Casting, d: Desk, stage: string, target: NodeId, evidence: string, env: Env)
    returns (m: Message, s: State, next: Stage)
    requires KeepsKey(cast)
    ensures IsOwnVote(m, d.id, d.pbft.signingKey, stage, target, evidence)
    ensures Follows(stage, next) && s.signingKey == d.pbft.signingKey
    ensures BroadcastOn(cast, d, stage, target, evidence, env)
         == ReactOn(cast, d.(lastSeq := m.seqNo, sent := d.sent + [m], pbft := s), next, stage, target, evidence, m.signature,
                    TickOf(env).at, RestOf(env))
  {
    m := NextOwn(d, stage, target, evidence);
    var d1 := SendOn(d, stage, target, evidence);
    var c := cast(d1.pbft, m, TickOf(env));
    assert m.stage == stage;
    s, next := c.0, c.1;
  }

  /** For every node, stage, target and evidence, and whatever the clock reads. */
  lemma {:induction false} BroadcastShape(cast: Casting, d: Desk, stage: string, target: NodeId, evidence: string, env: Env)
    requires KeepsKey(cast)
    ensures Shape(d, BroadcastOn(cast, d, stage, target, evidence, env), stage, target, evidence)
    decreases CallsLeft(stage), 1
  {
    var m, s, next := BroadcastUnfolds(cast, d, stage, target, evidence, env);
    var d2 := d.(lastSeq := m.seqNo, sent := d.sent + [m], pbft := s);
    ReactShape(cast, d2, next, stage, target, evidence, m.signature, TickOf(env).at, RestOf(env));
    var d' := ReactOn(cast, d2, next, stage, target, evidence, m.signature, TickOf(env).at, RestOf(env));
    if next == Prepare || next == Commit {
      CascadeCons(d.sent, m, d'.sent, d.id, d.pbft.signingKey, stage, target, evidence);
    } else {
      CascadeOne(d.sent, m, d.id, d.pbft.signingKey, stage, target, evidence);
    }
  }

  lemma ProcessUnfolds(cast: Casting, d: Desk, m: Message, env: Env) returns (s: State, next: Stage, sig: Signature)
    requires KeepsKey(cast) && m.sender != d.id
    ensures Follows(m.stage, next) && s.signingKey == d.pbft.signingKey
    ensures ProcessOn(cast, d, m, env) == ReactOn(cast, d.(pbft := s), next, m.stage, m.target, m.evidence, sig, TickOf(env).at, RestOf(env))
  {
    var c := cast(d.pbft, m, TickOf(env));
    s, next, sig := c.0, c.1, RoundAt(c.0.ballots, RoundKey(m.evidence, m.target)).commitSignature;
  }

  /** A received vote leads to nothing sent, or to one cascade of the stages after it. */
  lemma ProcessShape(cast: Casting, d: Desk, m: Message, env: Env)
    requires KeepsKey(cast)
    ensures var d' := ProcessOn(cast, d, m, env);
            && RecordsAtMost(d.entries, d'.entries, m.target, m.evidence)
            && (d'.sent == d.sent ||
                (CallsLeft(m.stage) > 1 && Cascades(d.sent, d'.sent, d.id, d'.pbft.signingKey, StageAfter(m.stage), m.target, m.evidence)))
  {
    if m.sender != d.id {
      var s, next, sig := ProcessUnfolds(cast, d, m, env);
      ReactShape(cast, d.(pbft := s), next, m.stage, m.target, m.evidence, sig, TickOf(env).at, RestOf(env));
    }
  }

  // ---------------------------------------------------------------- what a broadcast records

  /** Casting keeps the signing key, and the history free of separators. */
  ghost predicate KeepsSigning(cast: Casting) {
    KeepsKey(cast) && forall s: State, m: Message, tick: Tick :: HistoryFree(s.log) ==> HistoryFree(cast(s, m, tick).0.log)
  }

  lemma CastHistoryFree(s: State, m: Message, tick: Tick)
    requires HistoryFree(s.log)
    ensures HistoryFree(CastOn(s, m, tick).0.log)
  {
    RecordFailureHistoryFree(s, m.sender, tick.now);
    AdvanceHistoryFree(Verify(s, m, tick.now), m, MessageHash(m), RoundKey(m.evidence, m.target), tick.now', tick.dropped);
  }

  lemma EngineKeepsSigning()
    ensures KeepsSigning(Engine())
  {
    EngineKeepsKey();
    forall s: State, m: Message, tick: Tick | HistoryFree(s.log) ensures HistoryFree(Engine()(s, m, tick).0.log) {
      CastHistoryFree(s, m, tick);
    }
  }

  ghost predicate CanSign(d: Desk, key: nat) { d.pbft.signingKey == Some(key) && HistoryFree(d.pbft.log) }

  /** A COMMIT vote that the node sends is signed for exactly its pair. */
  lemma NextCommits(d: Desk, target: NodeId, evidence: string, key: nat)
    requires CanSign(d, key)
    ensures OwnCommit(NextOwn(d, "COMMIT", target, evidence).signature, key, evidence, target)
  {
    var prev := LastHash(d.pbft.log, d.id);
    LastHashIs(d.pbft.log, d.id, prev);
    LastHashFree(d.pbft.log, d.id, prev);
    OwnVoteCommits(key, target, evidence, prev, (d.lastSeq + 1) % TWO_64, d.pbft.view);
  }

  lemma SentCanSign(d: Desk, stage: string, target: NodeId, evidence: string, key: nat)
    requires CanSign(d, key)
    ensures CanSign(SendOn(d, stage, target, evidence), key) && NextOwn(d, stage, target, evidence).stage == stage
    ensures stage == "COMMIT" ==> OwnCommit(NextOwn(d, stage, target, evidence).signature, key, evidence, target)
  {
    if stage == "COMMIT" { NextCommits(d, target, evidence, key); }
  }

  /** One level, for a node that can sign. */
  lemma SigningParts(cast: Casting, d: Desk, stage: string, target: NodeId, evidence: string, env: Env, key: nat)
    returns (d2: Desk, next: Stage, sig: Signature)
    requires KeepsSigning(cast) && CanSign(d, key)
    ensures d2.entries == d.entries && CanSign(d2, key) && Follows(stage, next)
    ensures next == Executed ==> OwnCommit(sig, key, evidence, target)
    ensures BroadcastOn(cast, d, stage, target, evidence, env)
         == ReactOn(cast, d2, next, stage, target, evidence, sig, TickOf(env).at, RestOf(env))
  {
    var m, d1 := NextOwn(d, stage, target, evidence), SendOn(d, stage, target, evidence);
    SentCanSign(d, stage, target, evidence, key);
    var c := cast(d1.pbft, m, TickOf(env));
    d2, next, sig := d1.(pbft := c.0), c.1, m.signature;
  }

  lemma {:induction false} ReactExact(cast: Casting, d: Desk, next: Stage, stage: string, target: NodeId, evidence: string, sig: Signature,
                                      at: int, env: Env, key: nat)
    requires KeepsSigning(cast) && CanSign(d, key) && Follows(stage, next) && (next == Executed ==> OwnCommit(sig, key, evidence, target))
    ensures RecordsExact(d.entries, ReactOn(cast, d, next, stage, target, evidence, sig, at, env).entries, key, target, evidence)
    decreases CallsLeft(stage), 0
  {
    match next
    case Prepare => BroadcastExact(cast, d, "PREPARE", target, evidence, env, key);
    case Commit => BroadcastExact(cast, d.(journal := d.journal + [("COMMIT", target, evidence)]), "COMMIT", target, evidence, env, key);
    case _ =>
  }

  /** A decision recorded by a broadcast carries a COMMIT signature of this node for exactly its pair. */
  lemma {:induction false} BroadcastExact(cast: Casting, d: Desk, stage: string, target: NodeId, evidence: string, env: Env, key: nat)
    requires KeepsSigning(cast) && CanSign(d, key)
    ensures RecordsExact(d.entries, BroadcastOn(cast, d, stage, target, evidence, env).entries, key, target, evidence)
    decreases CallsLeft(stage), 1
  {
    var d2, next, sig := SigningParts(cast, d, stage, target, evidence, env, key);
    ReactExact(cast, d2, next, stage, target, evidence, sig, TickOf(env).at, RestOf(env), key);
  }

  // ---------------------------------------------------------------- the node as one of the network

  function BallotOf(m: Message): N.Ballot { N.Ballot(m, MessageHash(m), RoundKey(m.evidence, m.target)) }

  /** Receiving a message: a receive step and, if it verifies, a count step. */
  ghost function NetworkCast(node: N.Node, b: N.Ballot, now: int, now': int, dropped: set<Str>): N.Node {
    var received := N.Received(node, b, now);
    if Verifies(node.pbft, b.m) then N.Counted(received, b, now', dropped) else received
  }

  /** Every vote sent is one the network lets an honest node sign. */
  ghost predicate SentPermitted(sent: seq<Message>, permits: set<N.Permit>) {
    forall i :: 0 <= i < |sent| ==> VotePermitted(sent[i], permits)
  }

  ghost predicate VotePermitted(m: Message, permits: set<N.Permit>) {
    N.MaySend(permits, VoteOf(m))
  }

  function VoteOf(m: Message): N.Vote {
    N.Vote(m.sender, m.stage, m.target, m.evidence, m.seqNo, m.view, m.prevHash, RoundKey(m.evidence, m.target))
  }

  lemma VoteMaySend(m: Message, permits: set<N.Permit>)
    requires N.MaySign(permits, m.stage, m.evidence, m.target) && Free(BAR, m.prevHash)
    ensures VotePermitted(m, permits)
  {
    assert BarFree(m.stage);
  }

  lemma SentPermittedSnoc(sent: seq<Message>, m: Message, permits: set<N.Permit>)
    requires SentPermitted(sent, permits) && VotePermitted(m, permits)
    ensures SentPermitted(sent + [m], permits)
  {
  }

  lemma SentPermittedGrow(sent: seq<Message>, permits: set<N.Permit>, permits': set<N.Permit>)
    requires SentPermitted(sent, permits) && permits <= permits'
    ensures SentPermitted(sent, permits')
  {
    forall i | 0 <= i < |sent| ensures VotePermitted(sent[i], permits') { assert VotePermitted(sent[i], permits); }
  }

  /** The round that waits for this node's signature when a vote of this stage is about to be sent. */
  function Waiting(stage: string, rk: Str): set<Str> {
    if stage == "COMMIT" then {rk} else {}
  }

  class Node {
    const id: NodeId
    const key: nat
    const pbft: PBFTConsensus
    const chain: ProofChain.Chain
    /** The size of the peer registry. */
    var peerCount: nat
    var lastSeq: U64
    var sent: seq<Message>
    /** Stage, target and evidence of what was journalled. */
    var journal: seq<(string, NodeId, string)>
    /** The messages verified and the stages reported so far, as the network model keeps them. */
    ghost var verified: set<N.Ballot>
    ghost var permits: set<N.Permit>
    /** The targets this node has sent a COMMIT vote for. */
    ghost var committed: set<NodeId>

    ghost function Shadow(): N.Node
      reads this`verified, this`permits, pbft
    {
      N.Node(pbft.Abs(), verified, permits)
    }

    ghost function AsDesk(): Desk
      reads this`lastSeq, this`peerCount, this`sent, this`journal, pbft, chain
    {
      Desk(id, pbft.Abs(), lastSeq, peerCount, sent, journal, chain.entries)
    }

    /** The node can sign, all rounds past PREPARE but the `open` ones and all decisions are signed, all votes permitted. */
    ghost predicate Signing(open: set<Str>)
      reads this`sent, this`permits, this`committed, pbft, chain
    {
      && Ready(pbft.Abs(), key, committed, open) && DecisionsSigned(chain.entries, key, committed)
      && SentPermitted(sent, permits)
    }

    constructor (nodeId: NodeId, signingKey: nat, total: int, window: int, max: int)
      ensures chain.Valid() && Signing({}) && id == nodeId && key == signingKey && fresh(pbft) && fresh(chain)
      ensures id in pbft.keys && pbft.keys[id] == PublicKey(key) && pbft.me == id
    {
      var engine := new PBFTConsensus(total, window, max);
      engine.RegisterPeerKey(nodeId, PublicKey(signingKey));
      engine.SetIdentity(nodeId, Some(signingKey));
      var audit := new ProofChain.Chain(nodeId);
      id, key, pbft, chain := nodeId, signingKey, engine, audit;
      peerCount, lastSeq, sent, journal := 0, 0, [], [];
      verified, permits, committed := {}, {}, {};
    }

    /** verify_message: a receive step of the network. */
    method Receive(m: Message) returns (ok: bool, ghost now: int)
      modifies pbft, this`verified
      ensures ok <==> Verifies(old(pbft.Abs()), m)
      ensures Shadow() == N.Received(old(Shadow()), BallotOf(m), now) && pbft.signingKey == old(pbft.signingKey)
      ensures old(Signing({})) ==> Signing({})
    {
      if Signing({}) {
        forall t { OtherStepsReady(pbft.Abs(), VerifyOp(m, t), key, committed, {}); }
      }
      var clock: int := *;
      ok := pbft.VerifyMessage(m, clock);
      if ok { verified := verified + {BallotOf(m)}; }
      now := clock;
    }

    /** advance_state: a count step of the network. */
    method Count(m: Message) returns (next: Stage, ghost now: int, ghost dropped: set<Str>)
      modifies pbft, this`permits
      ensures Follows(m.stage, next) && pbft.signingKey == old(pbft.signingKey)
      ensures Shadow() == N.Counted(old(Shadow()), BallotOf(m), now, dropped)
      ensures (pbft.Abs(), next) == Advance(old(pbft.Abs()), m, MessageHash(m), RoundKey(m.evidence, m.target), now, dropped)
      ensures next == Prepare ==> N.HasPrepared(permits, m.evidence, m.target)
      ensures next == Commit ==> N.HasCommitted(permits, m.evidence, m.target)
      ensures old(Signing({})) ==>
                && Signing(if next == Commit then {RoundKey(m.evidence, m.target)} else {})
                && (next == Executed ==>
                      RoundSigned(RoundKey(m.evidence, m.target),
                                  RoundAt(pbft.Abs().ballots, RoundKey(m.evidence, m.target)).commitSignature, key, committed))
    {
      ghost var s, b, good := pbft.Abs(), BallotOf(m), Signing({});
      var clock: int := *;
      next, dropped := pbft.AdvanceState(m, clock);
      now := clock;
      Permit(b, next);
      AdvanceFollows(s, m, b.mh, b.rk, now, dropped);
      AdvanceKeepsKey(s, m, b.mh, b.rk, now, dropped);
      if good { AdvanceReady(s, m, b.mh, b.rk, now, dropped, key, committed); }
    }

    /** verify_message and, if it holds, advance_state. */
    method Cast(m: Message) returns (next: Stage, ghost tick: Tick)
      modifies pbft, this`verified, this`permits
      ensures Follows(m.stage, next) && pbft.signingKey == old(pbft.signingKey)
      ensures Shadow() == NetworkCast(old(Shadow()), BallotOf(m), tick.now, tick.now', tick.dropped)
      ensures (pbft.Abs(), next) == CastOn(old(pbft.Abs()), m, tick)
      ensures next == Prepare ==> N.HasPrepared(permits, m.evidence, m.target)
      ensures next == Commit ==> N.HasCommitted(permits, m.evidence, m.target)
      ensures old(Signing({})) ==>
                && Signing(if next == Commit then {RoundKey(m.evidence, m.target)} else {})
                && (next == Executed ==>
                      RoundSigned(RoundKey(m.evidence, m.target),
                                  RoundAt(pbft.Abs().ballots, RoundKey(m.evidence, m.target)).commitSignature, key, committed))
    {
      ghost var now, now', dropped;
      var ok;
      ok, now := Receive(m);
      if !ok { return Idle, Tick(now, now, {}, 0); }
      next, now', dropped := Count(m);
      tick := Tick(now, now', dropped, 0);
    }

    /** Note what the reported stage permits. */
    ghost method Permit(b: N.Ballot, next: Stage)
      modifies this`permits
      ensures permits == old(permits) + N.Permits(b, next, pbft.Abs().ballots)
      ensures next == Prepare ==> N.HasPrepared(permits, b.m.evidence, b.m.target)
      ensures next == Commit ==> N.HasCommitted(permits, b.m.evidence, b.m.target)
      ensures old(SentPermitted(sent, permits)) ==> SentPermitted(sent, permits)
    {
      var more := N.Permits(b, next, pbft.Abs().ballots);
      if SentPermitted(sent, permits) { SentPermittedGrow(sent, permits, permits + more); }
      permits := permits + more;
      assert next == Prepare ==> N.MayPrepare(b.rk, b.m.evidence, b.m.target, b.m.sender, b.m.stage) in permits;
    }

    /** A round that reached EXECUTED: ban the target of a ban round, otherwise record the decision. */
    method Execute(stage: string, target: NodeId, evidence: string, sig: Signature) returns (ghost at: int)
      requires chain.Valid()
      modifies this`journal, pbft, chain
      ensures AsDesk() == ExecuteOn(old(AsDesk()), stage, target, evidence, sig, at)
      ensures chain.Valid() && RecordsAtMost(old(chain.entries), chain.entries, target, evidence)
      ensures pbft.signingKey == old(pbft.signingKey)
      ensures Contains(evidence, BAN_MARK) || stage == "BAN_PEER" ==>
                target in pbft.banned && chain.entries == old(chain.entries)
      ensures !(Contains(evidence, BAN_MARK) || stage == "BAN_PEER") ==>
                (chain.entries == old(chain.entries) <==> peerCount < 1)
      ensures chain.entries == old(chain.entries) || chain.entries[|old(chain.entries)|].signature == sig
      ensures old(Signing({})) && RoundSigned(RoundKey(evidence, target), sig, key, committed) ==> Signing({})
    {
      if Contains(evidence, BAN_MARK) || stage == "BAN_PEER" {
        Ban(target, "BAN_PEER_EXECUTED", evidence);
        return 0;
      }
      if peerCount < 1 { return 0; }
      journal := journal + [("EXECUTED", target, evidence)];
      at := RecordDecision(target, evidence, sig);
    }

    method RecordDecision(target: NodeId, evidence: string, sig: Signature) returns (ghost at: int)
      requires chain.Valid()
      modifies chain
      ensures chain.entries == old(chain.entries) + [ProofChain.Entry(ProofChain.ConsensusReached, target, evidence, sig, at)]
      ensures chain.Valid() && |chain.entries| == |old(chain.entries)| + 1
      ensures chain.entries == old(chain.entries) + [chain.entries[|old(chain.entries)|]]
      ensures var e := chain.entries[|old(chain.entries)|];
              e.event == ProofChain.ConsensusReached && e.target == target && e.data == evidence && e.signature == sig
      ensures old(Signing({})) && RoundSigned(RoundKey(evidence, target), sig, key, committed) ==> Signing({})
    {
      var now: int := *;
      ghost var e := ProofChain.Entry(ProofChain.ConsensusReached, target, evidence, sig, now);
      if Signing({}) && DecisionSigned(e, key, committed) { DecisionsSignedSnoc(chain.entries, e, key, committed); }
      chain.Append(ProofChain.ConsensusReached, target, evidence, sig, now);
      at := now;
    }

    method Ban(target: NodeId, stage: string, evidence: string)
      modifies this`journal, pbft
      ensures AsDesk() == BanOn(old(AsDesk()), target, stage, evidence)
      ensures target in pbft.banned && pbft.signingKey == old(pbft.signingKey)
      ensures old(Signing({})) ==> Signing({})
    {
      if Signing({}) { OtherStepsReady(pbft.Abs(), BanOp(target), key, committed, {}); }
      pbft.BanPeerLocal(target);
      journal := journal + [(stage, target, evidence)];
    }

    /** The node's next vote, signed. */
    method SignVote(stage: string, target: NodeId, evidence: string) returns (m: Message)
      modifies this`lastSeq
      ensures m == NextOwn(old(AsDesk()), stage, target, evidence)
      ensures lastSeq == (old(lastSeq) + 1) % TWO_64
      ensures IsOwnVote(m, id, pbft.signingKey, stage, target, evidence) && m.seqNo == lastSeq
      ensures HistoryFree(pbft.Abs().log) ==> Free(BAR, m.prevHash)
    {
      lastSeq := (lastSeq + 1) % TWO_64;
      var view := pbft.view;
      var prev := pbft.GetLastSentHash(id);
      m := Message(stage, id, target, evidence, NoSignature, prev, lastSeq, view);
      var signature := pbft.SignMessage(m);
      m := m.(signature := signature);
      LastHashIs(pbft.Abs().log, id, prev);
      if HistoryFree(pbft.Abs().log) { LastHashFree(pbft.Abs().log, id, prev); }
    }

    /** Sign and send one vote; a COMMIT signature is stored with its round before the vote is cast. */
    method SendVote(stage: string, target: NodeId, evidence: string) returns (m: Message)
      modifies this`lastSeq, this`sent, this`committed, pbft
      ensures m == NextOwn(old(AsDesk()), stage, target, evidence) && AsDesk() == SendOn(old(AsDesk()), stage, target, evidence)
      ensures sent == old(sent) + [m] && lastSeq == (old(lastSeq) + 1) % TWO_64 && pbft.signingKey == old(pbft.signingKey)
      ensures IsOwnVote(m, id, pbft.signingKey, stage, target, evidence) && m.seqNo == lastSeq
      ensures old(Signing(Waiting(stage, RoundKey(evidence, target)))) && N.MaySign(permits, stage, evidence, target) ==>
                && Signing({})
                && (stage == "COMMIT" ==> target in committed && OwnCommit(m.signature, key, evidence, target))
    {
      ghost var good := Signing(Waiting(stage, RoundKey(evidence, target)));
      m := SignVote(stage, target, evidence);
      if stage == "COMMIT" {
        if good { OwnVoteCommits(key, target, evidence, m.prevHash, m.seqNo, m.view); }
        StoreCommit(target, evidence, m.signature);
      }
      if good && N.MaySign(permits, stage, evidence, target) {
        VoteMaySend(m, permits);
        SentPermittedSnoc(sent, m, permits);
      }
      sent := sent + [m];
    }

    method StoreCommit(target: NodeId, evidence: string, signature: Signature)
      modifies this`committed, pbft
      ensures pbft.Abs() == Step(old(pbft.Abs()), CommitSigOp(RoundKey(evidence, target), signature))
      ensures target in committed && pbft.signingKey == old(pbft.signingKey)
      ensures old(Signing({RoundKey(evidence, target)})) && OwnCommit(signature, key, evidence, target) ==> Signing({})
    {
      ghost var good := Signing({RoundKey(evidence, target)});
      ghost var targets := committed + {target};
      if good && OwnCommit(signature, key, evidence, target) {
        ReadyGrows(pbft.Abs(), key, committed, {RoundKey(evidence, target)}, targets);
        CommitSigReady(pbft.Abs(), evidence, target, signature, key, targets);
        DecisionsSignedGrow(chain.entries, key, committed, targets);
      }
      pbft.SetRoundCommitSig(RoundKey(evidence, target), signature);
      committed := targets;
    }

    /** This node's own vote, sent and then cast like any other. */
    method CastOwn(stage: string, target: NodeId, evidence: string) returns (m: Message, next: Stage, ghost tick: Tick)
      modifies this`lastSeq, this`sent, this`verified, this`permits, this`committed, pbft
      ensures var d := SendOn(old(AsDesk()), stage, target, evidence);
              && m == NextOwn(old(AsDesk()), stage, target, evidence)
              && (pbft.Abs(), next) == CastOn(d.pbft, m, tick) && AsDesk() == d.(pbft := pbft.Abs())
      ensures sent == old(sent) + [m] && pbft.signingKey == old(pbft.signingKey) && Follows(stage, next)
      ensures IsOwnVote(m, id, pbft.signingKey, stage, target, evidence)
      ensures old(Signing(Waiting(stage, RoundKey(evidence, target))) && N.MaySign(permits, stage, evidence, target)) ==>
                && Reported(next, target, evidence, m.signature)
                && (next == Executed ==> OwnCommit(m.signature, key, evidence, target))
    {
      ghost var good := Signing(Waiting(stage, RoundKey(evidence, target))) && N.MaySign(permits, stage, evidence, target);
      m := SendVote(stage, target, evidence);
      next, tick := Cast(m);
      if good && next == Executed { OwnRoundSigned(m.signature, key, evidence, target, committed); }
    }

    /** The recursion of broadcast_pbft_stage; each nested call follows a strictly later stage. */
    method Broadcast(stage: string, target: NodeId, evidence: string) returns (ghost env: Env)
      requires chain.Valid()
      modifies this`lastSeq, this`sent, this`journal, this`verified, this`permits, this`committed, pbft, chain
      ensures AsDesk() == BroadcastOn(Engine(), old(AsDesk()), stage, target, evidence, env)
      ensures chain.Valid()
      ensures old(Signing(Waiting(stage, RoundKey(evidence, target))) && N.MaySign(permits, stage, evidence, target)) ==> Signing({})
      decreases CallsLeft(stage), 1
    {
      ghost var tick, at, rest;
      var m, next;
      m, next, tick := CastOwn(stage, target, evidence);
      ghost var s := pbft.Abs();
      at, rest := React(next, stage, target, evidence, m.signature);
      env := Env(tick.(at := at), rest);
      BroadcastIs(Engine(), old(AsDesk()), stage, target, evidence, tick, at, rest, m, s, next);
    }

    /**
     From every state and for every stage, target and evidence: the broadcast is computed, with one call for
     each vote sent, at most three.
     */
    method BroadcastPbftStage(stage: string, target: NodeId, evidence: string) returns (ghost env: Env)
      requires chain.Valid()
      modifies this`lastSeq, this`sent, this`journal, this`verified, this`permits, this`committed, pbft, chain
      ensures AsDesk() == BroadcastOn(Engine(), old(AsDesk()), stage, target, evidence, env)
      ensures chain.Valid() && pbft.signingKey == old(pbft.signingKey)
      ensures Cascades(old(sent), sent, id, pbft.signingKey, stage, target, evidence)
      ensures RecordsAtMost(old(chain.entries), chain.entries, target, evidence)
      ensures old(Signing(Waiting(stage, RoundKey(evidence, target))) && N.MaySign(permits, stage, evidence, target)) ==>
                Signing({}) && RecordsExact(old(chain.entries), chain.entries, key, target, evidence)
    {
      env := Broadcast(stage, target, evidence);
      EngineKeepsSigning();
      BroadcastShape(Engine(), old(AsDesk()), stage, target, evidence, env);
      if old(Signing(Waiting(stage, RoundKey(evidence, target)))) {
        BroadcastExact(Engine(), old(AsDesk()), stage, target, evidence, env, key);
      }
    }

    /** What follows a reported stage: the next vote, or the execution with the given signature. */
    method React(next: Stage, stage: string, target: NodeId, evidence: string, sig: Signature)
      returns (ghost at: int, ghost env: Env)
      requires chain.Valid() && Follows(stage, next)
      modifies this`lastSeq, this`sent, this`journal, this`verified, this`permits, this`committed, pbft, chain
      ensures AsDesk() == ReactOn(Engine(), old(AsDesk()), next, stage, target, evidence, sig, at, env)
      ensures chain.Valid()
      ensures old(Reported(next, target, evidence, sig)) ==> Signing({})
      decreases CallsLeft(stage), 0
    {
      at, env := 0, Calm;
      if next == Prepare {
        env := Broadcast("PREPARE", target, evidence);
      } else if next == Commit {
        env := CommitNext(target, evidence);
      } else if next == Executed {
        at := Execute(stage, target, evidence, sig);
      }
    }

    /** The COMMIT vote, journalled first. */
    method CommitNext(target: NodeId, evidence: string) returns (ghost env: Env)
      requires chain.Valid()
      modifies this`lastSeq, this`sent, this`journal, this`verified, this`permits, this`committed, pbft, chain
      ensures var d := old(AsDesk());
              AsDesk() == BroadcastOn(Engine(), d.(journal := d.journal + [("COMMIT", target, evidence)]), "COMMIT", target, evidence, env)
      ensures chain.Valid()
      ensures old(Signing({RoundKey(evidence, target)}) && N.HasCommitted(permits, evidence, target)) ==> Signing({})
      decreases 1, 2
    {
      journal := journal + [("COMMIT", target, evidence)];
      env := Broadcast("COMMIT", target, evidence);
    }

    /** The invariant as a reported stage leaves it. */
    ghost predicate Reported(next: Stage, target: NodeId, evidence: string, sig: Signature)
      reads this`sent, this`permits, this`committed, pbft, chain
    {
      && Signing(if next == Commit then {RoundKey(evidence, target)} else {})
      && (next == Prepare ==> N.HasPrepared(permits, evidence, target))
      && (next == Commit ==> N.HasCommitted(permits, evidence, target))
      && (next == Executed ==> RoundSigned(RoundKey(evidence, target), sig, key, committed))
    }

    /** A decoded VOTE from the network. */
    method ProcessVote(m: Message) returns (ghost env: Env)
      requires chain.Valid()
      modifies this`lastSeq, this`sent, this`journal, this`verified, this`permits, this`committed, pbft, chain
      ensures AsDesk() == ProcessOn(Engine(), old(AsDesk()), m, env)
      ensures chain.Valid() && RecordsAtMost(old(chain.entries), chain.entries, m.target, m.evidence)
      ensures m.sender == id ==>
                pbft.Abs() == old(pbft.Abs()) && sent == old(sent) && journal == old(journal) && chain.entries == old(chain.entries)
      ensures sent == old(sent) ||
              (CallsLeft(m.stage) > 1 &&
               Cascades(old(sent), sent, id, pbft.signingKey, StageAfter(m.stage), m.target, m.evidence))
      ensures old(Signing({})) ==> Signing({})
    {
      if m.sender == id { return Calm; }
      ghost var tick, at, rest;
      var next;
      next, tick := Cast(m);
      var sig := pbft.GetRoundCommitSig(RoundKey(m.evidence, m.target));
      at, rest := React(next, m.stage, m.target, m.evidence, sig);
      env := Env(tick.(at := at), rest);
      EngineKeepsKey();
      ProcessShape(Engine(), old(AsDesk()), m, env);
    }

    method InitiateConsensus(target: NodeId, evidence: string, onCooldown: bool) returns (ghost env: Env)
      requires chain.Valid()
      modifies this`lastSeq, this`sent, this`journal, this`verified, this`permits, this`committed, pbft, chain
      ensures AsDesk() ==
                if onCooldown then old(AsDesk()) else BroadcastOn(Engine(), old(AsDesk()), "PRE_PREPARE", target, evidence, env)
      ensures chain.Valid() && RecordsAtMost(old(chain.entries), chain.entries, target, evidence)
      ensures if onCooldown then sent == old(sent)
              else Cascades(old(sent), sent, id, pbft.signingKey, "PRE_PREPARE", target, evidence)
      ensures old(Signing({})) ==> Signing({})
    {
      if onCooldown { return Calm; }
      env := BroadcastPbftStage("PRE_PREPARE", target, evidence);
    }

    /** A ban is broadcast, never recorded as a decision, and in force here when the call returns. */
    method ProposeBan(target: NodeId, reason: string) returns (ok: bool, ghost env: Env)
      requires chain.Valid()
      modifies this`lastSeq, this`sent, this`journal, this`verified, this`permits, this`committed, pbft, chain
      ensures AsDesk() == ProposeBanOn(Engine(), old(AsDesk()), target, reason, env)
      ensures chain.Valid() && chain.entries == old(chain.entries)
      ensures ok <==> target != "" && target != id
      ensures if ok then Cascades(old(sent), sent, id, pbft.signingKey, "PRE_PREPARE", target, BanEvidence(reason))
              else sent == old(sent)
      ensures ok ==> target in pbft.banned
      ensures old(Signing({})) ==> Signing({})
    {
      if target == "" || target == id { return false, Calm; }
      BanEvidenceMarked(reason);
      env := BroadcastPbftStage("PRE_PREPARE", target, BanEvidence(reason));
      if target !in pbft.banned { Ban(target, "BAN_PEER_LOCAL", reason); }
      ok := true;
    }
  }
}
