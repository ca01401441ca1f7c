/**
 n nodes exchanging signed votes. Every locked method of a node is one step and steps of different
 nodes and threads interleave freely; messages may be lost, repeated and reordered. Faulty nodes
 have no state here: they may send anything except a signature an honest node never made.
 */
module Network {
  import opened Delimited
  import opened Symbolic
  import opened Pbft
  import opened PbftRegistry
  import opened PbftQuorum
  import opened PbftText
  import opened Quorums
  import opened Paths

  /** The fixed membership: all ids, the faulty ones, and the key of each. */
  datatype Setup = Setup(ids: set<NodeId>, faulty: set<NodeId>, keyOf: map<NodeId, nat>)

  /** What an honest node signed in broadcast_pbft_stage. */
  datatype Vote = Vote(
    signer: NodeId, stage: string, target: NodeId, evidence: string, seqNo: U64, view: int, prevHash: Str, rk: Str)

  /** A message with the hash and the round key advance_state computes for it. */
  datatype Ballot = Ballot(m: Message, mh: Str, rk: Str)

  /** An advance_state result that lets the node broadcast the next stage for the counted pair, with what it had seen. */
  datatype Permit =
    | MayPrepare(rk: Str, evidence: string, target: NodeId, proposer: NodeId, proposal: string)
    | MayCommit(rk: Str, evidence: string, target: NodeId, prepared: set<NodeId>)

  datatype Node = Node(pbft: State, verified: set<Ballot>, permits: set<Permit>)

  datatype Net = Net(nodes: map<NodeId, Node>, signed: set<Vote>)

  datatype Action =
    | Receive(p: NodeId, ballot: Ballot, now: int)
    | Count(p: NodeId, ballot: Ballot, now: int, dropped: set<Str>)
    | Broadcast(p: NodeId, vote: Vote)
    | Local(p: NodeId, op: Op)

  ghost predicate SetupOk(u: Setup) {
    && u.ids != {} && u.faulty <= u.ids && |u.faulty| <= MaxFaulty(|u.ids|)
    && u.keyOf.Keys == u.ids
    && forall v, w :: v in u.ids && w in u.ids && u.keyOf[v] == u.keyOf[w] ==> v == w
  }

  function Honest(u: Setup): set<NodeId> { u.ids - u.faulty }

  function VoteBlob(v: Vote): Str { SigningBlob(v.stage, v.target, v.evidence, v.seqNo, v.view, v.prevHash) }

  ghost predicate Member(u: Setup, s: State) {
    && s.members.total == |u.ids|
    && s.members.keys.Keys == u.ids
    && forall v :: v in u.ids && v in u.keyOf ==> s.members.keys[v] == PublicKey(u.keyOf[v])
  }

  /** Fields that the split at '|' and the guards of the receiver let through. */
  ghost predicate Acceptable(m: Message) {
    && Wire.StageKnown(m.stage) && BarFree(m.sender) && 0 < |m.sender| <= Wire.MAX_ID
    && Receivable(m.target, m.evidence) && Free(BAR, m.prevHash)
  }

  ghost predicate BallotText(b: Ballot) {
    b.mh == MessageHash(b.m) && b.rk == RoundKey(b.m.evidence, b.m.target)
  }

  /** Nothing is asked of target and evidence: broadcast_pbft_stage signs any. */
  ghost predicate SignedText(v: Vote) {
    BarFree(v.stage) && Free(BAR, v.prevHash) && v.rk == RoundKey(v.evidence, v.target)
  }

  ghost predicate Made(signed: set<Vote>, v: NodeId, blob: Str) {
    exists vote :: vote in signed && vote.signer == v && VoteBlob(vote) == blob
  }

  /** A signature under an honest node's key is one that node made. */
  ghost predicate Unforged(u: Setup, signed: set<Vote>, m: Message) {
    forall v :: v in Honest(u) && v in u.keyOf && m.signature.Signed? && m.signature.key == u.keyOf[v]
      ==> Made(signed, v, m.signature.blob)
  }

  /** Somebody else's message, as it comes from the wire. */
  ghost predicate FromWire(u: Setup, signed: set<Vote>, p: NodeId, m: Message) {
    m.sender != p && Acceptable(m) && Unforged(u, signed, m)
  }

  ghost predicate SameText(m: Message, v: Vote) {
    && m.sender == v.signer && m.stage == v.stage && m.target == v.target && m.evidence == v.evidence
    && m.seqNo == v.seqNo && m.view == v.view && m.prevHash == v.prevHash
  }

  /** The node's own vote, which broadcast_pbft_stage hands back to it without a wire in between. */
  ghost predicate HandedBack(signed: set<Vote>, p: NodeId, m: Message) {
    m.sender == p && exists vote :: vote in signed && SameText(m, vote)
  }

  /** What an honest node may sign: a proposal at any time, a later stage only for a pair that advance_state reported. */
  ghost predicate MaySign(permits: set<Permit>, stage: string, evidence: string, target: NodeId) {
    || stage == "PRE_PREPARE"
    || (stage == "PREPARE" && HasPrepared(permits, evidence, target))
    || (stage == "COMMIT" && HasCommitted(permits, evidence, target))
  }

  ghost predicate HasPrepared(permits: set<Permit>, evidence: string, target: NodeId) {
    exists t :: t in permits && t.MayPrepare? && t.evidence == evidence && t.target == target
  }

  ghost predicate HasCommitted(permits: set<Permit>, evidence: string, target: NodeId) {
    exists t :: t in permits && t.MayCommit? && t.evidence == evidence && t.target == target
  }

  ghost predicate MaySend(permits: set<Permit>, vote: Vote) {
    SignedText(vote) && MaySign(permits, vote.stage, vote.evidence, vote.target)
  }

  ghost predicate Enabled(u: Setup, net: Net, a: Action) {
    && a.p in net.nodes
    && match a
       case Receive(p, ballot, now) =>
         BallotText(ballot) && (FromWire(u, net.signed, p, ballot.m) || HandedBack(net.signed, p, ballot.m))
       case Count(p, ballot, now, dropped) => ballot in net.nodes[p].verified
       case Broadcast(p, vote) => vote.signer == p && MaySend(net.nodes[p].permits, vote)
       case Local(p, op) => !op.VerifyOp? && !op.AdvanceOp?
  }

  /** The permit that a reported stage stands for. */
  function Permits(ballot: Ballot, stage: Stage, b: Ballots): set<Permit> {
    var m := ballot.m;
    if stage == Prepare then {MayPrepare(ballot.rk, m.evidence, m.target, m.sender, m.stage)}
    else if stage == Commit then {MayCommit(ballot.rk, m.evidence, m.target, Prepared(b, ballot.rk))}
    else {}
  }

  ghost function Received(node: Node, ballot: Ballot, now: int): Node {
    node.(pbft := Verify(node.pbft, ballot.m, now),
          verified := if Verifies(node.pbft, ballot.m) then node.verified + {ballot} else node.verified)
  }

  ghost function BallotAdvance(s: State, ballot: Ballot, now: int, dropped: set<Str>): (State, Stage) {
    Advance(s, ballot.m, ballot.mh, ballot.rk, now, dropped)
  }

  ghost function Counted(node: Node, ballot: Ballot, now: int, dropped: set<Str>): Node {
    var (s, stage) := BallotAdvance(node.pbft, ballot, now, dropped);
    node.(pbft := s, permits := node.permits + Permits(ballot, stage, s.ballots))
  }

  ghost function Next(net: Net, a: Action): Net
    requires a.p in net.nodes
  {
    var node := net.nodes[a.p];
    match a
    case Receive(p, ballot, now) => net.(nodes := net.nodes[p := Received(node, ballot, now)])
    case Count(p, ballot, now, dropped) => net.(nodes := net.nodes[p := Counted(node, ballot, now, dropped)])
    case Broadcast(p, vote) => net.(signed := net.signed + {vote})
    case Local(p, op) => net.(nodes := net.nodes[p := node.(pbft := Step(node.pbft, op))])
  }

  /** A step that happens and leaves the membership of its node as set up. */
  ghost predicate Happens(u: Setup, net: Net, a: Action) {
    Enabled(u, net, a) && Member(u, Next(net, a).nodes[a.p].pbft)
  }

  ghost predicate StepTo(u: Setup, net: Net, a: Action, net': Net) {
    Happens(u, net, a) && net' == Next(net, a)
  }

  ghost function Steps(u: Setup): (Net, Action, Net) -> bool {
    (net, a, net') => StepTo(u, net, a, net')
  }

  ghost predicate Reaches(u: Setup, net: Net, actions: seq<Action>, net': Net) {
    Path(Steps(u), net, actions, net')
  }

  /** Every honest node knows the membership and has counted nothing yet. */
  ghost predicate Initial(u: Setup, net: Net) {
    && net.nodes.Keys == Honest(u)
    && net.signed == {}
    && forall p :: p in net.nodes ==>
         && Member(u, net.nodes[p].pbft) && Consistent(net.nodes[p].pbft)
         && net.nodes[p].pbft.ballots == Ballots(map[], map[])
         && net.nodes[p].verified == {} && net.nodes[p].permits == {}
  }

  // ---------------------------------------------------------------- the invariant

  /** v signed a vote of this stage for this round. */
  ghost predicate SignedFor(signed: set<Vote>, v: NodeId, stage: string, rk: Str) {
    exists vote :: vote in signed && vote.signer == v && vote.stage == stage && vote.rk == rk
  }

  /** Every honest node in the set did. */
  ghost predicate AllSigned(u: Setup, signed: set<Vote>, voters: set<NodeId>, stage: string, rk: Str) {
    forall v :: v in voters && v in Honest(u) ==> SignedFor(signed, v, stage, rk)
  }

  /** The round of a pair that no receiver takes for another. */
  ghost predicate PairOk(evidence: string, target: NodeId, rk: Str) {
    !Misread(target) && rk == RoundKey(evidence, target)
  }

  ghost predicate PermitOk(u: Setup, signed: set<Vote>, t: Permit) {
    && PairOk(t.evidence, t.target, t.rk)
    && match t
       case MayPrepare(_, _, _, proposer, proposal) =>
         && (proposal == "PRE_PREPARE" || proposal == "BAN_PEER")
         && AllSigned(u, signed, {proposer}, proposal, t.rk)
       case MayCommit(_, _, _, prepared) =>
         && |prepared| >= Quorum(|u.ids|) && prepared <= u.ids
         && AllSigned(u, signed, prepared, "PREPARE", t.rk)
  }

  ghost predicate EngineOk(u: Setup, s: State) {
    Member(u, s) && Consistent(s) && Backed(s)
  }

  ghost predicate BallotOk(u: Setup, signed: set<Vote>, b: Ballot) {
    PairOk(b.m.evidence, b.m.target, b.rk) && AllSigned(u, signed, {b.m.sender}, b.m.stage, b.rk)
  }

  ghost predicate VotersOk(u: Setup, signed: set<Vote>, b: Ballots) {
    forall rk, stage :: AllSigned(u, signed, Voters(b, rk, stage), stage, rk)
  }

  ghost predicate NodeOk(u: Setup, signed: set<Vote>, node: Node) {
    && EngineOk(u, node.pbft)
    && VotersOk(u, signed, node.pbft.ballots)
    && (forall b :: b in node.verified ==> BallotOk(u, signed, b))
    && (forall t :: t in node.permits ==> PermitOk(u, signed, t))
  }

  ghost predicate VoteOk(nodes: map<NodeId, Node>, vote: Vote) {
    && vote.signer in nodes && SignedText(vote) && !Misread(vote.target)
    && (vote.stage == "PREPARE" ==> HasPrepared(nodes[vote.signer].permits, vote.evidence, vote.target))
    && (vote.stage == "COMMIT" ==> HasCommitted(nodes[vote.signer].permits, vote.evidence, vote.target))
  }

  ghost predicate NodesOk(u: Setup, signed: set<Vote>, nodes: map<NodeId, Node>) {
    nodes.Keys == Honest(u) && forall p :: p in nodes ==> NodeOk(u, signed, nodes[p])
  }

  ghost predicate VotesOk(nodes: map<NodeId, Node>, signed: set<Vote>) {
    forall vote :: vote in signed ==> VoteOk(nodes, vote)
  }

  ghost predicate NetOk(u: Setup, net: Net) {
    NodesOk(u, net.signed, net.nodes) && VotesOk(net.nodes, net.signed)
  }

  // ---------------------------------------------------------------- what one call adds

  lemma AdvanceVoters(s: State, m: Message, mh: Str, rk: Str, now: int, dropped: set<Str>, rk': Str, stage: string)
    ensures Voters(Advance(s, m, mh, rk, now, dropped).0.ballots, rk', stage)
         <= Voters(s.ballots, rk', stage) + if rk' == rk && stage == m.stage then {m.sender} else {}
  {
    if m.sender in s.members.keys && m.sender !in s.members.banned {
      var s1 := Swept(s, m.sender, now);
      CleanupVoters(s.ballots, now, rk', stage);
      if RateAdmits(s, m.sender, now) {
        AdmittedFrame(s1, m, mh, rk, now, dropped);
        CountVoteVoters(s1.ballots, Quorum(s.members.total), m, mh, rk, now, rk', stage);
      } else {
        EraseVoterVoters(s1.ballots, m.sender, rk', stage);
      }
    }
  }

  lemma CountVoteReports(b: Ballots, quorum: int, m: Message, mh: Str, rk: Str, now: int)
    ensures var (b', stage) := CountVote(b, quorum, m, mh, rk, now);
            && (stage == Prepare ==> m.stage == "PRE_PREPARE" || m.stage == "BAN_PEER")
            && (stage == Commit ==> m.stage == "PREPARE" && |Prepared(b', rk)| >= quorum)
  {
    var b1 := Insert(b, m, mh, rk, now);
    assert VotesAt(SetRound(b1, rk, RoundAt(b1, rk).(state := Commit)), rk) == VotesAt(b1, rk);
  }

  lemma AdvanceReports(s: State, m: Message, mh: Str, rk: Str, now: int, dropped: set<Str>)
    ensures var (s', stage) := Advance(s, m, mh, rk, now, dropped);
            && (stage == Prepare ==> m.stage == "PRE_PREPARE" || m.stage == "BAN_PEER")
            && (stage == Commit ==> m.stage == "PREPARE" && |Prepared(s'.ballots, rk)| >= Quorum(s.members.total))
  {
    if m.sender in s.members.keys && m.sender !in s.members.banned && RateAdmits(s, m.sender, now) {
      var s1 := Swept(s, m.sender, now);
      AdmittedFrame(s1, m, mh, rk, now, dropped);
      CountVoteReports(s1.ballots, Quorum(s.members.total), m, mh, rk, now);
    }
  }

  lemma LocalVoters(s: State, op: Op, rk: Str, stage: string)
    requires !op.AdvanceOp?
    ensures Voters(Step(s, op).ballots, rk, stage) <= Voters(s.ballots, rk, stage)
  {
    match op
    case PruneOp(id) => EraseVoterVoters(s.ballots, id, rk, stage);
    case VerifyOp(m, now) => EraseVoterVoters(s.ballots, m.sender, rk, stage);
    case _ =>
  }

  // ---------------------------------------------------------------- each step keeps the invariant

  lemma AllSignedSubset(u: Setup, signed: set<Vote>, voters: set<NodeId>, voters': set<NodeId>, stage: string, rk: Str)
    requires AllSigned(u, signed, voters, stage, rk) && voters' <= voters
    ensures AllSigned(u, signed, voters', stage, rk)
  {
  }

  lemma VerifiedKey(u: Setup, s: State, m: Message)
    requires SetupOk(u) && Member(u, s) && Verifies(s, m)
    ensures m.sender in u.ids && m.signature == Signed(u.keyOf[m.sender], Blob(m))
  {
  }

  /** Unless its target can be misread, a vote is the only text that a receiver accepts with its signature. */
  lemma SameBlobSameVote(vote: Vote, b: Ballot)
    requires SignedText(vote) && !Misread(vote.target) && BallotText(b) && Acceptable(b.m) && VoteBlob(vote) == Blob(b.m)
    ensures vote.stage == b.m.stage && vote.target == b.m.target && vote.evidence == b.m.evidence && vote.rk == b.rk
  {
    var m := b.m;
    BlobText(vote.stage, vote.target, vote.evidence, vote.seqNo, vote.view, vote.prevHash,
             m.stage, m.target, m.evidence, m.seqNo, m.view, m.prevHash);
    MisreadIff(vote.target, vote.evidence);
  }

  /** A receiver accepts some other target or evidence with the signature of a vote if and only if its target can be misread. */
  lemma ReadOtherwiseIff(vote: Vote)
    requires SignedText(vote) && Wire.StageKnown(vote.stage) && BarFree(vote.signer) && 0 < |vote.signer| <= Wire.MAX_ID
    ensures (exists m :: Acceptable(m) && Blob(m) == VoteBlob(vote) && (m.target != vote.target || m.evidence != vote.evidence))
       <==> Misread(vote.target)
  {
    forall m | Acceptable(m) && Blob(m) == VoteBlob(vote) && !Misread(vote.target)
      ensures m.target == vote.target && m.evidence == vote.evidence
    {
      SameBlobSameVote(vote, Ballot(m, MessageHash(m), RoundKey(m.evidence, m.target)));
    }
    if Misread(vote.target) {
      MisreadIff(vote.target, vote.evidence);
      var target, evidence :| Receivable(target, evidence) && (target != vote.target || evidence != vote.evidence)
                              && Joined(target, evidence) == Joined(vote.target, vote.evidence);
      var m := Message(vote.stage, vote.signer, target, evidence, NoSignature, vote.prevHash, vote.seqNo, vote.view);
      BlobText(vote.stage, vote.target, vote.evidence, vote.seqNo, vote.view, vote.prevHash,
               m.stage, m.target, m.evidence, m.seqNo, m.view, m.prevHash);
      assert Acceptable(m);
    }
  }

  /** An unforged message that carries an honest sender's signature is one that sender signed. */
  lemma UnforgedWasSigned(u: Setup, nodes: map<NodeId, Node>, signed: set<Vote>, b: Ballot)
    requires SetupOk(u) && VotesOk(nodes, signed) && b.m.sender in u.ids
    requires b.m.signature == Signed(u.keyOf[b.m.sender], Blob(b.m))
    requires BallotText(b) && Acceptable(b.m) && Unforged(u, signed, b.m)
    ensures BallotOk(u, signed, b)
  {
    BarFreeRead(b.m.target);
    if b.m.sender in Honest(u) {
      assert Made(signed, b.m.sender, b.m.signature.blob);
      var vote :| vote in signed && vote.signer == b.m.sender && VoteBlob(vote) == b.m.signature.blob;
      assert VoteOk(nodes, vote);
      SameBlobSameVote(vote, b);
      assert SignedFor(signed, b.m.sender, b.m.stage, b.rk);
    }
  }

  lemma HandedBackWasSigned(u: Setup, nodes: map<NodeId, Node>, signed: set<Vote>, p: NodeId, b: Ballot)
    requires VotesOk(nodes, signed) && BallotText(b) && HandedBack(signed, p, b.m)
    ensures BallotOk(u, signed, b)
  {
    var vote :| vote in signed && SameText(b.m, vote);
    assert VoteOk(nodes, vote);
    assert SignedFor(signed, b.m.sender, b.m.stage, b.rk);
  }

  /** A step that adds no voter keeps the engine and its voters fine. */
  lemma QuietStepOk(u: Setup, signed: set<Vote>, s: State, op: Op)
    requires EngineOk(u, s) && VotersOk(u, signed, s.ballots) && !op.AdvanceOp? && Member(u, Step(s, op))
    ensures EngineOk(u, Step(s, op)) && VotersOk(u, signed, Step(s, op).ballots)
  {
    StepConsistent(s, op);
    StepBacked(s, op);
    forall rk, stage ensures AllSigned(u, signed, Voters(Step(s, op).ballots, rk, stage), stage, rk) {
      LocalVoters(s, op, rk, stage);
      AllSignedSubset(u, signed, Voters(s.ballots, rk, stage), Voters(Step(s, op).ballots, rk, stage), stage, rk);
    }
  }

  lemma CountedVotersOk(u: Setup, signed: set<Vote>, s: State, b: Ballot, now: int, dropped: set<Str>)
    requires VotersOk(u, signed, s.ballots) && BallotOk(u, signed, b)
    ensures VotersOk(u, signed, BallotAdvance(s, b, now, dropped).0.ballots)
  {
    var b' := BallotAdvance(s, b, now, dropped).0.ballots;
    forall rk', stage ensures AllSigned(u, signed, Voters(b', rk', stage), stage, rk') {
      AdvanceVoters(s, b.m, b.mh, b.rk, now, dropped, rk', stage);
      assert AllSigned(u, signed, Voters(s.ballots, rk', stage), stage, rk');
    }
  }

  lemma CountPermitOk(u: Setup, signed: set<Vote>, s: State, b: Ballot, now: int, dropped: set<Str>, t: Permit)
    requires EngineOk(u, s) && VotersOk(u, signed, s.ballots) && BallotOk(u, signed, b)
    requires Member(u, BallotAdvance(s, b, now, dropped).0)
    requires t in Permits(b, BallotAdvance(s, b, now, dropped).1, BallotAdvance(s, b, now, dropped).0.ballots)
    ensures PermitOk(u, signed, t)
  {
    AdvanceReports(s, b.m, b.mh, b.rk, now, dropped);
    AdvanceConsistent(s, b.m, b.mh, b.rk, now, dropped);
    CountedVotersOk(u, signed, s, b, now, dropped);
    var b' := BallotAdvance(s, b, now, dropped).0.ballots;
    assert AllSigned(u, signed, Voters(b', b.rk, "PREPARE"), "PREPARE", b.rk);
  }

  lemma CountNodeOk(u: Setup, signed: set<Vote>, node: Node, b: Ballot, now: int, dropped: set<Str>)
    requires NodeOk(u, signed, node) && b in node.verified && Member(u, BallotAdvance(node.pbft, b, now, dropped).0)
    ensures NodeOk(u, signed, Counted(node, b, now, dropped))
  {
    assert BallotOk(u, signed, b);
    AdvanceConsistent(node.pbft, b.m, b.mh, b.rk, now, dropped);
    AdvanceBacked(node.pbft, b.m, b.mh, b.rk, now, dropped);
    CountedVotersOk(u, signed, node.pbft, b, now, dropped);
    var (s', stage) := BallotAdvance(node.pbft, b, now, dropped);
    forall t | t in Permits(b, stage, s'.ballots) ensures PermitOk(u, signed, t) {
      CountPermitOk(u, signed, node.pbft, b, now, dropped, t);
    }
  }

  lemma ReceiveNodeOk(u: Setup, net: Net, p: NodeId, b: Ballot, now: int)
    requires SetupOk(u) && VotesOk(net.nodes, net.signed) && p in net.nodes && NodeOk(u, net.signed, net.nodes[p])
    requires BallotText(b) && (FromWire(u, net.signed, p, b.m) || HandedBack(net.signed, p, b.m))
    requires Member(u, Verify(net.nodes[p].pbft, b.m, now))
    ensures NodeOk(u, net.signed, Received(net.nodes[p], b, now))
  {
    var node := net.nodes[p];
    QuietStepOk(u, net.signed, node.pbft, VerifyOp(b.m, now));
    if Verifies(node.pbft, b.m) {
      VerifiedKey(u, node.pbft, b.m);
      if FromWire(u, net.signed, p, b.m) {
        UnforgedWasSigned(u, net.nodes, net.signed, b);
      } else {
        HandedBackWasSigned(u, net.nodes, net.signed, p, b);
      }
    }
  }

  lemma VoteOkReplace(nodes: map<NodeId, Node>, p: NodeId, node: Node, vote: Vote)
    requires VoteOk(nodes, vote) && p in nodes && nodes[p].permits <= node.permits
    ensures VoteOk(nodes[p := node], vote)
  {
  }

  lemma ReplaceOne<V>(m: map<NodeId, V>, ok: V -> bool, p: NodeId, v: V)
    requires p in m && ok(v) && forall q :: q in m ==> ok(m[q])
    ensures var m' := m[p := v];
            m'.Keys == m.Keys && forall q :: q in m' ==> ok(m'[q])
  {
  }

  lemma NodesOkReplace(u: Setup, signed: set<Vote>, nodes: map<NodeId, Node>, p: NodeId, node: Node)
    requires NodesOk(u, signed, nodes) && p in nodes && NodeOk(u, signed, node)
    ensures NodesOk(u, signed, nodes[p := node])
  {
    ReplaceOne(nodes, (n: Node) => NodeOk(u, signed, n), p, node);
  }

  lemma VotesOkReplace(nodes: map<NodeId, Node>, signed: set<Vote>, p: NodeId, node: Node)
    requires VotesOk(nodes, signed) && p in nodes && nodes[p].permits <= node.permits
    ensures VotesOk(nodes[p := node], signed)
  {
    forall vote | vote in signed ensures VoteOk(nodes[p := node], vote) {
      VoteOkReplace(nodes, p, node, vote);
    }
  }

  /** Replacing one node by a fine one with at least its permits keeps the whole net fine. */
  lemma ReplaceNode(u: Setup, net: Net, p: NodeId, node: Node)
    requires NetOk(u, net) && p in net.nodes && NodeOk(u, net.signed, node)
    requires net.nodes[p].permits <= node.permits
    ensures NetOk(u, net.(nodes := net.nodes[p := node]))
  {
    NodesOkReplace(u, net.signed, net.nodes, p, node);
    VotesOkReplace(net.nodes, net.signed, p, node);
  }

  lemma AllSignedGrows(u: Setup, signed: set<Vote>, signed': set<Vote>, voters: set<NodeId>, stage: string, rk: Str)
    requires AllSigned(u, signed, voters, stage, rk) && signed <= signed'
    ensures AllSigned(u, signed', voters, stage, rk)
  {
  }

  lemma PermitOkGrows(u: Setup, signed: set<Vote>, signed': set<Vote>, t: Permit)
    requires PermitOk(u, signed, t) && signed <= signed'
    ensures PermitOk(u, signed', t)
  {
    match t
    case MayPrepare(_, _, _, proposer, proposal) => AllSignedGrows(u, signed, signed', {proposer}, proposal, t.rk);
    case MayCommit(_, _, _, prepared) => AllSignedGrows(u, signed, signed', prepared, "PREPARE", t.rk);
  }

  lemma NodeOkGrows(u: Setup, signed: set<Vote>, signed': set<Vote>, node: Node)
    requires NodeOk(u, signed, node) && signed <= signed'
    ensures NodeOk(u, signed', node)
  {
    forall b | b in node.verified ensures BallotOk(u, signed', b) {
      AllSignedGrows(u, signed, signed', {b.m.sender}, b.m.stage, b.rk);
    }
    forall rk, stage ensures AllSigned(u, signed', Voters(node.pbft.ballots, rk, stage), stage, rk) {
      AllSignedGrows(u, signed, signed', Voters(node.pbft.ballots, rk, stage), stage, rk);
    }
    forall t | t in node.permits ensures PermitOk(u, signed', t) {
      PermitOkGrows(u, signed, signed', t);
    }
  }

  /** A later vote has the target of a counted one; so only proposals can bring in a target to be misread. */
  lemma PermittedVoteOk(u: Setup, signed: set<Vote>, nodes: map<NodeId, Node>, vote: Vote)
    requires vote.signer in nodes && NodeOk(u, signed, nodes[vote.signer]) && MaySend(nodes[vote.signer].permits, vote)
    requires vote.stage == "PRE_PREPARE" ==> !Misread(vote.target)
    ensures VoteOk(nodes, vote)
  {
    if vote.stage != "PRE_PREPARE" {
      var t :| t in nodes[vote.signer].permits && t.target == vote.target;
      assert PermitOk(u, signed, t);
    }
  }

  lemma NodesOkGrow(u: Setup, signed: set<Vote>, signed': set<Vote>, nodes: map<NodeId, Node>)
    requires NodesOk(u, signed, nodes) && signed <= signed'
    ensures NodesOk(u, signed', nodes)
  {
    forall q | q in nodes ensures NodeOk(u, signed', nodes[q]) {
      NodeOkGrows(u, signed, signed', nodes[q]);
    }
  }

  /** No honest node proposed a target that can be misread. */
  ghost predicate ProposalsRead(signed: set<Vote>) {
    forall vote :: vote in signed && vote.stage == "PRE_PREPARE" ==> !Misread(vote.target)
  }

  lemma VotesOkGrow(nodes: map<NodeId, Node>, signed: set<Vote>, vote: Vote)
    requires VotesOk(nodes, signed) && VoteOk(nodes, vote)
    ensures VotesOk(nodes, signed + {vote})
  {
  }

  lemma ProposalsReadLast(signed: set<Vote>, vote: Vote)
    requires ProposalsRead(signed + {vote})
    ensures vote.stage == "PRE_PREPARE" ==> !Misread(vote.target)
  {
    assert vote in signed + {vote};
  }

  lemma BroadcastOk(u: Setup, net: Net, p: NodeId, vote: Vote)
    requires NetOk(u, net) && Enabled(u, net, Broadcast(p, vote)) && ProposalsRead(Next(net, Broadcast(p, vote)).signed)
    ensures NetOk(u, Next(net, Broadcast(p, vote)))
  {
    ProposalsReadLast(net.signed, vote);
    PermittedVoteOk(u, net.signed, net.nodes, vote);
    VotesOkGrow(net.nodes, net.signed, vote);
    NodesOkGrow(u, net.signed, net.signed + {vote}, net.nodes);
  }

  lemma ReceiveOk(u: Setup, net: Net, p: NodeId, b: Ballot, now: int)
    requires SetupOk(u) && NetOk(u, net) && Happens(u, net, Receive(p, b, now))
    ensures NetOk(u, Next(net, Receive(p, b, now)))
  {
    ReceiveNodeOk(u, net, p, b, now);
    ReplaceNode(u, net, p, Received(net.nodes[p], b, now));
  }

  lemma CountOk(u: Setup, net: Net, p: NodeId, b: Ballot, now: int, dropped: set<Str>)
    requires NetOk(u, net) && Happens(u, net, Count(p, b, now, dropped))
    ensures NetOk(u, Next(net, Count(p, b, now, dropped)))
  {
    CountNodeOk(u, net.signed, net.nodes[p], b, now, dropped);
    ReplaceNode(u, net, p, Counted(net.nodes[p], b, now, dropped));
  }

  lemma ReplaceEngine(u: Setup, net: Net, p: NodeId, s: State)
    requires NetOk(u, net) && p in net.nodes && EngineOk(u, s) && VotersOk(u, net.signed, s.ballots)
    ensures NetOk(u, net.(nodes := net.nodes[p := net.nodes[p].(pbft := s)]))
  {
    assert NodeOk(u, net.signed, net.nodes[p]);
    ReplaceNode(u, net, p, net.nodes[p].(pbft := s));
  }

  lemma LocalStep(u: Setup, net: Net, p: NodeId, op: Op) returns (s: State)
    requires NetOk(u, net) && Happens(u, net, Local(p, op))
    ensures EngineOk(u, s) && VotersOk(u, net.signed, s.ballots)
    ensures Next(net, Local(p, op)) == net.(nodes := net.nodes[p := net.nodes[p].(pbft := s)])
  {
    s := Step(net.nodes[p].pbft, op);
    assert NodeOk(u, net.signed, net.nodes[p]);
    QuietStepOk(u, net.signed, net.nodes[p].pbft, op);
  }

  lemma LocalOk(u: Setup, net: Net, p: NodeId, op: Op)
    requires NetOk(u, net) && Happens(u, net, Local(p, op))
    ensures NetOk(u, Next(net, Local(p, op)))
  {
    var s := LocalStep(u, net, p, op);
    ReplaceEngine(u, net, p, s);
  }

  lemma QuietOk(u: Setup, net: Net, a: Action)
    requires SetupOk(u) && NetOk(u, net) && Happens(u, net, a) && !a.Broadcast?
    ensures NetOk(u, Next(net, a))
  {
    match a
    case Receive(p, b, now) => ReceiveOk(u, net, p, b, now);
    case Count(p, b, now, dropped) => CountOk(u, net, p, b, now, dropped);
    case Local(p, op) => LocalOk(u, net, p, op);
  }

  lemma StepOk(u: Setup, net: Net, a: Action)
    requires SetupOk(u) && NetOk(u, net) && Happens(u, net, a) && ProposalsRead(Next(net, a).signed)
    ensures NetOk(u, Next(net, a))
  {
    if a.Broadcast? { BroadcastOk(u, net, a.p, a.vote); } else { QuietOk(u, net, a); }
  }

  lemma InitialOk(u: Setup, net: Net)
    requires SetupOk(u) && Initial(u, net)
    ensures NetOk(u, net)
  {
    forall p | p in net.nodes ensures NodeOk(u, net.signed, net.nodes[p]) {
      var b := net.nodes[p].pbft.ballots;
      assert forall rk, stage :: Voters(b, rk, stage) == {};
      assert forall rk :: RoundBacked(b, Quorum(|u.ids|), rk);
    }
  }

  lemma SignedGrows(net: Net, a: Action)
    requires a.p in net.nodes
    ensures net.signed <= Next(net, a).signed
  {
  }

  /** The invariant holds in every reachable state in which nobody has proposed a target that can be misread. */
  lemma ReachesOk(u: Setup, start: Net, actions: seq<Action>, net: Net)
    requires SetupOk(u) && Initial(u, start) && Reaches(u, start, actions, net) && ProposalsRead(net.signed)
    ensures NetOk(u, net)
  {
    var step, inv := Steps(u), (n: Net) => ProposalsRead(n.signed) ==> NetOk(u, n);
    forall n, a, n' | inv(n) && step(n, a, n') ensures inv(n') {
      SignedGrows(n, a);
      if ProposalsRead(n'.signed) { StepOk(u, n, a); }
    }
    InitialOk(u, start);
    PathKeeps(step, inv, start, actions, net);
  }

  // ---------------------------------------------------------------- safety

  /** A PREPARE quorum that advance_state showed, of which every honest member signed PREPARE for the round. */
  ghost predicate ShownQuorum(u: Setup, net: Net, t: Permit, rk: Str) {
    && t.MayCommit? && t.rk == rk && t.prepared <= u.ids && |t.prepared| >= Quorum(|u.ids|)
    && AllSigned(u, net.signed, t.prepared, "PREPARE", rk)
  }

  /** A proposal that advance_state counted, signed by its proposer if that one is honest. */
  ghost predicate ShownProposal(u: Setup, net: Net, t: Permit, rk: Str) {
    && t.MayPrepare? && t.rk == rk && (t.proposal == "PRE_PREPARE" || t.proposal == "BAN_PEER")
    && AllSigned(u, net.signed, {t.proposer}, t.proposal, rk)
  }

  /** v broadcast COMMIT for the round after advance_state showed it a PREPARE quorum. */
  ghost predicate Committer(u: Setup, net: Net, v: NodeId, rk: Str) {
    && v in net.nodes && SignedFor(net.signed, v, "COMMIT", rk)
    && exists t :: t in net.nodes[v].permits && ShownQuorum(u, net, t, rk)
  }

  /** v broadcast PREPARE for the round after advance_state counted a proposal for it. */
  ghost predicate Preparer(u: Setup, net: Net, v: NodeId, rk: Str) {
    && v in net.nodes && SignedFor(net.signed, v, "PREPARE", rk)
    && exists t :: t in net.nodes[v].permits && ShownProposal(u, net, t, rk)
  }

  ghost predicate ExecutedAt(net: Net, p: NodeId, rk: Str) {
    p in net.nodes && rk in net.nodes[p].pbft.ballots.rounds && net.nodes[p].pbft.ballots.rounds[rk].state == Executed
  }

  ghost function Committers(u: Setup, net: Net, rk: Str): set<NodeId> { set v | v in u.ids && Committer(u, net, v, rk) }
  ghost function Preparers(u: Setup, net: Net, rk: Str): set<NodeId> { set v | v in u.ids && Preparer(u, net, v, rk) }

  lemma SignersHavePermits(u: Setup, net: Net, v: NodeId, rk: Str)
    requires v in net.nodes && NodeOk(u, net.signed, net.nodes[v]) && VotesOk(net.nodes, net.signed)
    requires SignedFor(net.signed, v, "COMMIT", rk) && SignedFor(net.signed, v, "PREPARE", rk)
    ensures Committer(u, net, v, rk) && Preparer(u, net, v, rk)
  {
    var c :| c in net.signed && c.signer == v && c.stage == "COMMIT" && c.rk == rk;
    assert VoteOk(net.nodes, c);
    var t :| t in net.nodes[v].permits && t.MayCommit? && t.evidence == c.evidence && t.target == c.target;
    assert PermitOk(u, net.signed, t);
    assert ShownQuorum(u, net, t, rk);
    var w :| w in net.signed && w.signer == v && w.stage == "PREPARE" && w.rk == rk;
    assert VoteOk(net.nodes, w);
    var t' :| t' in net.nodes[v].permits && t'.MayPrepare? && t'.evidence == w.evidence && t'.target == w.target;
    assert PermitOk(u, net.signed, t');
    assert ShownProposal(u, net, t', rk);
  }

  lemma ExecutedVoters(u: Setup, signed: set<Vote>, s: State, rk: Str)
    requires EngineOk(u, s) && VotersOk(u, signed, s.ballots)
    requires rk in s.ballots.rounds && s.ballots.rounds[rk].state == Executed
    ensures var quorum := PreparedAndCommitted(s.ballots, rk);
            && quorum <= u.ids && |quorum| >= Quorum(|u.ids|)
            && AllSigned(u, signed, quorum, "COMMIT", rk) && AllSigned(u, signed, quorum, "PREPARE", rk)
  {
    assert RoundBacked(s.ballots, Quorum(|u.ids|), rk);
    assert AllSigned(u, signed, Voters(s.ballots, rk, "COMMIT"), "COMMIT", rk);
    assert AllSigned(u, signed, Voters(s.ballots, rk, "PREPARE"), "PREPARE", rk);
  }

  /** The quorum behind an execution: its honest members all prepared and committed. */
  lemma ExecutionQuorum(u: Setup, net: Net, p: NodeId, rk: Str) returns (quorum: set<NodeId>)
    requires NetOk(u, net) && ExecutedAt(net, p, rk)
    ensures quorum <= u.ids && |quorum| >= Quorum(|u.ids|)
    ensures forall v :: v in quorum - u.faulty ==> Committer(u, net, v, rk) && Preparer(u, net, v, rk)
  {
    ExecutedVoters(u, net.signed, net.nodes[p].pbft, rk);
    quorum := PreparedAndCommitted(net.nodes[p].pbft.ballots, rk);
    forall v | v in quorum - u.faulty ensures Committer(u, net, v, rk) && Preparer(u, net, v, rk) {
      SignersHavePermits(u, net, v, rk);
    }
  }

  lemma NetOkBacks(u: Setup, net: Net, p: NodeId, rk: Str)
    requires SetupOk(u) && NetOk(u, net) && ExecutedAt(net, p, rk)
    ensures Committers(u, net, rk) <= Honest(u) && |Committers(u, net, rk)| >= MaxFaulty(|u.ids|) + 1
    ensures Preparers(u, net, rk) <= Honest(u) && |Preparers(u, net, rk)| >= MaxFaulty(|u.ids|) + 1
  {
    var quorum := ExecutionQuorum(u, net, p, rk);
    QuorumHonest(quorum, u.faulty, |u.ids|);
    SubsetSize(quorum - u.faulty, Committers(u, net, rk));
    SubsetSize(quorum - u.faulty, Preparers(u, net, rk));
  }

  /** The honest part of a quorum, all committers. */
  lemma CommitQuorum(u: Setup, net: Net, p: NodeId, rk: Str) returns (quorum: set<NodeId>)
    requires NetOk(u, net) && ExecutedAt(net, p, rk)
    ensures quorum <= u.ids && |quorum| >= Quorum(|u.ids|) && quorum - u.faulty <= Committers(u, net, rk)
  {
    quorum := ExecutionQuorum(u, net, p, rk);
  }

  lemma QuorumsShare(u: Setup, quorum: set<NodeId>, quorum': set<NodeId>, cs: set<NodeId>, cs': set<NodeId>) returns (v: NodeId)
    requires SetupOk(u) && |u.ids| % 3 == 1
    requires quorum <= u.ids && |quorum| >= Quorum(|u.ids|) && quorum - u.faulty <= cs
    requires quorum' <= u.ids && |quorum'| >= Quorum(|u.ids|) && quorum' - u.faulty <= cs'
    ensures v in Honest(u) && v in cs && v in cs'
  {
    v := QuorumsShareHonest(quorum, quorum', u.faulty, u.ids);
    assert v in quorum - u.faulty && v in quorum' - u.faulty;
  }

  /**
   Safety. In every reachable state, if an honest node has a round in EXECUTED, then at least f+1 honest
   nodes broadcast COMMIT for that round after a PREPARE quorum, and at least f+1 honest nodes broadcast
   PREPARE for it after a PRE_PREPARE or BAN_PEER; provided that no honest node proposed a target that can
   be misread.
   */
  lemma ExecutedIsBacked(u: Setup, start: Net, actions: seq<Action>, net: Net, p: NodeId, rk: Str)
    requires SetupOk(u) && Initial(u, start) && Reaches(u, start, actions, net) && ProposalsRead(net.signed)
    requires ExecutedAt(net, p, rk)
    ensures Committers(u, net, rk) <= Honest(u) && |Committers(u, net, rk)| >= MaxFaulty(|u.ids|) + 1
    ensures Preparers(u, net, rk) <= Honest(u) && |Preparers(u, net, rk)| >= MaxFaulty(|u.ids|) + 1
  {
    ReachesOk(u, start, actions, net);
    NetOkBacks(u, net, p, rk);
  }

  /** With n = 3f+1, two executions at honest nodes, of one round or of two, have an honest committer in common. */
  lemma ExecutionsShareCommitter(u: Setup, start: Net, actions: seq<Action>, net: Net,
                                 p: NodeId, rk: Str, p': NodeId, rk': Str) returns (v: NodeId)
    requires SetupOk(u) && |u.ids| % 3 == 1 && Initial(u, start) && Reaches(u, start, actions, net)
    requires ProposalsRead(net.signed) && ExecutedAt(net, p, rk) && ExecutedAt(net, p', rk')
    ensures v in Honest(u) && Committer(u, net, v, rk) && Committer(u, net, v, rk')
  {
    ReachesOk(u, start, actions, net);
    var quorum := CommitQuorum(u, net, p, rk);
    var quorum' := CommitQuorum(u, net, p', rk');
    v := QuorumsShare(u, quorum, quorum', Committers(u, net, rk), Committers(u, net, rk'));
  }

  lemma StepSignedText(u: Setup, net: Net, a: Action)
    requires Happens(u, net, a) && forall vote :: vote in net.signed ==> SignedText(vote)
    ensures forall vote :: vote in Next(net, a).signed ==> SignedText(vote)
  {
  }

  /** In every run, a vote signed for the round of a pair is for that pair exactly if the two targets are not confusable. */
  lemma VoteNamesRoundIff(u: Setup, start: Net, actions: seq<Action>, net: Net, vote: Vote, evidence: string, target: NodeId)
    requires Initial(u, start) && Reaches(u, start, actions, net)
    requires vote in net.signed && vote.rk == RoundKey(evidence, target)
    ensures vote.evidence == evidence && vote.target == target <==> !Confusable(vote.target, target)
  {
    var step, inv := Steps(u), (n: Net) => forall vote :: vote in n.signed ==> SignedText(vote);
    forall n, a, n' | inv(n) && step(n, a, n') ensures inv(n') {
      StepSignedText(u, n, a);
    }
    PathKeeps(step, inv, start, actions, net);
    assert SignedText(vote);
    RoundKeySameIff(vote.evidence, vote.target, evidence, target);
  }
}
