/**
 The signed text joins target and evidence with a bar, so the text of one proposal may be read as another
 one. Safety holds exactly for the targets with which that cannot happen.
 */
module Misreading {
  import opened Delimited
  import opened Decimal
  import opened Symbolic
  import opened Pbft
  import opened PbftText
  import opened Quorums
  import opened Network
  import opened RunExists

  ghost predicate ProposedAmong(signed: set<Vote>, targets: iset<NodeId>) {
    forall vote :: vote in signed && vote.stage == "PRE_PREPARE" ==> vote.target in targets
  }

  /** The conclusion of the safety theorem. */
  ghost predicate WellBacked(u: Setup, net: Net, rk: Str) {
    |Committers(u, net, rk)| >= MaxFaulty(|u.ids|) + 1 && |Preparers(u, net, rk)| >= MaxFaulty(|u.ids|) + 1
  }

  /** In every run in which honest nodes propose these targets only, every execution is well backed. */
  ghost predicate Safe(u: Setup, targets: iset<NodeId>) {
    forall start, actions, net, p, rk ::
      (Initial(u, start) && Reaches(u, start, actions, net) && ProposedAmong(net.signed, targets) && ExecutedAt(net, p, rk))
        ==> WellBacked(u, net, rk)
  }

  /** Evidence with which the two readings are two rounds. */
  lemma ApartEvidence(target: NodeId, i: int) returns (evidence: string, target': NodeId, evidence': string)
    requires MisreadAt(target, i)
    ensures Opens(evidence) && Receivable(target', evidence') && Joined(target', evidence') == Joined(target, evidence)
    ensures RoundKey(evidence, target) != RoundKey(evidence', target')
  {
    var rest := target[i + 1..];
    evidence := if |rest| > 1 && rest[1] == '}' then "{ }" else "{}";
    target', evidence' := MisreadTexts(target, evidence, i);
    RoundKeyText(evidence, target, evidence', target');
    assert (evidence + "|" + target)[1] == evidence[1];
    assert (evidence' + "|" + target')[1] == (rest + "|" + evidence)[1] == if |rest| > 1 then rest[1] else '|';
  }

  lemma TwoHonest(u: Setup) returns (p: NodeId, q: NodeId)
    requires SetupOk(u) && |u.ids| >= 2
    ensures p in Honest(u) && q in Honest(u) && p != q
  {
    var hs := Honest(u);
    assert u.ids == hs + u.faulty;
    MinusSize(u.ids, u.faulty);
    var pair := Part(hs, 2);
    assert pair != {};
    p :| p in pair;
    assert |pair - {p}| == 1;
    assert pair - {p} != {};
    q :| q in pair - {p};
  }

  lemma QuorumWithout(u: Setup, p: NodeId) returns (qs: set<NodeId>)
    requires SetupOk(u) && |u.ids| >= 2 && p in u.ids
    ensures qs <= u.ids - {p} && |qs| == Quorum(|u.ids|)
  {
    assert |u.ids - {p}| == |u.ids| - 1;
    qs := Part(u.ids - {p}, Quorum(|u.ids|));
  }

  // ---------------------------------------------------------------- a proposer who is misread

  /** The proposer signs one pair, the receivers read another one, and these are two rounds. */
  ghost predicate Twisted(c: Scene) {
    var a := c.proposal;
    && SceneOk(c) && a.signer in Honest(c.u) && a.signer !in c.rs
    && a == Vote(a.signer, "PRE_PREPARE", a.target, a.evidence, 1, 0, Genesis(), RoundKey(a.evidence, a.target))
    && Joined(a.target, a.evidence) == Joined(c.v.target, c.v.evidence) && a.rk != Rk(c.v)
  }

  lemma SameBlob(c: Scene, stage: string, seqNo: U64, prev: Str)
    requires Twisted(c) && BarFree(stage) && Free(BAR, prev)
    ensures SigningBlob(stage, c.proposal.target, c.proposal.evidence, seqNo, 0, prev) == Read(c, stage, prev, seqNo)
  {
    BlobText(stage, c.proposal.target, c.proposal.evidence, seqNo, 0, prev, stage, c.v.target, c.v.evidence, seqNo, 0, prev);
  }

  lemma TwistedProposal(c: Scene)
    requires Twisted(c)
    ensures ProposalOk(c)
  {
    assert BarFree("PRE_PREPARE") && Free(BAR, Genesis());
    SameBlob(c, "PRE_PREPARE", 1, Genesis());
  }

  /** The proposal as the proposer itself counts it. */
  function OwnBallot(c: Scene): Ballot {
    var a := c.proposal;
    var m := Message(a.stage, a.signer, a.target, a.evidence, Signed(KeyOf(c.u, a.signer), VoteBlob(a)), a.prevHash, a.seqNo, a.view);
    Ballot(m, MessageHash(m), a.rk)
  }

  lemma OwnBallotCounts(c: Scene) returns (b: Ballots)
    requires Twisted(c)
    ensures var o := OwnBallot(c); CountVote(NOTHING.b, Quorum(|c.u.ids|), o.m, o.mh, o.rk, 0) == (b, Prepare)
  {
    var o := OwnBallot(c);
    var quorum := Quorum(|c.u.ids|);
    CountAt(NOTHING.b, o.rk, Idle, map[], o.m, o.mh, quorum);
    b := CountVote(NOTHING.b, quorum, o.m, o.mh, o.rk, 0).0;
  }

  /** Its own engine lets the proposer prepare the pair it signed. */
  lemma OwnProposalCounted(c: Scene, net: Net) returns (net': Net, b: Ballots, k: Memory)
    requires Twisted(c) && net.nodes == StartNet(c.u).nodes && net.signed == {c.proposal}
    ensures Runs(c.u, net, net') && Changed(c.u, net, net', c.proposal.signer, k, Permits(OwnBallot(c), Prepare, b))
  {
    var p, o := c.proposal.signer, OwnBallot(c);
    StartConsistent(c.u, p);
    assert SameText(o.m, c.proposal);
    assert HandedBack(net.signed, p, o.m);
    var mid := ReceiveProper(c.u, net, p, NOTHING, o);
    b := OwnBallotCounts(c);
    net' := CountTracked(c.u, mid, p, NOTHING, o, b, Prepare);
    k := Next1(NOTHING, o.m, o.mh, b);
    RunsOn(c.u, net, mid, net');
    ChangedOn(c.u, net, mid, net', p, NOTHING, k, Permits(o, Prepare, b));
  }

  /** The hash of the proposal is the same, however the text is cut. */
  lemma SameHash(c: Scene)
    requires Twisted(c)
    ensures OwnBallot(c).mh == ProposalHash(c)
  {
    var m, m' := OwnBallot(c).m, MessageFor(c.u, c.v, c.proposal.signer, "PRE_PREPARE", Genesis(), 1);
    var rest := Genesis() + [BAR] + (Lift(Print(1)) + [BAR] + Lift(PrintInt(0)));
    JoinedText(m.target, m.evidence, rest);
    JoinedText(m'.target, m'.evidence, rest);
    assert HashInput(m) == HashInput(m');
  }

  /** What the proposer signs next, chained from its proposal. */
  function OwnPrepare(c: Scene): Vote {
    var a := c.proposal;
    Vote(a.signer, "PREPARE", a.target, a.evidence, 2, 0, OwnBallot(c).mh, a.rk)
  }

  lemma OwnPrepareAllowed(c: Scene, b: Ballots)
    requires Twisted(c)
    ensures MaySend(Permits(OwnBallot(c), Prepare, b), OwnPrepare(c)) && Led(Permits(OwnBallot(c), Prepare, b), c.v, c.proposal.signer)
  {
    var o := OwnBallot(c);
    assert MayPrepare(o.rk, o.m.evidence, o.m.target, o.m.sender, o.m.stage) in Permits(o, Prepare, b);
    assert BarFree("PREPARE");
  }

  /** The proposal signed and counted by its proposer, and no receiver touched. */
  ghost predicate Ready(c: Scene, net: Net)
    requires c.u.keyOf.Keys == c.u.ids
  {
    && c.proposal.signer in net.nodes && net.nodes.Keys == Honest(c.u) && net.signed == {c.proposal}
    && (forall q :: q in net.nodes && q != c.proposal.signer ==> q in Honest(c.u) && net.nodes[q] == StartNet(c.u).nodes[q])
    && var node := net.nodes[c.proposal.signer];
       Member(c.u, node.pbft) && MaySend(node.permits, OwnPrepare(c)) && Led(node.permits, c.v, c.proposal.signer)
  }

  lemma ChangedReady(c: Scene, net: Net, net': Net, b: Ballots, k: Memory)
    requires Twisted(c) && net.nodes == StartNet(c.u).nodes && net.signed == {c.proposal}
    requires Changed(c.u, net, net', c.proposal.signer, k, Permits(OwnBallot(c), Prepare, b))
    ensures Ready(c, net')
  {
    OwnPrepareAllowed(c, b);
    TracksMember(c.u, net'.nodes[c.proposal.signer].pbft, k);
    assert net'.nodes[c.proposal.signer].permits == Permits(OwnBallot(c), Prepare, b);
  }

  lemma ProposerReady(c: Scene) returns (net: Net)
    requires Twisted(c)
    ensures Runs(c.u, StartNet(c.u), net) && Ready(c, net)
  {
    TwistedProposal(c);
    var one := ProposalSigned(c);
    var b, k;
    net, b, k := OwnProposalCounted(c, one);
    RunsOn(c.u, StartNet(c.u), one, net);
    ChangedReady(c, one, net, b, k);
  }

  /** Proposal and PREPARE signed. */
  lemma BothSigned(c: Scene) returns (net: Net)
    requires Twisted(c)
    ensures Runs(c.u, StartNet(c.u), net) && Together(c, net, NOTHING, Idle, map[]) && net.signed == {c.proposal, OwnPrepare(c)}
  {
    var mid := ProposerReady(c);
    net := BroadcastTracked(c.u, mid, c.proposal.signer, OwnPrepare(c));
    RunsOn(c.u, StartNet(c.u), mid, net);
    StartTogether(c);
    SignedBoth(c, net);
  }

  lemma SignedBoth(c: Scene, net: Net)
    requires Twisted(c) && Together(c, StartNet(c.u), NOTHING, Idle, map[])
    requires net.signed == {c.proposal, OwnPrepare(c)} && net.nodes.Keys == Honest(c.u)
    requires forall q :: q in net.nodes && q != c.proposal.signer ==> net.nodes[q] == StartNet(c.u).nodes[q]
    requires Led(net.nodes[c.proposal.signer].permits, c.v, c.proposal.signer)
    ensures Together(c, net, NOTHING, Idle, map[])
  {
  }

  lemma SentPrepare(c: Scene, signed: set<Vote>, k: Memory)
    requires Twisted(c) && OwnPrepare(c) in signed && Tidy(k, c.proposal.signer)
    requires |T(k, c.proposal.signer)| == 1 && Last(k, c.proposal.signer) == ProposalHash(c)
    ensures Sent(c.u, c.rs, signed, NextBallot(c.u, c.v, k, c.proposal.signer, "PREPARE").m)
  {
    SameHash(c);
    assert BarFree("PREPARE");
    LastFree(k, c.proposal.signer);
    SameBlob(c, "PREPARE", 2, ProposalHash(c));
    SentFor(c.u, c.rs, signed, NextBallot(c.u, c.v, k, c.proposal.signer, "PREPARE").m, OwnPrepare(c));
  }

  /** The receivers count both votes, as they read them. */
  lemma TwistedOpening(c: Scene)
    requires Twisted(c)
    ensures Gets(c, StartNet(c.u), PreparedFirst(c))
  {
    TwistedProposal(c);
    var p := c.proposal.signer;
    var one := BothSigned(c);
    var two, k := ProposalCounted(c, one);
    FirstDue(c, two, k);
    SentPrepare(c, two.signed, k);
    var three, k', next := CountAll(c, two, k, Proposed(c).state, Proposed(c).w, p, "PREPARE");
    MayStill(c, two, three, Proposed(c));
    ReflectedBy(c, three, Proposed(c), k, k', p, "PREPARE", next);
    RunsOn(c.u, StartNet(c.u), one, two);
    RunsOn(c.u, StartNet(c.u), two, three);
  }

  // ---------------------------------------------------------------- nobody stands behind the round

  /** Whoever prepared or committed the round had been shown a vote of the proposer for it. */
  lemma FollowProposer(c: Scene, net: Net)
    requires Only(c, net) && c.proposal.signer in Honest(c.u)
    ensures Preparers(c.u, net, Rk(c.v)) != {} ==> SignedFor(net.signed, c.proposal.signer, "PRE_PREPARE", Rk(c.v))
    ensures Committers(c.u, net, Rk(c.v)) != {} ==> SignedFor(net.signed, c.proposal.signer, "PREPARE", Rk(c.v))
  {
    forall w | w in Preparers(c.u, net, Rk(c.v)) ensures SignedFor(net.signed, c.proposal.signer, "PRE_PREPARE", Rk(c.v)) {
      var t :| t in net.nodes[w].permits && ShownProposal(c.u, net, t, Rk(c.v));
      assert Led(net.nodes[w].permits, c.v, c.proposal.signer);
      assert c.proposal.signer in {t.proposer};
    }
    forall w | w in Committers(c.u, net, Rk(c.v)) ensures SignedFor(net.signed, c.proposal.signer, "PREPARE", Rk(c.v)) {
      var t :| t in net.nodes[w].permits && ShownQuorum(c.u, net, t, Rk(c.v));
      assert Led(net.nodes[w].permits, c.v, c.proposal.signer);
    }
  }

  lemma NobodyBehind(c: Scene, net: Net)
    requires Only(c, net) && Twisted(c)
    ensures Preparers(c.u, net, Rk(c.v)) == {} && Committers(c.u, net, Rk(c.v)) == {}
  {
    FollowProposer(c, net);
  }

  lemma TwistedScene(u: Setup, target: NodeId, p: NodeId) returns (c: Scene)
    requires SetupOk(u) && IdsOk(u) && p in Honest(u) && Misread(target)
    ensures c.u == u && c.rs == Honest(u) - {p} && c.proposal.signer == p && c.proposal.target == target
    ensures Twisted(c) && Opens(c.proposal.evidence)
  {
    var i :| MisreadAt(target, i);
    var evidence, target', evidence' := ApartEvidence(target, i);
    c := Scene(u, Topic(evidence', target'), Honest(u) - {p},
               Vote(p, "PRE_PREPARE", target, evidence, 1, 0, Genesis(), RoundKey(evidence, target)));
  }

  lemma TwistedExecutes(c: Scene, p: NodeId) returns (actions: seq<Action>, net: Net)
    requires Twisted(c) && c.rs == Honest(c.u) - {c.proposal.signer} && p in c.rs && |c.u.ids| >= 2
    ensures Initial(c.u, StartNet(c.u)) && Reaches(c.u, StartNet(c.u), actions, net) && Only(c, net)
    ensures ExecutedAt(net, p, Rk(c.v))
  {
    var qs := QuorumWithout(c.u, c.proposal.signer);
    assert Electors(c, qs);
    TwistedOpening(c);
    actions, net := RunToExecuted(c, qs);
  }

  /**
   With every target that can be misread, in every setup of at least two nodes: one honest node proposes it
   once, nobody honest proposes anything else, and another honest node executes a round that nobody proposed
   and that has no honest preparer and no honest committer. The proposer does as the code does: it counts its
   own proposal and prepares it. The faulty nodes need do no more than pass these two votes on, cut at the
   first bar, and vote.
   */
  lemma MisreadExecutes(u: Setup, target: NodeId) returns (start: Net, actions: seq<Action>, net: Net, p: NodeId, rk: Str)
    requires SetupOk(u) && IdsOk(u) && |u.ids| >= 2 && Misread(target)
    ensures Initial(u, start) && Reaches(u, start, actions, net) && ExecutedAt(net, p, rk)
    ensures forall vote :: vote in net.signed && vote.stage == "PRE_PREPARE" ==>
              vote.target == target && Opens(vote.evidence) && vote.rk != rk
    ensures Preparers(u, net, rk) == {} && Committers(u, net, rk) == {}
  {
    var a;
    a, p := TwoHonest(u);
    var c := TwistedScene(u, target, a);
    actions, net := TwistedExecutes(c, p);
    start, rk := StartNet(u), Rk(c.v);
    NobodyBehind(c, net);
  }

  // ---------------------------------------------------------------- the exact condition

  /**
   Whatever honest nodes may be asked to propose, and whoever is faulty: every execution is backed by f+1
   honest committers and f+1 honest preparers if and only if none of these targets can be misread.
   */
  lemma SafeIff(u: Setup, targets: iset<NodeId>)
    requires SetupOk(u) && IdsOk(u) && |u.ids| >= 2
    ensures Safe(u, targets) <==> forall target :: target in targets ==> !Misread(target)
  {
    if forall target :: target in targets ==> !Misread(target) {
      forall start, actions, net, p, rk | Initial(u, start) && Reaches(u, start, actions, net)
                                          && ProposedAmong(net.signed, targets) && ExecutedAt(net, p, rk)
        ensures WellBacked(u, net, rk)
      {
        ExecutedIsBacked(u, start, actions, net, p, rk);
      }
    } else {
      var target :| target in targets && Misread(target);
      var start, actions, net, p, rk := MisreadExecutes(u, target);
      assert ProposedAmong(net.signed, targets) && !WellBacked(u, net, rk);
    }
  }

  ghost predicate HaveCommonCommitter(u: Setup, net: Net, rk: Str, rk': Str) {
    exists v :: v in Honest(u) && Committer(u, net, v, rk) && Committer(u, net, v, rk')
  }

  /** In every such run any two executions have an honest committer in common. */
  ghost predicate Shares(u: Setup, targets: iset<NodeId>) {
    forall start, actions, net, p, rk, p', rk' ::
      (Initial(u, start) && Reaches(u, start, actions, net) && ProposedAmong(net.signed, targets)
       && ExecutedAt(net, p, rk) && ExecutedAt(net, p', rk'))
        ==> HaveCommonCommitter(u, net, rk, rk')
  }

  lemma MisreadShares(u: Setup, targets: iset<NodeId>, target: NodeId)
    requires SetupOk(u) && IdsOk(u) && |u.ids| >= 2 && target in targets && Misread(target)
    ensures !Shares(u, targets)
  {
    var start, actions, net, p, rk := MisreadExecutes(u, target);
    assert ProposedAmong(net.signed, targets);
    assert forall v :: v in Honest(u) && Committer(u, net, v, rk) ==> v in Committers(u, net, rk);
    assert !HaveCommonCommitter(u, net, rk, rk);
  }

  lemma ReadShares(u: Setup, targets: iset<NodeId>)
    requires SetupOk(u) && |u.ids| % 3 == 1 && forall target :: target in targets ==> !Misread(target)
    ensures Shares(u, targets)
  {
    forall start, actions, net, p, rk, p', rk' | Initial(u, start) && Reaches(u, start, actions, net)
        && ProposedAmong(net.signed, targets) && ExecutedAt(net, p, rk) && ExecutedAt(net, p', rk')
      ensures HaveCommonCommitter(u, net, rk, rk')
    {
      var v := ExecutionsShareCommitter(u, start, actions, net, p, rk, p', rk');
    }
  }

  /** With n = 3f+1 nodes the same condition is exact for that. */
  lemma SharesIff(u: Setup, targets: iset<NodeId>)
    requires SetupOk(u) && IdsOk(u) && |u.ids| >= 2 && |u.ids| % 3 == 1
    ensures Shares(u, targets) <==> forall target :: target in targets ==> !Misread(target)
  {
    if forall target :: target in targets ==> !Misread(target) {
      ReadShares(u, targets);
    } else {
      var target :| target in targets && Misread(target);
      MisreadShares(u, targets, target);
    }
  }

  /** For example: a node asked to isolate "b|{x}" because of "{}" signs what reads as a proposal against "b". */
  lemma MisreadExample()
    ensures Misread("b|{x}") && Receivable("b", "{x}|{}") && Joined("b|{x}", "{}") == Joined("b", "{x}|{}")
  {
    var target := "b|{x}";
    assert target[..1] == "b";
    assert MisreadAt(target, 1);
  }
}
