/** What a round in COMMIT or EXECUTED says about its voters, in every reachable state. */
module PbftQuorum {
  import opened Symbolic
  import opened Pbft
  import opened PbftRegistry
  import opened Quorums

  function Prepared(b: Ballots, rk: Str): set<NodeId> { Voters(b, rk, "PREPARE") }

  function PreparedAndCommitted(b: Ballots, rk: Str): set<NodeId> {
    Voters(b, rk, "PREPARE") * Voters(b, rk, "COMMIT")
  }

  ghost predicate RoundBacked(b: Ballots, quorum: int, rk: Str) {
    rk in b.rounds ==>
      && (b.rounds[rk].state == Commit || b.rounds[rk].state == Executed ==> |Prepared(b, rk)| >= quorum)
      && (b.rounds[rk].state == Executed ==> |PreparedAndCommitted(b, rk)| >= quorum)
  }

  ghost predicate QuorumBacked(b: Ballots, quorum: int) {
    forall rk :: RoundBacked(b, quorum, rk)
  }

  lemma CleanupBacked(b: Ballots, quorum: int, now: int)
    requires QuorumBacked(b, quorum)
    ensures QuorumBacked(Cleanup(b, now), quorum)
  {
    forall rk ensures RoundBacked(Cleanup(b, now), quorum, rk) {
      assert RoundBacked(b, quorum, rk);
      CleanupVoters(b, now, rk, "PREPARE");
      CleanupVoters(b, now, rk, "COMMIT");
    }
  }

  /** More voters, with round states unchanged, stay backed. */
  lemma GrowBacked(b: Ballots, b': Ballots, quorum: int, rk: Str)
    requires RoundBacked(b, quorum, rk)
    requires rk in b'.rounds ==> b'.rounds[rk].state == RoundAt(b, rk).state
    requires Voters(b, rk, "PREPARE") <= Voters(b', rk, "PREPARE")
    requires Voters(b, rk, "COMMIT") <= Voters(b', rk, "COMMIT")
    ensures RoundBacked(b', quorum, rk)
  {
    SubsetSize(Prepared(b, rk), Prepared(b', rk));
    SubsetSize(PreparedAndCommitted(b, rk), PreparedAndCommitted(b', rk));
  }

  lemma InsertBacked(b: Ballots, quorum: int, m: Message, mh: Str, rk: Str, now: int)
    requires QuorumBacked(b, quorum)
    ensures QuorumBacked(Insert(b, m, mh, rk, now), quorum)
  {
    forall rk' ensures RoundBacked(Insert(b, m, mh, rk, now), quorum, rk') {
      InsertVoters(b, m, mh, rk, now, rk', "PREPARE");
      InsertVoters(b, m, mh, rk, now, rk', "COMMIT");
      assert RoundBacked(b, quorum, rk');
      GrowBacked(b, Insert(b, m, mh, rk, now), quorum, rk');
    }
  }

  /** The transition out of PREPARE needs the quorum, and the one out of COMMIT the intersection. */
  lemma TransitionBacked(b: Ballots, quorum: int, m: Message, rk: Str)
    requires QuorumBacked(b, quorum) && rk in b.rounds
    requires !RollsBack(b, quorum, m.stage, rk)
    ensures QuorumBacked(Transition(b, quorum, m, rk), quorum)
  {
    var b' := Transition(b, quorum, m, rk);
    forall rk' ensures RoundBacked(b', quorum, rk') {
      assert RoundBacked(b, quorum, rk');
      assert Voters(b', rk', "PREPARE") == Voters(b, rk', "PREPARE");
      assert Voters(b', rk', "COMMIT") == Voters(b, rk', "COMMIT");
    }
  }

  /** A rolled-back vote leaves the voters as they were before it was inserted. */
  lemma RollBackBacked(b: Ballots, quorum: int, m: Message, mh: Str, rk: Str, now: int)
    requires QuorumBacked(b, quorum) && m.sender !in Voters(b, rk, m.stage)
    requires RollsBack(Insert(b, m, mh, rk, now), quorum, m.stage, rk)
    ensures QuorumBacked(Transition(Insert(b, m, mh, rk, now), quorum, m, rk), quorum)
  {
    var b1 := Insert(b, m, mh, rk, now);
    var voters := Voters(b1, rk, m.stage) - {m.sender};
    var b' := Transition(b1, quorum, m, rk);
    assert b' == SetVoters(b1, rk, m.stage, voters);
    InsertVoters(b, m, mh, rk, now, rk, m.stage);
    forall rk' ensures RoundBacked(b', quorum, rk') {
      InsertVoters(b, m, mh, rk, now, rk', "PREPARE");
      InsertVoters(b, m, mh, rk, now, rk', "COMMIT");
      SetVotersVoters(b1, rk, m.stage, voters, rk', "PREPARE");
      SetVotersVoters(b1, rk, m.stage, voters, rk', "COMMIT");
      assert RoundBacked(b, quorum, rk');
      GrowBacked(b, b', quorum, rk');
    }
  }

  lemma CountVoteBacked(b: Ballots, quorum: int, m: Message, mh: Str, rk: Str, now: int)
    requires QuorumBacked(b, quorum)
    ensures QuorumBacked(CountVote(b, quorum, m, mh, rk, now).0, quorum)
  {
    if m.sender !in Voters(b, rk, m.stage) {
      InsertBacked(b, quorum, m, mh, rk, now);
      var b1 := Insert(b, m, mh, rk, now);
      if RoundAt(b1, rk).view == m.view {
        if RollsBack(b1, quorum, m.stage, rk) {
          RollBackBacked(b, quorum, m, mh, rk, now);
        } else {
          TransitionBacked(b1, quorum, m, rk);
        }
      }
    }
  }

  // ---------------------------------------------------------------- runs with fixed membership

  /** No key is lost and the node count does not grow. */
  ghost predicate NoLoss(s: State, s': State) {
    s'.members.total <= s.members.total && s.members.keys.Keys <= s'.members.keys.Keys
  }

  ghost predicate StableRun(s: State, ops: seq<Op>) {
    ops == [] ||
    (StableRun(s, ops[..|ops| - 1]) && NoLoss(Run(s, ops[..|ops| - 1]), Run(s, ops)))
  }

  lemma QuorumMonotone(n: int, n': int)
    requires n' <= n
    ensures Quorum(n') <= Quorum(n)
  {
  }

  lemma WeakerQuorum(b: Ballots, quorum: int, quorum': int)
    requires QuorumBacked(b, quorum) && quorum' <= quorum
    ensures QuorumBacked(b, quorum')
  {
    forall rk ensures RoundBacked(b, quorum', rk) { assert RoundBacked(b, quorum, rk); }
  }

  ghost predicate Backed(s: State) {
    QuorumBacked(s.ballots, Quorum(s.members.total))
  }

  lemma AdvanceBacked(s: State, m: Message, mh: Str, rk: Str, now: int, dropped: set<Str>)
    requires Consistent(s) && Backed(s) && NoLoss(s, Advance(s, m, mh, rk, now, dropped).0)
    ensures Backed(Advance(s, m, mh, rk, now, dropped).0)
  {
    if m.sender in s.members.keys && m.sender !in s.members.banned {
      var s1 := Swept(s, m.sender, now);
      CleanupBacked(s.ballots, Quorum(s.members.total), now);
      if RateAdmits(s, m.sender, now) {
        AdmittedFrame(s1, m, mh, rk, now, dropped);
        CountVoteBacked(s1.ballots, Quorum(s.members.total), m, mh, rk, now);
      } else {
        assert RecordFailure(s1, m.sender, now).ballots == s1.ballots;
      }
    }
  }

  lemma PruneBacked(s: State, id: NodeId)
    requires Consistent(s) && Backed(s) && id !in s.members.keys
    ensures Backed(Prune(s, id))
  {
    var s' := Prune(s, id);
    QuorumMonotone(s.members.total, s'.members.total);
    WeakerQuorum(s.ballots, Quorum(s.members.total), Quorum(s'.members.total));
    forall rk ensures RoundBacked(s'.ballots, Quorum(s'.members.total), rk) {
      EraseVoterVoters(s.ballots, id, rk, "PREPARE");
      EraseVoterVoters(s.ballots, id, rk, "COMMIT");
      assert id !in Voters(s.ballots, rk, "PREPARE") && id !in Voters(s.ballots, rk, "COMMIT");
      assert RoundBacked(s.ballots, Quorum(s'.members.total), rk);
      GrowBacked(s.ballots, s'.ballots, Quorum(s'.members.total), rk);
    }
  }

  lemma StepBacked(s: State, op: Op)
    requires Consistent(s) && Backed(s) && NoLoss(s, Step(s, op))
    ensures Backed(Step(s, op))
  {
    match op
    case AdvanceOp(m, mh, rk, now, dropped) => AdvanceBacked(s, m, mh, rk, now, dropped);
    case PruneOp(id) => PruneBacked(s, id);
    case CommitSigOp(rk, sig) =>
      forall rk' ensures RoundBacked(Step(s, op).ballots, Quorum(s.members.total), rk') {
        assert RoundBacked(s.ballots, Quorum(s.members.total), rk');
        GrowBacked(s.ballots, Step(s, op).ballots, Quorum(s.members.total), rk');
      }
    case VerifyOp(m, now) =>
      assert Step(s, op).ballots == s.ballots;
    case IncrementOp =>
    case _ =>
      QuorumMonotone(s.members.total, Step(s, op).members.total);
      WeakerQuorum(s.ballots, Quorum(s.members.total), Quorum(Step(s, op).members.total));
  }

  /**
   With fixed membership every round in COMMIT or EXECUTED has a quorum of PREPARE voters, and
   every round in EXECUTED a quorum that voted both PREPARE and COMMIT, whatever else is called.
   */
  lemma {:induction false} RunBacked(s: State, ops: seq<Op>)
    requires Consistent(s) && Backed(s) && StableRun(s, ops)
    ensures Backed(Run(s, ops))
  {
    if ops != [] {
      var before := ops[..|ops| - 1];
      RunBacked(s, before);
      RunConsistent(s, before);
      StepBacked(Run(s, before), ops[|ops| - 1]);
    }
  }

  // ---------------------------------------------------------------- with changing membership

  lemma CountVoteExecutes(b: Ballots, quorum: int, m: Message, mh: Str, rk: Str, now: int)
    requires CountVote(b, quorum, m, mh, rk, now).1 == Executed
    ensures var b' := CountVote(b, quorum, m, mh, rk, now).0;
            && m.stage == "COMMIT" && RoundAt(b, rk).state == Commit
            && rk in b'.rounds && b'.rounds[rk].state == Executed
            && |Voters(b', rk, "COMMIT")| >= quorum
            && (|Prepared(b', rk)| < quorum || |PreparedAndCommitted(b', rk)| >= quorum)
  {
    var b1 := Insert(b, m, mh, rk, now);
    InsertVoters(b, m, mh, rk, now, rk, "COMMIT");
    var b' := CountVote(b, quorum, m, mh, rk, now).0;
    assert Voters(b', rk, "PREPARE") == Voters(b1, rk, "PREPARE");
    assert Voters(b', rk, "COMMIT") == Voters(b1, rk, "COMMIT");
  }

  /** Whatever happened before, a step that reports EXECUTED has a COMMIT quorum and either the intersection or too few PREPARE votes left. */
  lemma ExecutedStep(s: State, m: Message, mh: Str, rk: Str, now: int, dropped: set<Str>)
    requires Advance(s, m, mh, rk, now, dropped).1 == Executed
    ensures var s' := Advance(s, m, mh, rk, now, dropped).0;
            var quorum := Quorum(s'.members.total);
            && m.stage == "COMMIT"
            && rk in s'.ballots.rounds && s'.ballots.rounds[rk].state == Executed
            && |Voters(s'.ballots, rk, "COMMIT")| >= quorum
            && (|Prepared(s'.ballots, rk)| < quorum || |PreparedAndCommitted(s'.ballots, rk)| >= quorum)
  {
    var s1 := Swept(s, m.sender, now);
    AdmittedFrame(s1, m, mh, rk, now, dropped);
    CountVoteExecutes(s1.ballots, Quorum(s.members.total), m, mh, rk, now);
  }
}
