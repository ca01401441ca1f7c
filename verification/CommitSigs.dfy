/** This node's own COMMIT signatures in the round table, step by step. */
module CommitSigs {
  import opened Wrappers
  import opened Delimited
  import opened Symbolic
  import opened Pbft
  import opened PbftRegistry
  import opened PbftRounds
  import opened PbftText

  /** What a COMMIT vote signs. */
  datatype CommitText = CommitText(target: NodeId, evidence: string, seqNo: U64, view: int, prevHash: Str)

  function CommitBlob(c: CommitText): Str {
    SigningBlob("COMMIT", c.target, c.evidence, c.seqNo, c.view, c.prevHash)
  }

  /** A COMMIT signature by `key` for exactly this evidence and target. */
  ghost predicate OwnCommit(sig: Signature, key: nat, evidence: string, target: NodeId) {
    exists c :: sig == Signed(key, CommitBlob(c)) && c.evidence == evidence && c.target == target && Free(BAR, c.prevHash)
  }

  /** A COMMIT signature by `key` for some evidence and one of the targets that make up this round key. */
  ghost predicate RoundSigned(rk: Str, sig: Signature, key: nat, targets: set<NodeId>) {
    exists evidence, target :: rk == RoundKey(evidence, target) && target in targets && OwnCommit(sig, key, evidence, target)
  }

  lemma OwnRoundSigned(sig: Signature, key: nat, evidence: string, target: NodeId, targets: set<NodeId>)
    requires OwnCommit(sig, key, evidence, target) && target in targets
    ensures RoundSigned(RoundKey(evidence, target), sig, key, targets)
  {
  }

  /** Every round past PREPARE, `open` aside, holds this node's own COMMIT signature. */
  ghost predicate RoundsSigned(b: Ballots, key: nat, targets: set<NodeId>, open: set<Str>) {
    forall rk :: rk in b.rounds && rk !in open && Rank(b.rounds[rk].state) >= 2 ==>
      RoundSigned(rk, b.rounds[rk].commitSignature, key, targets)
  }

  /** Message hashes hold no separator. */
  ghost predicate HistoryFree(l: Log) {
    forall id :: id in l.history ==> AllFree(l.history[id])
  }

  /** An engine that can sign, with its own COMMIT signatures in place except in the `open` rounds. */
  ghost predicate Ready(s: State, key: nat, targets: set<NodeId>, open: set<Str>) {
    s.signingKey == Some(key) && RoundsSigned(s.ballots, key, targets, open) && HistoryFree(s.log)
  }

  lemma ReadyGrows(s: State, key: nat, targets: set<NodeId>, open: set<Str>, targets': set<NodeId>)
    requires Ready(s, key, targets, open) && targets <= targets'
    ensures Ready(s, key, targets', open)
  {
  }

  /** A COMMIT signature for two pairs is for one pair exactly if neither target begins with the other and a bar. */
  lemma OwnCommitSameIff(sig: Signature, key: nat, evidence: string, target: NodeId, evidence': string, target': NodeId)
    requires OwnCommit(sig, key, evidence, target) && OwnCommit(sig, key, evidence', target')
    ensures evidence == evidence' && target == target' <==> !Overlaps(target, target')
  {
    OwnCommitText(sig, key, evidence, target, evidence', target');
    JoinedSameIff(target, evidence, target', evidence');
  }

  lemma OwnCommitText(sig: Signature, key: nat, evidence: string, target: NodeId, evidence': string, target': NodeId)
    requires OwnCommit(sig, key, evidence, target) && OwnCommit(sig, key, evidence', target')
    ensures Joined(target, evidence) == Joined(target', evidence')
  {
    var c :| sig == Signed(key, CommitBlob(c)) && c.evidence == evidence && c.target == target && Free(BAR, c.prevHash);
    var c' :| sig == Signed(key, CommitBlob(c')) && c'.evidence == evidence' && c'.target == target' && Free(BAR, c'.prevHash);
    BlobText("COMMIT", c.target, c.evidence, c.seqNo, c.view, c.prevHash,
             "COMMIT", c'.target, c'.evidence, c'.seqNo, c'.view, c'.prevHash);
  }

  lemma RoundSignedExact(evidence: string, target: NodeId, sig: Signature, key: nat, targets: set<NodeId>)
    requires RoundSigned(RoundKey(evidence, target), sig, key, targets)
    requires forall t :: t in targets ==> !Confusable(target, t)
    ensures OwnCommit(sig, key, evidence, target)
  {
    var evidence', target' :| RoundKey(evidence, target) == RoundKey(evidence', target') && target' in targets
                              && OwnCommit(sig, key, evidence', target');
    RoundKeySameIff(evidence, target, evidence', target');
  }

  // ---------------------------------------------------------------- one round, two signed texts

  /** Two pairs that are one round, moving `front` from the target to the evidence, but two signed texts. */
  lemma TwinPairs(front: string, target: NodeId) returns (evidence: string)
    ensures Opens(evidence)
    ensures RoundKey(evidence, front + "|" + target) == RoundKey(evidence + "|" + front, target)
    ensures Joined(front + "|" + target, evidence) != Joined(target, evidence + "|" + front)
  {
    evidence := seq(|front| + 1, i => '{');
    assert evidence + "|" + (front + "|" + target) == (evidence + "|" + front) + "|" + target;
    RoundKeyText(evidence, front + "|" + target, evidence + "|" + front, target);
    var n := |front| + 1 + |target|;
    assert Joined(front + "|" + target, evidence)[n] == '|';
    assert Joined(target, evidence + "|" + front)[n] == evidence[|front|] == '{';
  }

  /** The first COMMIT vote a node can send for a pair. */
  function FirstCommit(key: nat, evidence: string, target: NodeId): Signature {
    Signed(key, SigningBlob("COMMIT", target, evidence, 1, 0, Genesis()))
  }

  lemma FirstCommitSigned(key: nat, evidence: string, target: NodeId)
    ensures OwnCommit(FirstCommit(key, evidence, target), key, evidence, target)
  {
    assert Free(BAR, Genesis());
    OwnVoteCommits(key, target, evidence, Genesis(), 1, 0);
  }

  lemma FirstCommitOnly(key: nat, evidence: string, target: NodeId, evidence': string, target': NodeId)
    requires Joined(target, evidence) != Joined(target', evidence')
    ensures !OwnCommit(FirstCommit(key, evidence, target), key, evidence', target')
  {
    FirstCommitSigned(key, evidence, target);
    if OwnCommit(FirstCommit(key, evidence, target), key, evidence', target') {
      OwnCommitText(FirstCommit(key, evidence, target), key, evidence, target, evidence', target');
    }
  }

  lemma EndsSplit(target: NodeId, end: NodeId) returns (front: string)
    requires EndsWith(target, "|" + end)
    ensures target == front + "|" + end
  {
    front := target[..|target| - |"|" + end|];
    assert target == front + ("|" + end);
  }

  /** With a confusable target of its own the node keeps, for some round, a signature for another pair. */
  lemma ConfusedSignature(target: NodeId, key: nat, targets: set<NodeId>, t: NodeId) returns (evidence: string, sig: Signature)
    requires t in targets && Confusable(target, t)
    ensures Opens(evidence)
    ensures RoundSigned(RoundKey(evidence, target), sig, key, targets) && !OwnCommit(sig, key, evidence, target)
  {
    if EndsWith(t, "|" + target) {
      var front := EndsSplit(t, target);
      var e := TwinPairs(front, target);
      evidence, sig := e + "|" + front, FirstCommit(key, e, t);
      FirstCommitSigned(key, e, t);
      OwnRoundSigned(sig, key, e, t, targets);
      FirstCommitOnly(key, e, t, evidence, target);
    } else {
      var front := EndsSplit(target, t);
      evidence := TwinPairs(front, t);
      var e := evidence + "|" + front;
      sig := FirstCommit(key, e, t);
      FirstCommitSigned(key, e, t);
      OwnRoundSigned(sig, key, e, t, targets);
      FirstCommitOnly(key, e, t, evidence, target);
    }
  }

  /**
   The signature kept for a round is always the one for the evidence and target at hand if and only if none
   of the node's own targets can be taken for this one.
   */
  lemma RoundSignedExactIff(target: NodeId, key: nat, targets: set<NodeId>)
    ensures (forall evidence, sig :: RoundSigned(RoundKey(evidence, target), sig, key, targets) ==> OwnCommit(sig, key, evidence, target))
       <==> (forall t :: t in targets ==> !Confusable(target, t))
  {
    if forall t :: t in targets ==> !Confusable(target, t) {
      forall evidence, sig | RoundSigned(RoundKey(evidence, target), sig, key, targets) ensures OwnCommit(sig, key, evidence, target) {
        RoundSignedExact(evidence, target, sig, key, targets);
      }
    } else {
      var t :| t in targets && Confusable(target, t);
      var evidence, sig := ConfusedSignature(target, key, targets, t);
    }
  }

  // ---------------------------------------------------------------- such a round executed

  const SELF: NodeId := "A"
  const SECOND: NodeId := "B"
  const THIRD: NodeId := "C"

  /** Four nodes; the first three prepared the round, the first two committed it, and this node, the first, signed `sig`. */
  function CommitState(key: nat, rk: Str, sig: Signature): State {
    var keys := map["A" := PublicKey(key), "B" := PublicKey(key + 1), "C" := PublicKey(key + 2), "D" := PublicKey(key + 3)];
    State(SELF, Some(key), 0, 10, 5,
          Members(4, keys, map id | id in keys :: FRESH_TRUST, keys.Keys, {}, {}),
          Ballots(map[rk := map["PREPARE" := {SELF, SECOND, THIRD}, "COMMIT" := {SELF, SECOND}]],
                  map[rk := Round(Commit, 0, [], rk, sig, 0, 0)]),
          Log(map[], map[], map[], {}))
  }

  lemma CommitStateConsistent(key: nat, rk: Str, sig: Signature)
    ensures Consistent(CommitState(key, rk, sig))
  {
  }

  /** The third node's COMMIT vote. */
  function ThirdCommit(key: nat, evidence: string, target: NodeId): Message {
    Message("COMMIT", THIRD, target, evidence, FirstCommit(key + 2, evidence, target), Genesis(), 1, 0)
  }

  lemma ThirdVerifies(key: nat, rk: Str, sig: Signature, evidence: string, target: NodeId)
    ensures Verifies(CommitState(key, rk, sig), ThirdCommit(key, evidence, target))
  {
    var s, m := CommitState(key, rk, sig), ThirdCommit(key, evidence, target);
    assert SignatureVerifies(s.members.keys[THIRD], Blob(m), m.signature);
  }

  /** Prepared by all three, committed by the first two, and not yet executed. */
  ghost predicate AwaitsThird(b: Ballots, rk: Str) {
    && rk in b.votes && rk in b.rounds && b.rounds[rk].state == Commit && b.rounds[rk].view == 0
    && b.votes[rk] == map["PREPARE" := {SELF, SECOND, THIRD}, "COMMIT" := {SELF, SECOND}]
  }

  lemma ThirdCounted(b: Ballots, m: Message, mh: Str, rk: Str)
    requires m.stage == "COMMIT" && m.sender == THIRD && m.view == 0 && AwaitsThird(b, rk)
    ensures CountVote(b, 3, m, mh, rk, 0).1 == Executed
  {
    var b1, all := Insert(b, m, mh, rk, 0), {SELF, SECOND, THIRD};
    assert Voters(b1, rk, "COMMIT") == all && Voters(b1, rk, "PREPARE") == all;
    assert all * all == all && |all| == 3;
  }

  lemma AdvanceCounts(s: State, m: Message, mh: Str, rk: Str, now: int, dropped: set<Str>)
    requires m.sender in s.members.keys && m.sender !in s.members.banned && RateAdmits(s, m.sender, now) && mh !in s.log.seen
    ensures var (s', stage) := Advance(s, m, mh, rk, now, dropped);
            (s'.ballots, stage) == CountVote(Cleanup(s.ballots, now), Quorum(s.members.total), m, mh, rk, now)
  {
  }

  lemma ThirdAdvances(s: State, m: Message, mh: Str, rk: Str)
    requires m.stage == "COMMIT" && m.sender == THIRD && m.view == 0 && AwaitsThird(s.ballots, rk)
    requires THIRD in s.members.keys && THIRD !in s.members.banned && RateAdmits(s, THIRD, 0) && mh !in s.log.seen
    requires Cleanup(s.ballots, 0) == s.ballots && Quorum(s.members.total) == 3
    ensures var (s', stage) := Advance(s, m, mh, rk, 0, {});
            stage == Executed && RoundAt(s'.ballots, rk).commitSignature == RoundAt(s.ballots, rk).commitSignature
  {
    AdvanceCounts(s, m, mh, rk, 0, {});
    ThirdCounted(s.ballots, m, mh, rk);
    CountVoteSig(s.ballots, 3, m, mh, rk, 0, rk);
  }

  lemma ThirdExecutes(key: nat, rk: Str, sig: Signature, m: Message, mh: Str)
    requires m.stage == "COMMIT" && m.sender == THIRD && m.view == 0
    ensures var (s', stage) := Advance(CommitState(key, rk, sig), m, mh, rk, 0, {});
            stage == Executed && RoundAt(s'.ballots, rk).commitSignature == sig
  {
    var s := CommitState(key, rk, sig);
    assert StaleKeys(s.ballots, 0) == {};
    ThirdAdvances(s, m, mh, rk);
  }

  /**
   For every target behind a bar in a target of the node: there is a round in COMMIT, signed in order, that a
   third node's COMMIT vote takes to EXECUTED, and the signature then found for it is not for the vote's pair.
   */
  lemma ConfusedExecution(key: nat, front: string, target: NodeId) returns (s: State, m: Message)
    requires Receivable(target, "{}")
    ensures var own := front + "|" + target;
            Consistent(s) && Ready(s, key, {own}, {}) && s.me != m.sender && Verifies(s, m)
    ensures Receivable(m.target, m.evidence) && m.target == target
    ensures var rk := RoundKey(m.evidence, m.target);
            var (s', stage) := Advance(s, m, MessageHash(m), rk, 0, {});
            var sig := RoundAt(s'.ballots, rk).commitSignature;
            && stage == Executed && RoundSigned(rk, sig, key, {front + "|" + target})
            && !OwnCommit(sig, key, m.evidence, m.target)
  {
    var own := front + "|" + target;
    var e := TwinPairs(front, target);
    var evidence, sig, rk := e + "|" + front, FirstCommit(key, e, own), RoundKey(e, own);
    s, m := CommitState(key, rk, sig), ThirdCommit(key, evidence, target);
    FirstCommitSigned(key, e, own);
    OwnRoundSigned(sig, key, e, own, {own});
    FirstCommitOnly(key, e, own, evidence, target);
    CommitStateConsistent(key, rk, sig);
    ThirdVerifies(key, rk, sig, evidence, target);
    ThirdExecutes(key, rk, sig, m, MessageHash(m));
  }

  /** Counting a vote never touches a stored signature. */
  lemma CountVoteSig(b: Ballots, quorum: int, m: Message, mh: Str, rk: Str, now: int, rk': Str)
    ensures RoundAt(CountVote(b, quorum, m, mh, rk, now).0, rk').commitSignature == RoundAt(b, rk').commitSignature
  {
    InsertRound(b, m, mh, rk, now, rk');
    TransitionRound(Insert(b, m, mh, rk, now), quorum, m, rk, rk');
  }

  lemma CountVoteSigned(b: Ballots, quorum: int, m: Message, mh: Str, rk: Str, now: int, key: nat, targets: set<NodeId>)
    requires RoundsSigned(b, key, targets, {})
    ensures var (b', stage) := CountVote(b, quorum, m, mh, rk, now);
            RoundsSigned(b', key, targets, if stage == Commit then {rk} else {})
  {
    var (b', stage) := CountVote(b, quorum, m, mh, rk, now);
    var open := if stage == Commit then {rk} else {};
    forall rk' | rk' in b'.rounds && rk' !in open && Rank(b'.rounds[rk'].state) >= 2
      ensures RoundSigned(rk', b'.rounds[rk'].commitSignature, key, targets)
    {
      CountVoteSig(b, quorum, m, mh, rk, now, rk');
      CountVoteRound(b, quorum, m, mh, rk, now, rk');
      assert Rank(RoundAt(b, rk').state) >= 2;
    }
  }

  lemma CountVoteFollows(b: Ballots, quorum: int, m: Message, mh: Str, rk: Str, now: int)
    ensures var (b', stage) := CountVote(b, quorum, m, mh, rk, now);
            Follows(m.stage, stage) && (stage == Executed ==> rk in b'.rounds && b'.rounds[rk].state == Executed)
  {
    CountVoteRound(b, quorum, m, mh, rk, now, rk);
  }

  /** The result of advance_state follows the stage of the message. */
  predicate Follows(stage: string, next: Stage) {
    match next
    case Idle => true
    case Prepare => stage == "PRE_PREPARE" || stage == "BAN_PEER"
    case Commit => stage == "PREPARE"
    case Executed => stage == "COMMIT"
    case _ => false
  }

  ghost predicate AllFree(h: map<U64, Str>) {
    forall n :: n in h ==> Free(BAR, h[n])
  }

  lemma RecordedFree(h: map<U64, Str>, seqNo: U64, mh: Str)
    requires AllFree(h) && Free(BAR, mh)
    ensures AllFree(EvictOldest(h[seqNo := mh]))
  {
    EvictOldestKeepsNewest(h[seqNo := mh]);
  }

  lemma RecordFailureHistoryFree(s: State, id: NodeId, now: int)
    requires HistoryFree(s.log)
    ensures HistoryFree(RecordFailure(s, id, now).log)
  {
  }

  lemma AdvanceHistoryFree(s: State, m: Message, mh: Str, rk: Str, now: int, dropped: set<Str>)
    requires HistoryFree(s.log) && Free(BAR, mh)
    ensures HistoryFree(Advance(s, m, mh, rk, now, dropped).0.log)
  {
    if m.sender in s.members.keys && m.sender !in s.members.banned {
      var s1 := Swept(s, m.sender, now);
      if RateAdmits(s, m.sender, now) {
        AdmittedFrame(s1, m, mh, rk, now, dropped);
        RecordedFree(HistoryAt(s.log, m.sender), m.seqNo, mh);
      } else {
        RecordFailureHistoryFree(s1, m.sender, now);
      }
    }
  }

  /** For every engine state and message: the reported stage follows that of the message. */
  lemma AdvanceFollows(s: State, m: Message, mh: Str, rk: Str, now: int, dropped: set<Str>)
    ensures Follows(m.stage, Advance(s, m, mh, rk, now, dropped).1)
  {
    AdvanceBallots(s, m, mh, rk, now, dropped);
    CountVoteFollows(Cleanup(s.ballots, now), Quorum(s.members.total), m, mh, rk, now);
  }

  lemma AdvanceKeepsKey(s: State, m: Message, mh: Str, rk: Str, now: int, dropped: set<Str>)
    ensures Advance(s, m, mh, rk, now, dropped).0.signingKey == s.signingKey
  {
    if m.sender in s.members.keys && m.sender !in s.members.banned && RateAdmits(s, m.sender, now) {
      AdmittedFrame(Swept(s, m.sender, now), m, mh, rk, now, dropped);
    }
  }

  lemma AdvanceSigned(s: State, m: Message, mh: Str, rk: Str, now: int, dropped: set<Str>, key: nat, targets: set<NodeId>)
    requires RoundsSigned(s.ballots, key, targets, {})
    ensures var (s', stage) := Advance(s, m, mh, rk, now, dropped);
            && RoundsSigned(s'.ballots, key, targets, if stage == Commit then {rk} else {})
            && (stage == Executed ==> RoundSigned(rk, RoundAt(s'.ballots, rk).commitSignature, key, targets))
  {
    var swept, quorum := Cleanup(s.ballots, now), Quorum(s.members.total);
    AdvanceBallots(s, m, mh, rk, now, dropped);
    assert RoundsSigned(swept, key, targets, {});
    CountVoteSigned(swept, quorum, m, mh, rk, now, key, targets);
    CountVoteFollows(swept, quorum, m, mh, rk, now);
  }

  /** advance_state may open the one round it moves to COMMIT, and no other. */
  lemma AdvanceReady(s: State, m: Message, mh: Str, rk: Str, now: int, dropped: set<Str>, key: nat, targets: set<NodeId>)
    requires Ready(s, key, targets, {}) && Free(BAR, mh)
    ensures var (s', stage) := Advance(s, m, mh, rk, now, dropped);
            && Ready(s', key, targets, if stage == Commit then {rk} else {})
            && (stage == Executed ==> RoundSigned(rk, RoundAt(s'.ballots, rk).commitSignature, key, targets))
  {
    AdvanceKeepsKey(s, m, mh, rk, now, dropped);
    AdvanceSigned(s, m, mh, rk, now, dropped, key, targets);
    AdvanceHistoryFree(s, m, mh, rk, now, dropped);
  }

  /** Every other engine call leaves the round table alone. */
  lemma OtherStepsReady(s: State, op: Op, key: nat, targets: set<NodeId>, open: set<Str>)
    requires Ready(s, key, targets, open) && !op.AdvanceOp? && !op.CommitSigOp?
    requires op.IdentityOp? ==> op.priv == Some(key)
    ensures Ready(Step(s, op), key, targets, open)
  {
    OtherStepRounds(s, op);
    OtherStepHistory(s, op);
    var s' := Step(s, op);
    assert RoundsSigned(s'.ballots, key, targets, open);
  }

  lemma OtherStepRounds(s: State, op: Op)
    requires !op.AdvanceOp? && !op.CommitSigOp?
    ensures Step(s, op).ballots.rounds == s.ballots.rounds
    ensures Step(s, op).signingKey == if op.IdentityOp? then op.priv else s.signingKey
  {
  }

  lemma OtherStepHistory(s: State, op: Op)
    requires !op.AdvanceOp? && HistoryFree(s.log)
    ensures HistoryFree(Step(s, op).log)
  {
    match op
    case VerifyOp(m, now) => RecordFailureHistoryFree(s, m.sender, now);
    case _ =>
  }

  /** Storing a COMMIT signature closes its round. */
  lemma CommitSigReady(s: State, evidence: string, target: NodeId, sig: Signature, key: nat, targets: set<NodeId>)
    requires target in targets && OwnCommit(sig, key, evidence, target)
    requires Ready(s, key, targets, {RoundKey(evidence, target)})
    ensures Ready(Step(s, CommitSigOp(RoundKey(evidence, target), sig)), key, targets, {})
  {
    OwnRoundSigned(sig, key, evidence, target, targets);
  }

  /** The vote this node signs for a stage. */
  function OwnVote(me: NodeId, key: Option<nat>, stage: string, target: NodeId, evidence: string,
                   prev: Str, seqNo: U64, view: int): Message
  {
    var blob := SigningBlob(stage, target, evidence, seqNo, view, prev);
    Message(stage, me, target, evidence, if key.Some? then Signed(key.value, blob) else NoSignature, prev, seqNo, view)
  }

  lemma LastHashFree(l: Log, id: NodeId, hash: Str)
    requires HistoryFree(l) && IsLastHash(l, id, hash)
    ensures Free(BAR, hash)
  {
    assert Free(BAR, Genesis());
  }

  lemma OwnVoteCommits(key: nat, target: NodeId, evidence: string, prev: Str, seqNo: U64, view: int)
    requires Free(BAR, prev)
    ensures OwnCommit(Signed(key, SigningBlob("COMMIT", target, evidence, seqNo, view, prev)), key, evidence, target)
  {
    var c := CommitText(target, evidence, seqNo, view, prev);
    assert Signed(key, SigningBlob("COMMIT", target, evidence, seqNo, view, prev)) == Signed(key, CommitBlob(c));
  }

  // ---------------------------------------------------------------- the node's own votes

  lemma GenesisIsNoMessage(m: Message)
    ensures MessageHash(m) != Genesis() && MessageHash(m) != []
  {
    var text, genesis := HashInput(m), Lift("GENESIS");
    assert text[|m.stage|] == BAR;
    assert MessageHash(m)[0] == Digest(text) && Genesis()[0] == Digest(genesis);
  }

  /**
   A node chains its vote from its last recorded one. With its own key registered, its vote passes its own
   verify_message exactly when nothing of its own is recorded yet or the vote directly before is.
   */
  lemma OwnVoteVerifiesIff(s: State, key: nat, stage: string, target: NodeId, evidence: string,
                           prev: Str, seqNo: U64, view: int, last: U64, previous: Message)
    requires s.me !in s.members.banned && s.me in s.members.keys && s.members.keys[s.me] == PublicKey(key)
    requires var h := HistoryAt(s.log, s.me);
             if h == map[] then prev == Genesis()
             else IsLargest(last, h) && prev == h[last] == MessageHash(previous)
                  && last < seqNo && last + MAX_SEQUENCE_GAP < TWO_64
    ensures Verifies(s, OwnVote(s.me, Some(key), stage, target, evidence, prev, seqNo, view))
       <==> HistoryAt(s.log, s.me) == map[] || last == seqNo - 1
  {
    var m, h := OwnVote(s.me, Some(key), stage, target, evidence, prev, seqNo, view), HistoryAt(s.log, s.me);
    assert SignatureVerifies(s.members.keys[s.me], Blob(m), m.signature);
    if h != map[] {
      GenesisIsNoMessage(previous);
      assert seqNo == last + 1 ==> Continues(s.log, m);
      assert Predecessor(seqNo) == seqNo - 1;
    }
  }
}
