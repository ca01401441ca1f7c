/** How a node answers the votes it receives. */
module NodeAnswers {
  import opened Symbolic
  import opened Pbft
  import opened PbftRegistry
  import opened PbftVotes
  import opened PbftReplay
  import opened PbftEquivocation
  import opened PbftTrust
  import opened CommitSigs
  import opened NodeSpec
  import ProofChain

  function Rk(m: Message): Str { RoundKey(m.evidence, m.target) }

  /** The vote verifies, passes the limiter at the time it is counted, and was not seen before. */
  ghost predicate Counts(s: State, m: Message, tick: Tick) {
    Verifies(s, m) && RateAdmits(s, m.sender, tick.now') && MessageHash(m) !in s.log.seen
  }

  /** The ballots that the vote meets: those that have not expired. */
  function Met(s: State, tick: Tick): Ballots { Cleanup(s.ballots, tick.now') }

  // ---------------------------------------------------------------- casting a vote

  lemma VerifyFrame(s: State, m: Message, now: int)
    requires Verifies(s, m)
    ensures var s' := Verify(s, m, now);
            s'.ballots == s.ballots && s'.log == s.log && s'.members == s.members.(trust := s'.members.trust)
            && s'.rateWindow == s.rateWindow && s'.rateMax == s.rateMax && s'.me == s.me && s'.view == s.view
  {
  }

  /** A vote that counts: what it does to the ballots, and that it is on record. */
  lemma CastCounts(s: State, m: Message, tick: Tick)
    requires Counts(s, m, tick)
    ensures var (s', stage) := CastOn(s, m, tick);
            && (s'.ballots, stage) == CountVote(Met(s, tick), Quorum(s.members.total), m, MessageHash(m), Rk(m), tick.now')
            && s'.log.history == s.log.history[m.sender := EvictOldest(HistoryAt(s.log, m.sender)[m.seqNo := MessageHash(m)])]
            && s'.members == s.members.(trust := s'.members.trust)
  {
    var s1 := Verify(s, m, tick.now);
    VerifyFrame(s, m, tick.now);
    AdvanceCounts(s1, m, MessageHash(m), Rk(m), tick.now', tick.dropped);
    TakenLog(s1, m, MessageHash(m), Rk(m), tick.now', tick.dropped);
  }

  // ---------------------------------------------------------------- what nested votes leave alone

  /** The records of other senders. */
  ghost predicate SameRecords(s: State, s': State, me: NodeId) {
    forall id :: id != me ==> HistoryAt(s'.log, id) == HistoryAt(s.log, id)
  }

  lemma FailureRecords(s: State, id: NodeId, now: int)
    ensures SameRecords(s, RecordFailure(s, id, now), id)
  {
  }

  lemma AdvanceRecords(s: State, m: Message, mh: Str, rk: Str, now: int, dropped: set<Str>)
    ensures SameRecords(s, Advance(s, m, mh, rk, now, dropped).0, m.sender)
  {
    if m.sender in s.members.keys && m.sender !in s.members.banned {
      var s1 := Swept(s, m.sender, now);
      if RateAdmits(s, m.sender, now) { AdmittedFrame(s1, m, mh, rk, now, dropped); } else { FailureRecords(s1, m.sender, now); }
    }
  }

  lemma CastRecords(s: State, m: Message, tick: Tick)
    ensures SameRecords(s, CastOn(s, m, tick).0, m.sender)
  {
    FailureRecords(s, m.sender, tick.now);
    AdvanceRecords(Verify(s, m, tick.now), m, MessageHash(m), Rk(m), tick.now', tick.dropped);
  }

  ghost predicate KeepsRecords(cast: Casting) {
    CastingOk(cast) && forall s: State, m: Message, tick: Tick :: SameRecords(s, cast(s, m, tick).0, m.sender)
  }

  lemma EngineKeepsRecords()
    ensures KeepsRecords(Engine())
  {
    forall s: State, m: Message, tick: Tick ensures SameRecords(s, Engine()(s, m, tick).0, m.sender) {
      CastRecords(s, m, tick);
    }
  }

  lemma {:induction false} ReactRecords(cast: Casting, d: Desk, next: Stage, stage: string, target: NodeId, evidence: string, sig: Signature, at: int, env: Env)
    requires KeepsRecords(cast) && Follows(stage, next)
    ensures SameRecords(d.pbft, ReactOn(cast, d, next, stage, target, evidence, sig, at, env).pbft, d.id)
    decreases CallsLeft(stage), 0
  {
    match next
    case Prepare => BroadcastRecords(cast, d, "PREPARE", target, evidence, env);
    case Commit => BroadcastRecords(cast, d.(journal := d.journal + [("COMMIT", target, evidence)]), "COMMIT", target, evidence, env);
    case _ =>
  }

  /** One level of a broadcast, as values. */
  lemma BroadcastParts(cast: Casting, d: Desk, stage: string, target: NodeId, evidence: string, env: Env)
    returns (m: Message, d1: Desk, s: State, next: Stage)
    requires CastingOk(cast)
    ensures m == NextOwn(d, stage, target, evidence) && d1 == SendOn(d, stage, target, evidence)
    ensures (s, next) == cast(d1.pbft, m, TickOf(env)) && Follows(stage, next)
    ensures BroadcastOn(cast, d, stage, target, evidence, env)
         == ReactOn(cast, d1.(pbft := s), next, stage, target, evidence, m.signature, TickOf(env).at, RestOf(env))
  {
    m, d1 := NextOwn(d, stage, target, evidence), SendOn(d, stage, target, evidence);
    var c := cast(d1.pbft, m, TickOf(env));
    s, next := c.0, c.1;
    assert m.stage == stage;
  }

  lemma {:induction false} BroadcastRecords(cast: Casting, d: Desk, stage: string, target: NodeId, evidence: string, env: Env)
    requires KeepsRecords(cast)
    ensures SameRecords(d.pbft, BroadcastOn(cast, d, stage, target, evidence, env).pbft, d.id)
    decreases CallsLeft(stage), 1
  {
    var m, d1, s, next := BroadcastParts(cast, d, stage, target, evidence, env);
    assert SameRecords(d1.pbft, s, m.sender);
    ReactRecords(cast, d1.(pbft := s), next, stage, target, evidence, m.signature, TickOf(env).at, RestOf(env));
  }

  // ---------------------------------------------------------------- a vote that does not verify

  /** Nothing is sent, journalled or recorded, nobody's vote is counted, and a known sender has one failure more. */
  lemma RefusedVote(d: Desk, m: Message, env: Env)
    requires m.sender != d.id && !Verifies(d.pbft, m)
    ensures var d' := ProcessOn(Engine(), d, m, env);
            && d' == d.(pbft := d'.pbft) && NothingMore(d.pbft, d'.pbft)
            && (m.sender !in d.pbft.members.keys || m.sender in d.pbft.members.banned ==> d' == d)
            && (m.sender in d.pbft.members.keys && m.sender !in d.pbft.members.banned ==>
                  var f := TrustAt(d.pbft.members, m.sender).failures;
                  if f + 1 < 100 then TrustAt(d'.pbft.members, m.sender).failures == f + 1 && d'.pbft.ballots == d.pbft.ballots
                  else m.sender in d'.pbft.members.banned && m.sender !in d'.pbft.members.keys)
  {
    StaysNothingMore(d.pbft);
    FailureNothingMore(d.pbft, m.sender, TickOf(env).now);
    FailureTrust(d.pbft, m.sender, TickOf(env).now, m.sender);
  }

  // ---------------------------------------------------------------- a vote that counts

  lemma ProcessParts(d: Desk, m: Message, env: Env) returns (s: State, next: Stage)
    requires m.sender != d.id
    ensures (s, next) == CastOn(d.pbft, m, TickOf(env)) && Follows(m.stage, next)
    ensures ProcessOn(Engine(), d, m, env)
         == ReactOn(Engine(), d.(pbft := s), next, m.stage, m.target, m.evidence, RoundAt(s.ballots, Rk(m)).commitSignature,
                    TickOf(env).at, RestOf(env))
  {
    CastFollows(d.pbft, m, TickOf(env));
    var c := CastOn(d.pbft, m, TickOf(env));
    s, next := c.0, c.1;
  }

  /** The vote is on record when the call returns, and it was counted, unless taken back for want of an intersection. */
  lemma CountedVote(d: Desk, m: Message, env: Env)
    requires m.sender != d.id && Counts(d.pbft, m, TickOf(env))
    requires var h := HistoryAt(d.pbft.log, m.sender);
             |h| < 10000 || forall k :: k in h ==> k <= m.seqNo
    ensures OnRecord(ProcessOn(Engine(), d, m, env).pbft, m.sender, m.seqNo, MessageHash(m))
    ensures var s, b, q := CastOn(d.pbft, m, TickOf(env)).0, Met(d.pbft, TickOf(env)), Quorum(d.pbft.members.total);
            m.sender in Voters(s.ballots, Rk(m), m.stage) ||
            (CompletesCommit(b, q, m, Rk(m)) && !Intersects(b, q, m, Rk(m)))
  {
    var s, next := ProcessParts(d, m, env);
    var b, q := Met(d.pbft, TickOf(env)), Quorum(d.pbft.members.total);
    CastCounts(d.pbft, m, TickOf(env));
    NewestKept(HistoryAt(d.pbft.log, m.sender), m.seqNo, MessageHash(m));
    CountedIff(b, q, m, MessageHash(m), Rk(m), TickOf(env).now');
    EngineKeepsRecords();
    ReactRecords(Engine(), d.(pbft := s), next, m.stage, m.target, m.evidence, RoundAt(s.ballots, Rk(m)).commitSignature,
                 TickOf(env).at, RestOf(env));
    assert HistoryAt(ProcessOn(Engine(), d, m, env).pbft.log, m.sender) == HistoryAt(s.log, m.sender);
  }

  lemma CastReports(s: State, m: Message, tick: Tick)
    requires Counts(s, m, tick)
    ensures var b, q := Met(s, tick), Quorum(s.members.total);
            CastOn(s, m, tick).1 ==
              if OpensRound(b, m, Rk(m)) then Prepare
              else if CompletesPrepare(b, q, m, Rk(m)) then Commit
              else if CompletesCommit(b, q, m, Rk(m)) && Intersects(b, q, m, Rk(m)) then Executed
              else Idle
  {
    CastCounts(s, m, tick);
    ReportedIff(Met(s, tick), Quorum(s.members.total), m, MessageHash(m), Rk(m), tick.now');
  }

  /** The node's next vote, of this stage and for this pair. */
  predicate IsNext(m: Message, id: NodeId, lastSeq: U64, stage: string, target: NodeId, evidence: string) {
    m.stage == stage && m.sender == id && m.target == target && m.evidence == evidence && m.seqNo == (lastSeq + 1) % TWO_64
  }

  /** The votes sent go on with such a vote. */
  predicate Sends(sent: seq<Message>, sent': seq<Message>, id: NodeId, lastSeq: U64, stage: string, target: NodeId, evidence: string) {
    |sent'| > |sent| && sent <= sent' && IsNext(sent'[|sent|], id, lastSeq, stage, target, evidence)
  }

  lemma SendsFirst(sent: seq<Message>, m: Message, sent': seq<Message>, id: NodeId, lastSeq: U64, stage: string, target: NodeId, evidence: string)
    requires sent + [m] <= sent' && IsNext(m, id, lastSeq, stage, target, evidence)
    ensures Sends(sent, sent', id, lastSeq, stage, target, evidence)
  {
    assert sent'[|sent|] == (sent + [m])[|sent|];
  }

  lemma {:induction false} ReactSends(cast: Casting, d: Desk, next: Stage, stage: string, target: NodeId, evidence: string, sig: Signature, at: int, env: Env)
    requires CastingOk(cast) && Follows(stage, next)
    ensures d.sent <= ReactOn(cast, d, next, stage, target, evidence, sig, at, env).sent
    ensures d.journal <= ReactOn(cast, d, next, stage, target, evidence, sig, at, env).journal
    decreases CallsLeft(stage), 0
  {
    match next
    case Prepare => BroadcastSends(cast, d, "PREPARE", target, evidence, env);
    case Commit => BroadcastSends(cast, d.(journal := d.journal + [("COMMIT", target, evidence)]), "COMMIT", target, evidence, env);
    case _ =>
  }

  lemma {:induction false} BroadcastSends(cast: Casting, d: Desk, stage: string, target: NodeId, evidence: string, env: Env)
    requires CastingOk(cast)
    ensures var d' := BroadcastOn(cast, d, stage, target, evidence, env);
            Sends(d.sent, d'.sent, d.id, d.lastSeq, stage, target, evidence) && d.journal <= d'.journal
    decreases CallsLeft(stage), 1
  {
    var m, d1, s, next := BroadcastParts(cast, d, stage, target, evidence, env);
    ReactSends(cast, d1.(pbft := s), next, stage, target, evidence, m.signature, TickOf(env).at, RestOf(env));
    SendsFirst(d.sent, m, BroadcastOn(cast, d, stage, target, evidence, env).sent, d.id, d.lastSeq, stage, target, evidence);
  }

  lemma CastRound(s: State, m: Message, tick: Tick)
    requires Counts(s, m, tick) && m.sender !in Voters(Met(s, tick), Rk(m), m.stage)
    ensures var (s', stage) := CastOn(s, m, tick);
            && RoundAt(s'.ballots, Rk(m)).commitSignature == RoundAt(Met(s, tick), Rk(m)).commitSignature
            && (stage != Idle ==> RoundAt(s'.ballots, Rk(m)).state == stage)
  {
    CastCounts(s, m, tick);
    RoundAfter(Met(s, tick), Quorum(s.members.total), m, MessageHash(m), Rk(m), tick.now');
  }

  lemma OpensProcess(d: Desk, m: Message, env: Env) returns (s: State)
    requires m.sender != d.id && Counts(d.pbft, m, TickOf(env)) && OpensRound(Met(d.pbft, TickOf(env)), m, Rk(m))
    ensures ProcessOn(Engine(), d, m, env) == BroadcastOn(Engine(), d.(pbft := s), "PREPARE", m.target, m.evidence, RestOf(env))
  {
    var next;
    s, next := ProcessParts(d, m, env);
    CastReports(d.pbft, m, TickOf(env));
  }

  lemma PreparesProcess(d: Desk, m: Message, env: Env) returns (s: State)
    requires m.sender != d.id && Counts(d.pbft, m, TickOf(env))
    requires CompletesPrepare(Met(d.pbft, TickOf(env)), Quorum(d.pbft.members.total), m, Rk(m))
    ensures ProcessOn(Engine(), d, m, env)
         == BroadcastOn(Engine(), d.(pbft := s, journal := d.journal + [("COMMIT", m.target, m.evidence)]), "COMMIT", m.target, m.evidence, RestOf(env))
  {
    var next;
    s, next := ProcessParts(d, m, env);
    CastReports(d.pbft, m, TickOf(env));
  }

  lemma CommitsProcess(d: Desk, m: Message, env: Env) returns (s: State, sig: Signature)
    requires m.sender != d.id && Counts(d.pbft, m, TickOf(env))
    requires var b, q := Met(d.pbft, TickOf(env)), Quorum(d.pbft.members.total);
             CompletesCommit(b, q, m, Rk(m)) && Intersects(b, q, m, Rk(m))
    ensures ProcessOn(Engine(), d, m, env) == ExecuteOn(d.(pbft := s), "COMMIT", m.target, m.evidence, sig, TickOf(env).at)
    ensures RoundAt(s.ballots, Rk(m)).state == Executed && sig == RoundAt(Met(d.pbft, TickOf(env)), Rk(m)).commitSignature
  {
    var next;
    s, next := ProcessParts(d, m, env);
    CastReports(d.pbft, m, TickOf(env));
    CastRound(d.pbft, m, TickOf(env));
    sig := RoundAt(s.ballots, Rk(m)).commitSignature;
  }

  /** A proposal for a round that has not begun is answered with a PREPARE for its pair. */
  lemma ProposalAnswered(d: Desk, m: Message, env: Env)
    requires m.sender != d.id && Counts(d.pbft, m, TickOf(env)) && OpensRound(Met(d.pbft, TickOf(env)), m, Rk(m))
    ensures Sends(d.sent, ProcessOn(Engine(), d, m, env).sent, d.id, d.lastSeq, "PREPARE", m.target, m.evidence)
  {
    var s := OpensProcess(d, m, env);
    BroadcastSends(Engine(), d.(pbft := s), "PREPARE", m.target, m.evidence, RestOf(env));
  }

  /** A PREPARE that completes the quorum is journalled and answered with a COMMIT. */
  lemma PrepareAnswered(d: Desk, m: Message, env: Env)
    requires m.sender != d.id && Counts(d.pbft, m, TickOf(env))
    requires CompletesPrepare(Met(d.pbft, TickOf(env)), Quorum(d.pbft.members.total), m, Rk(m))
    ensures var d' := ProcessOn(Engine(), d, m, env);
            Sends(d.sent, d'.sent, d.id, d.lastSeq, "COMMIT", m.target, m.evidence) && d.journal + [("COMMIT", m.target, m.evidence)] <= d'.journal
  {
    var s := PreparesProcess(d, m, env);
    var d1 := d.(pbft := s, journal := d.journal + [("COMMIT", m.target, m.evidence)]);
    BroadcastSends(Engine(), d1, "COMMIT", m.target, m.evidence, RestOf(env));
  }

  lemma ExecuteFacts(d: Desk, target: NodeId, evidence: string, sig: Signature, at: int)
    ensures var d', ban := ExecuteOn(d, "COMMIT", target, evidence, sig, at), Contains(evidence, "\"action\":\"ban\"");
            && d'.sent == d.sent && d'.pbft.ballots == d.pbft.ballots
            && (ban ==> && target in d'.pbft.members.banned && d'.entries == d.entries
                        && d'.journal == d.journal + [("BAN_PEER_EXECUTED", target, evidence)])
            && (!ban && d.peers >= 1 ==>
                  && d'.entries == d.entries + [ProofChain.Entry(ProofChain.ConsensusReached, target, evidence, sig, at)]
                  && d'.journal == d.journal + [("EXECUTED", target, evidence)])
            && (!ban && d.peers < 1 ==> d'.entries == d.entries && d'.journal == d.journal)
  {
  }

  /**
   A COMMIT that completes an intersecting quorum, with a peer present and not for a ban: exactly one decision is
   journalled and recorded, with the signature this node stored for the round. A ban round bans.
   */
  lemma CommitAnswered(d: Desk, m: Message, env: Env)
    requires m.sender != d.id && Counts(d.pbft, m, TickOf(env))
    requires var b, q := Met(d.pbft, TickOf(env)), Quorum(d.pbft.members.total);
             CompletesCommit(b, q, m, Rk(m)) && Intersects(b, q, m, Rk(m))
    ensures var d', ban := ProcessOn(Engine(), d, m, env), Contains(m.evidence, "\"action\":\"ban\"");
            var sig := RoundAt(Met(d.pbft, TickOf(env)), Rk(m)).commitSignature;
            && d'.sent == d.sent && RoundAt(d'.pbft.ballots, Rk(m)).state == Executed
            && (ban ==> && m.target in d'.pbft.members.banned && d'.entries == d.entries
                        && d'.journal == d.journal + [("BAN_PEER_EXECUTED", m.target, m.evidence)])
            && (!ban && d.peers >= 1 ==>
                  && d'.entries == d.entries + [ProofChain.Entry(ProofChain.ConsensusReached, m.target, m.evidence, sig, TickOf(env).at)]
                  && d'.journal == d.journal + [("EXECUTED", m.target, m.evidence)])
            && (!ban && d.peers < 1 ==> d'.entries == d.entries && d'.journal == d.journal)
  {
    var s, sig := CommitsProcess(d, m, env);
    ExecuteFacts(d.(pbft := s), m.target, m.evidence, sig, TickOf(env).at);
  }

  /** Any other vote that counts is answered with nothing. */
  lemma OthersUnanswered(d: Desk, m: Message, env: Env)
    requires m.sender != d.id && Counts(d.pbft, m, TickOf(env))
    requires var b, q := Met(d.pbft, TickOf(env)), Quorum(d.pbft.members.total);
             && !OpensRound(b, m, Rk(m)) && !CompletesPrepare(b, q, m, Rk(m))
             && !(CompletesCommit(b, q, m, Rk(m)) && Intersects(b, q, m, Rk(m)))
    ensures var d' := ProcessOn(Engine(), d, m, env); d' == d.(pbft := d'.pbft)
  {
    var s, next := ProcessParts(d, m, env);
    CastReports(d.pbft, m, TickOf(env));
  }

  /** A proposed ban starts with a PRE_PREPARE for the marked evidence, and is in force and journalled when the call returns. */
  lemma BanProposed(d: Desk, target: NodeId, reason: string, env: Env)
    requires target != "" && target != d.id
    ensures var d' := ProposeBanOn(Engine(), d, target, reason, env);
            && Sends(d.sent, d'.sent, d.id, d.lastSeq, "PRE_PREPARE", target, BanEvidence(reason)) && target in d'.pbft.members.banned
            && (target !in BroadcastOn(Engine(), d, "PRE_PREPARE", target, BanEvidence(reason), env).pbft.members.banned ==>
                  d'.journal != [] && d'.journal[|d'.journal| - 1] == ("BAN_PEER_LOCAL", target, reason))
  {
    BroadcastSends(Engine(), d, "PRE_PREPARE", target, BanEvidence(reason), env);
  }
}
