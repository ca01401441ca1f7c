/** What every locked method keeps true across the engine's registries. */
module PbftRegistry {
  import opened Symbolic
  import opened Pbft

  ghost predicate MembersOk(g: Members) {
    && g.total >= 1
    && g.trust.Keys == g.keys.Keys
    && g.keys.Keys <= g.registered
    && forall id :: id in g.trust ==> 0 <= g.trust[id].score <= TRUST_FULL
  }

  ghost predicate BallotsOk(b: Ballots, ids: set<NodeId>) {
    && b.votes.Keys <= b.rounds.Keys
    && forall rk, stage :: Voters(b, rk, stage) <= ids
  }

  ghost predicate LogOk(l: Log, ids: set<NodeId>) {
    && l.history.Keys <= ids
    && forall id :: id in l.history ==> l.history[id] != map[] && |l.history[id]| <= MAX_MSG_HISTORY_PER_SENDER
  }

  /** Trust and keys have one domain, inside the registered set; voters and history owners have keys. */
  ghost predicate Consistent(s: State) {
    && MembersOk(s.members)
    && BallotsOk(s.ballots, s.members.keys.Keys)
    && LogOk(s.log, s.members.keys.Keys)
  }

  // ---------------------------------------------------------------- message histories

  lemma {:induction false} EvictOldestKeepsNewest(h: map<U64, Str>)
    ensures var r := EvictOldest(h);
            && r.Keys <= h.Keys
            && (forall k :: k in r ==> r[k] == h[k])
            && |r| == (if |h| <= MAX_MSG_HISTORY_PER_SENDER then |h| else MAX_MSG_HISTORY_PER_SENDER)
            && (forall gone, kept :: gone in h && gone !in r && kept in r ==> gone < kept)
    decreases |h|
  {
    if |h| > MAX_MSG_HISTORY_PER_SENDER {
      var k := SmallestKey(h);
      RemoveKeySize(h, k);
      EvictOldestKeepsNewest(h - {k});
    }
  }

  /** The largest sequence number survives eviction. */
  lemma LargestSurvives(h: map<U64, Str>, k: U64)
    requires IsLargest(k, h)
    ensures IsLargest(k, EvictOldest(h))
  {
    EvictOldestKeepsNewest(h);
    var r := EvictOldest(h);
    assert |h| >= 1 by { assert h.Keys != {}; }
    assert r.Keys != {} by { assert |r.Keys| >= 1; }
    var kept :| kept in r;
    assert k in r;
  }

  lemma NewHistoryBounded(h: map<U64, Str>, seqNo: U64, mh: Str)
    ensures var r := EvictOldest(h[seqNo := mh]);
            r != map[] && |r| <= MAX_MSG_HISTORY_PER_SENDER
  {
    var h' := h[seqNo := mh];
    EvictOldestKeepsNewest(h');
    assert |h'| >= 1 by { assert h'.Keys != {}; }
  }

  // ---------------------------------------------------------------- each component keeps its part

  lemma EraseVoterVoters(b: Ballots, id: NodeId, rk: Str, stage: string)
    ensures Voters(b.(votes := EraseVoter(b.votes, id)), rk, stage) == Voters(b, rk, stage) - {id}
  {
  }

  lemma PruneConsistent(s: State, id: NodeId)
    requires Consistent(s)
    ensures Consistent(Prune(s, id))
  {
    forall rk, stage ensures Voters(Prune(s, id).ballots, rk, stage) <= s.members.keys.Keys - {id} {
      EraseVoterVoters(s.ballots, id, rk, stage);
    }
  }

  lemma RecordFailureConsistent(s: State, id: NodeId, now: int)
    requires Consistent(s) && id in s.members.keys
    ensures Consistent(RecordFailure(s, id, now))
  {
    var t := FailedTrust(TrustAt(s.members, id), now);
    var s1 := s.(members := SetTrust(s.members, id, t));
    assert Consistent(s1);
    PruneConsistent(s1.(members := s1.members.(banned := s1.members.banned + {id},
                                               recentBans := s1.members.recentBans + {id})), id);
  }

  lemma VerifyConsistent(s: State, id: NodeId, verifies: bool, now: int)
    requires Consistent(s)
    ensures Consistent(VerifyAs(s, id, verifies, now))
  {
    if id !in s.members.banned && id in s.members.keys {
      RecordFailureConsistent(s, id, now);
    }
  }

  lemma CleanupVoters(b: Ballots, now: int, rk: Str, stage: string)
    ensures Voters(Cleanup(b, now), rk, stage) == if rk in StaleKeys(b, now) then {} else Voters(b, rk, stage)
  {
  }

  lemma SweptConsistent(s: State, id: NodeId, now: int)
    requires Consistent(s)
    ensures Consistent(Swept(s, id, now))
  {
    forall rk, stage ensures Voters(Cleanup(s.ballots, now), rk, stage) <= s.members.keys.Keys {
      CleanupVoters(s.ballots, now, rk, stage);
    }
  }

  lemma DetectEquivocationConsistent(s: State, m: Message, mh: Str, now: int)
    requires Consistent(s) && m.sender in s.members.keys
    ensures Consistent(DetectEquivocation(s, m, mh, now))
  {
    NewHistoryBounded(HistoryAt(s.log, m.sender), m.seqNo, mh);
  }

  lemma SetVotersVoters(b: Ballots, rk: Str, stage: string, voters: set<NodeId>, rk': Str, stage': string)
    ensures Voters(SetVoters(b, rk, stage, voters), rk', stage')
         == if rk' == rk && stage' == stage then voters else Voters(b, rk', stage')
  {
  }

  lemma InsertVoters(b: Ballots, m: Message, mh: Str, rk: Str, now: int, rk': Str, stage: string)
    ensures Voters(Insert(b, m, mh, rk, now), rk', stage)
         == Voters(b, rk', stage) + if rk' == rk && stage == m.stage then {m.sender} else {}
    ensures RoundAt(Insert(b, m, mh, rk, now), rk').state == RoundAt(b, rk').state
  {
  }

  lemma TransitionVoters(b: Ballots, quorum: int, m: Message, rk: Str, rk': Str, stage: string)
    ensures var b' := Transition(b, quorum, m, rk);
            if rk' == rk && stage == m.stage
            then Voters(b, rk, stage) - {m.sender} <= Voters(b', rk, stage) <= Voters(b, rk, stage)
            else Voters(b', rk', stage) == Voters(b, rk', stage)
  {
    SetVotersVoters(b, rk, m.stage, Voters(b, rk, m.stage) - {m.sender}, rk', stage);
  }

  /** Counting a vote touches one voter set and adds nobody but the sender. */
  lemma CountVoteVoters(b: Ballots, quorum: int, m: Message, mh: Str, rk: Str, now: int, rk': Str, stage: string)
    ensures var b' := CountVote(b, quorum, m, mh, rk, now).0;
            if rk' == rk && stage == m.stage
            then Voters(b, rk, stage) <= Voters(b', rk, stage) <= Voters(b, rk, stage) + {m.sender}
            else Voters(b', rk', stage) == Voters(b, rk', stage)
  {
    InsertVoters(b, m, mh, rk, now, rk', stage);
    TransitionVoters(Insert(b, m, mh, rk, now), quorum, m, rk, rk', stage);
  }

  lemma InsertKeys(b: Ballots, m: Message, mh: Str, rk: Str, now: int)
    ensures var b' := Insert(b, m, mh, rk, now);
            b'.rounds.Keys == b.rounds.Keys + {rk} && b'.votes.Keys == b.votes.Keys + {rk}
  {
  }

  lemma TransitionKeys(b: Ballots, quorum: int, m: Message, rk: Str)
    ensures var b' := Transition(b, quorum, m, rk);
            && b.rounds.Keys <= b'.rounds.Keys <= b.rounds.Keys + {rk}
            && b.votes.Keys <= b'.votes.Keys <= b.votes.Keys + {rk}
  {
  }

  lemma CountVoteRounds(b: Ballots, quorum: int, m: Message, mh: Str, rk: Str, now: int)
    ensures var b' := CountVote(b, quorum, m, mh, rk, now).0;
            && b.rounds.Keys <= b'.rounds.Keys
            && b'.votes.Keys <= b.votes.Keys + {rk}
            && (b' != b ==> rk in b'.rounds)
  {
    InsertKeys(b, m, mh, rk, now);
    TransitionKeys(Insert(b, m, mh, rk, now), quorum, m, rk);
  }

  lemma CountVoteOk(b: Ballots, quorum: int, m: Message, mh: Str, rk: Str, now: int, ids: set<NodeId>)
    requires BallotsOk(b, ids) && m.sender in ids
    ensures BallotsOk(CountVote(b, quorum, m, mh, rk, now).0, ids)
  {
    CountVoteRounds(b, quorum, m, mh, rk, now);
    var b' := CountVote(b, quorum, m, mh, rk, now).0;
    forall rk', stage ensures Voters(b', rk', stage) <= ids {
      CountVoteVoters(b, quorum, m, mh, rk, now, rk', stage);
    }
  }

  /** What an admitted message can change: its sender's trust and history, the seen set, and the ballots. */
  lemma AdmittedFrame(s: State, m: Message, mh: Str, rk: Str, now: int, dropped: set<Str>)
    ensures var (s', stage) := Admitted(s, m, mh, rk, now, dropped);
            var c := CountVote(s.ballots, Quorum(s.members.total), m, mh, rk, now);
            || (s' == s && stage == Idle)
            || (&& s' == s.(members := s'.members, log := s'.log, ballots := c.0)
                && stage == c.1
                && s'.members == s.members.(trust := s'.members.trust)
                && s'.log.rateLimits == s.log.rateLimits
                && s'.log.history == s.log.history[m.sender := EvictOldest(HistoryAt(s.log, m.sender)[m.seqNo := mh])])
  {
    var s1 := s.(log := s.log.(seen := EvictSeen(s.log.seen + {mh}, dropped)));
    var s2 := DetectEquivocation(s1, m, mh, now);
    assert s2.members == s.members.(trust := s2.members.trust);
  }

  lemma AdmittedConsistent(s: State, m: Message, mh: Str, rk: Str, now: int, dropped: set<Str>)
    requires Consistent(s) && m.sender in s.members.keys
    ensures Consistent(Admitted(s, m, mh, rk, now, dropped).0)
  {
    var s1 := s.(log := s.log.(seen := EvictSeen(s.log.seen + {mh}, dropped)));
    DetectEquivocationConsistent(s1, m, mh, now);
    var s2 := DetectEquivocation(s1, m, mh, now);
    CountVoteOk(s2.ballots, Quorum(s2.members.total), m, mh, rk, now, s2.members.keys.Keys);
  }

  lemma AdvanceConsistent(s: State, m: Message, mh: Str, rk: Str, now: int, dropped: set<Str>)
    requires Consistent(s)
    ensures Consistent(Advance(s, m, mh, rk, now, dropped).0)
  {
    if m.sender !in s.members.banned && m.sender in s.members.keys {
      SweptConsistent(s, m.sender, now);
      RecordFailureConsistent(Swept(s, m.sender, now), m.sender, now);
      AdmittedConsistent(Swept(s, m.sender, now), m, mh, rk, now, dropped);
    }
  }

  lemma StepConsistent(s: State, op: Op)
    requires Consistent(s)
    ensures Consistent(Step(s, op))
  {
    match op
    case VerifyOp(m, now) => VerifyConsistent(s, m.sender, Verifies(s, m), now);
    case AdvanceOp(m, mh, rk, now, dropped) => AdvanceConsistent(s, m, mh, rk, now, dropped);
    case PruneOp(id) => PruneConsistent(s, id);
    case CommitSigOp(rk, sig) =>
      assert forall rk', stage :: Voters(Step(s, op).ballots, rk', stage) == Voters(s.ballots, rk', stage);
    case _ =>
      assert MembersOk(Step(s, op).members);
      assert Step(s, op).ballots == s.ballots;
  }

  /** The registries agree in every reachable state. */
  lemma {:induction false} RunConsistent(s: State, ops: seq<Op>)
    requires Consistent(s)
    ensures Consistent(Run(s, ops))
  {
    if ops != [] {
      RunConsistent(s, ops[..|ops| - 1]);
      StepConsistent(Run(s, ops[..|ops| - 1]), ops[|ops| - 1]);
    }
  }

  lemma ReachableConsistent(total: int, rateWindow: int, rateMax: int, ops: seq<Op>)
    requires total >= 1
    ensures Consistent(Run(InitialState(total, rateWindow, rateMax), ops))
  {
    RunConsistent(InitialState(total, rateWindow, rateMax), ops);
  }
}
