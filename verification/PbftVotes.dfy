/** What one vote does to its round, case by case and in terms of who has voted. */
module PbftVotes {
  import opened Symbolic
  import opened RateLimit
  import opened Pbft
  import opened PbftRegistry
  import opened PbftRounds

  /** The voters once this vote is in. */
  function WithVote(b: Ballots, m: Message, rk: Str): set<NodeId> { Voters(b, rk, m.stage) + {m.sender} }

  predicate Proposes(m: Message) { m.stage == "PRE_PREPARE" || m.stage == "BAN_PEER" }

  /** A vote that is new for its round and stage, and of the round's view unless the round has not begun. */
  predicate Valid(b: Ballots, m: Message, rk: Str) {
    m.sender !in Voters(b, rk, m.stage) && (RoundAt(b, rk).state == Idle || RoundAt(b, rk).view == m.view)
  }

  predicate OpensRound(b: Ballots, m: Message, rk: Str) {
    Valid(b, m, rk) && Proposes(m) && RoundAt(b, rk).state == Idle
  }

  predicate CompletesPrepare(b: Ballots, quorum: int, m: Message, rk: Str) {
    Valid(b, m, rk) && m.stage == "PREPARE" && RoundAt(b, rk).state == Prepare && |WithVote(b, m, rk)| >= quorum
  }

  predicate CompletesCommit(b: Ballots, quorum: int, m: Message, rk: Str) {
    Valid(b, m, rk) && m.stage == "COMMIT" && RoundAt(b, rk).state == Commit && |WithVote(b, m, rk)| >= quorum
  }

  /** Enough of those who committed, this vote included, had prepared; or there was no PREPARE quorum to compare with. */
  predicate Intersects(b: Ballots, quorum: int, m: Message, rk: Str) {
    |Voters(b, rk, "PREPARE")| < quorum || |Voters(b, rk, "PREPARE") * WithVote(b, m, rk)| >= quorum
  }

  lemma IntersectInserted(b: Ballots, quorum: int, m: Message, mh: Str, rk: Str, now: int)
    requires m.stage == "COMMIT" && quorum >= 1
    ensures QuorumsIntersect(Insert(b, m, mh, rk, now), quorum, rk) <==> Intersects(b, quorum, m, rk)
  {
    var b1 := Insert(b, m, mh, rk, now);
    InsertVoters(b, m, mh, rk, now, rk, "PREPARE");
    InsertVoters(b, m, mh, rk, now, rk, "COMMIT");
    var v := VotesAt(b1, rk);
    assert "COMMIT" in v && v["COMMIT"] == WithVote(b, m, rk);
    assert "PREPARE" in v ==> v["PREPARE"] == Voters(b, rk, "PREPARE");
  }

  /** The stage that a vote brings its round to, in all cases. */
  lemma ReportedIff(b: Ballots, quorum: int, m: Message, mh: Str, rk: Str, now: int)
    requires quorum >= 1
    ensures CountVote(b, quorum, m, mh, rk, now).1 ==
              if OpensRound(b, m, rk) then Prepare
              else if CompletesPrepare(b, quorum, m, rk) then Commit
              else if CompletesCommit(b, quorum, m, rk) && Intersects(b, quorum, m, rk) then Executed
              else Idle
  {
    var b1 := Insert(b, m, mh, rk, now);
    InsertRound(b, m, mh, rk, now, rk);
    InsertVoters(b, m, mh, rk, now, rk, m.stage);
    if m.stage == "COMMIT" { IntersectInserted(b, quorum, m, mh, rk, now); }
  }

  /** What the transition makes of the inserted vote. */
  lemma TransitionKeeps(b1: Ballots, quorum: int, m: Message, rk: Str)
    ensures Voters(Transition(b1, quorum, m, rk), rk, m.stage) ==
              if RollsBack(b1, quorum, m.stage, rk) then Voters(b1, rk, m.stage) - {m.sender} else Voters(b1, rk, m.stage)
  {
    SetVotersVoters(b1, rk, m.stage, Voters(b1, rk, m.stage) - {m.sender}, rk, m.stage);
  }

  lemma RollsBackInserted(b: Ballots, quorum: int, m: Message, mh: Str, rk: Str, now: int)
    requires quorum >= 1 && Valid(b, m, rk)
    ensures RollsBack(Insert(b, m, mh, rk, now), quorum, m.stage, rk) <==>
              CompletesCommit(b, quorum, m, rk) && !Intersects(b, quorum, m, rk)
  {
    InsertRound(b, m, mh, rk, now, rk);
    InsertVoters(b, m, mh, rk, now, rk, m.stage);
    if m.stage == "COMMIT" { IntersectInserted(b, quorum, m, mh, rk, now); }
  }

  /** Who has voted afterwards: one more, unless the vote was there already or is taken back for want of an intersection. */
  lemma CountedIff(b: Ballots, quorum: int, m: Message, mh: Str, rk: Str, now: int)
    requires quorum >= 1
    ensures Voters(CountVote(b, quorum, m, mh, rk, now).0, rk, m.stage) ==
              if CompletesCommit(b, quorum, m, rk) && !Intersects(b, quorum, m, rk) then Voters(b, rk, m.stage)
              else WithVote(b, m, rk)
  {
    var b1 := Insert(b, m, mh, rk, now);
    InsertRound(b, m, mh, rk, now, rk);
    InsertVoters(b, m, mh, rk, now, rk, m.stage);
    if m.sender in Voters(b, rk, m.stage) {
      assert WithVote(b, m, rk) == Voters(b, rk, m.stage);
    } else if Valid(b, m, rk) {
      TransitionKeeps(b1, quorum, m, rk);
      RollsBackInserted(b, quorum, m, mh, rk, now);
      assert WithVote(b, m, rk) - {m.sender} == Voters(b, rk, m.stage);
    }
  }

  /** The round afterwards: begun by the first vote, active now if the view agrees, and moved to the reported stage. */
  lemma RoundAfter(b: Ballots, quorum: int, m: Message, mh: Str, rk: Str, now: int)
    ensures var (b', stage) := CountVote(b, quorum, m, mh, rk, now);
            var r, r' := RoundAt(b, rk), RoundAt(b', rk);
            && (m.sender in Voters(b, rk, m.stage) ==> b' == b)
            && (m.sender !in Voters(b, rk, m.stage) ==>
                  && (r.state == Idle ==> r'.startedAt == now && r'.view == m.view && r'.prePrepareHash == mh && r'.evidenceKey == rk)
                  && (r.state != Idle ==> r'.startedAt == r.startedAt && r'.view == r.view && r'.prePrepareHash == r.prePrepareHash
                                          && r'.evidenceKey == r.evidenceKey)
                  && r'.lastActivity == (if r.state == Idle || r.view == m.view then now else r.lastActivity)
                  && r'.state == (if stage != Idle then stage else r.state)
                  && r'.commitSignature == r.commitSignature)
  {
    InsertRound(b, m, mh, rk, now, rk);
    TransitionRound(Insert(b, m, mh, rk, now), quorum, m, rk, rk);
  }

  /** A vote taken back leaves all voters as they were, so that its sender can vote again. */
  lemma RolledBack(b: Ballots, quorum: int, m: Message, mh: Str, rk: Str, now: int, rk': Str, stage: string)
    requires quorum >= 1 && CompletesCommit(b, quorum, m, rk) && !Intersects(b, quorum, m, rk)
    ensures var (b', next) := CountVote(b, quorum, m, mh, rk, now);
            next == Idle && RoundAt(b', rk).state == Commit && Voters(b', rk', stage) == Voters(b, rk', stage)
  {
    ReportedIff(b, quorum, m, mh, rk, now);
    RoundAfter(b, quorum, m, mh, rk, now);
    CountedIff(b, quorum, m, mh, rk, now);
    CountVoteVoters(b, quorum, m, mh, rk, now, rk', stage);
  }

  // ---------------------------------------------------------------- stale rounds

  /** After the sweep no round, in whatever stage, has been idle for more than 120 seconds, and no vote is left for one that was. */
  lemma SweepExact(b: Ballots, now: int, rk: Str)
    ensures var b' := Cleanup(b, now);
            && (rk in b'.rounds <==> rk in b.rounds && Seconds(now - b.rounds[rk].lastActivity) <= 120)
            && (rk in b'.rounds ==> b'.rounds[rk] == b.rounds[rk])
            && (rk in b.rounds && rk !in b'.rounds ==> forall stage :: Voters(b', rk, stage) == {})
            && (rk !in b.rounds || rk in b'.rounds ==> forall stage :: Voters(b', rk, stage) == Voters(b, rk, stage))
  {
  }

  lemma AdvanceSweeps(s: State, m: Message, mh: Str, rk: Str, now: int, dropped: set<Str>)
    requires m.sender in s.members.keys && m.sender !in s.members.banned
    ensures var b', swept := Advance(s, m, mh, rk, now, dropped).0.ballots, Cleanup(s.ballots, now);
            || b'.rounds == swept.rounds
            || b' == CountVote(swept, Quorum(s.members.total), m, mh, rk, now).0
  {
    if RateAdmits(s, m.sender, now) { AdmittedFrame(Swept(s, m.sender, now), m, mh, rk, now, dropped); }
  }

  lemma CountVoteFresh(b: Ballots, quorum: int, m: Message, mh: Str, rk: Str, now: int, rk': Str)
    requires rk' in CountVote(b, quorum, m, mh, rk, now).0.rounds
    ensures var r := CountVote(b, quorum, m, mh, rk, now).0.rounds[rk'];
            r.lastActivity == now || (rk' in b.rounds && r.lastActivity == b.rounds[rk'].lastActivity)
  {
    CountVoteRound(b, quorum, m, mh, rk, now, rk');
    RoundAfter(b, quorum, m, mh, rk, now);
  }

  /** Every advance_state for a registered sender that is not banned leaves no such round, executed or not. */
  lemma NothingStale(s: State, m: Message, mh: Str, rk: Str, now: int, dropped: set<Str>, rk': Str)
    requires m.sender in s.members.keys && m.sender !in s.members.banned
    requires rk' in Advance(s, m, mh, rk, now, dropped).0.ballots.rounds
    ensures Seconds(now - Advance(s, m, mh, rk, now, dropped).0.ballots.rounds[rk'].lastActivity) <= 120
  {
    var b', swept := Advance(s, m, mh, rk, now, dropped).0.ballots, Cleanup(s.ballots, now);
    AdvanceSweeps(s, m, mh, rk, now, dropped);
    SweepExact(s.ballots, now, rk');
    if b'.rounds != swept.rounds { CountVoteFresh(swept, Quorum(s.members.total), m, mh, rk, now, rk'); }
  }
}
