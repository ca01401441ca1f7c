/** Bans are for the lifetime of the process. */
module PbftBans {
  import opened Symbolic
  import opened Pbft
  import opened PbftRegistry

  /** Nothing of `id` entered the ballots or the histories between the two states. */
  ghost predicate NothingAdded(s: State, s': State, id: NodeId) {
    && (forall rk, stage :: id in Voters(s'.ballots, rk, stage) ==> id in Voters(s.ballots, rk, stage))
    && (id in s'.log.history ==> id in s.log.history && s'.log.history[id] == s.log.history[id])
  }

  /** Neither a vote nor a history of `id` is left. */
  ghost predicate Absent(s: State, id: NodeId) {
    && (forall rk, stage :: id !in Voters(s.ballots, rk, stage))
    && id !in s.log.history
  }

  lemma NothingAddedTransitive(s: State, s': State, s'': State, id: NodeId)
    requires NothingAdded(s, s', id) && NothingAdded(s', s'', id)
    ensures NothingAdded(s, s'', id)
  {
  }

  lemma RecordFailureAdds(s: State, sender: NodeId, now: int, id: NodeId)
    ensures NothingAdded(s, RecordFailure(s, sender, now), id)
    ensures s.members.banned <= RecordFailure(s, sender, now).members.banned
  {
    var s' := RecordFailure(s, sender, now);
    forall rk, stage ensures id in Voters(s'.ballots, rk, stage) ==> id in Voters(s.ballots, rk, stage) {
      EraseVoterVoters(s.ballots, sender, rk, stage);
    }
  }

  lemma SweptAdds(s: State, sender: NodeId, now: int, id: NodeId)
    ensures NothingAdded(s, Swept(s, sender, now), id)
  {
    forall rk, stage
      ensures id in Voters(Swept(s, sender, now).ballots, rk, stage) ==> id in Voters(s.ballots, rk, stage)
    {
      CleanupVoters(s.ballots, now, rk, stage);
    }
  }

  lemma AdmittedAdds(s: State, m: Message, mh: Str, rk: Str, now: int, dropped: set<Str>, id: NodeId)
    requires m.sender != id
    ensures NothingAdded(s, Admitted(s, m, mh, rk, now, dropped).0, id)
    ensures Admitted(s, m, mh, rk, now, dropped).0.members.banned == s.members.banned
  {
    AdmittedFrame(s, m, mh, rk, now, dropped);
    var s' := Admitted(s, m, mh, rk, now, dropped).0;
    forall rk', stage ensures id in Voters(s'.ballots, rk', stage) ==> id in Voters(s.ballots, rk', stage) {
      CountVoteVoters(s.ballots, Quorum(s.members.total), m, mh, rk, now, rk', stage);
    }
  }

  lemma AdvanceAdds(s: State, m: Message, mh: Str, rk: Str, now: int, dropped: set<Str>, id: NodeId)
    requires id in s.members.banned
    ensures NothingAdded(s, Advance(s, m, mh, rk, now, dropped).0, id)
    ensures id in Advance(s, m, mh, rk, now, dropped).0.members.banned
  {
    if m.sender in s.members.keys && m.sender !in s.members.banned {
      var s1 := Swept(s, m.sender, now);
      SweptAdds(s, m.sender, now, id);
      if RateAdmits(s, m.sender, now) {
        AdmittedAdds(s1, m, mh, rk, now, dropped, id);
      } else {
        RecordFailureAdds(s1, m.sender, now, id);
      }
      NothingAddedTransitive(s, s1, Advance(s, m, mh, rk, now, dropped).0, id);
    }
  }

  lemma StepAdds(s: State, op: Op, id: NodeId)
    requires id in s.members.banned
    ensures id in Step(s, op).members.banned && NothingAdded(s, Step(s, op), id)
  {
    match op
    case AdvanceOp(m, mh, rk, now, dropped) => AdvanceAdds(s, m, mh, rk, now, dropped, id);
    case VerifyOp(m, now) => RecordFailureAdds(s, m.sender, now, id);
    case PruneOp(other) =>
      forall rk, stage
        ensures id in Voters(Prune(s, other).ballots, rk, stage) ==> id in Voters(s.ballots, rk, stage)
      {
        EraseVoterVoters(s.ballots, other, rk, stage);
      }
    case _ =>
  }

  /**
   Once an id is banned, no later sequence of calls, re-registration included, unbans it or adds it
   to any voter set or message history, and an advance_state from it changes nothing.
   */
  lemma {:induction false} BanIsPermanent(s: State, ops: seq<Op>, id: NodeId)
    requires id in s.members.banned
    ensures id in Run(s, ops).members.banned
    ensures NothingAdded(s, Run(s, ops), id)
    ensures forall m: Message, mh, rk, now, dropped :: m.sender == id ==>
              Advance(Run(s, ops), m, mh, rk, now, dropped) == (Run(s, ops), Idle)
  {
    if ops != [] {
      var before := ops[..|ops| - 1];
      BanIsPermanent(s, before, id);
      StepAdds(Run(s, before), ops[|ops| - 1], id);
      NothingAddedTransitive(s, Run(s, before), Run(s, ops), id);
    }
  }

  // ---------------------------------------------------------------- auto-bans

  lemma RecordFailureBans(s: State, sender: NodeId, now: int, id: NodeId)
    requires id !in s.members.banned && id in RecordFailure(s, sender, now).members.banned
    ensures id == sender && TrustAt(s.members, id).failures + 1 >= AUTO_PRUNE_FAILURES
    ensures Absent(RecordFailure(s, sender, now), id) && id !in RecordFailure(s, sender, now).members.keys
  {
    var s' := RecordFailure(s, sender, now);
    forall rk, stage ensures id !in Voters(s'.ballots, rk, stage) {
      EraseVoterVoters(s.ballots, sender, rk, stage);
    }
  }

  /** A ban that verify_message or advance_state imposes leaves neither key, vote nor history behind. */
  lemma AutoBanErases(s: State, op: Op, id: NodeId)
    requires op.VerifyOp? || op.AdvanceOp?
    requires id !in s.members.banned && id in Step(s, op).members.banned
    ensures id == op.m.sender && id in s.members.keys
    ensures Absent(Step(s, op), id) && id !in Step(s, op).members.keys
  {
    match op
    case VerifyOp(m, now) => RecordFailureBans(s, m.sender, now, id);
    case AdvanceOp(m, mh, rk, now, dropped) =>
      var s1 := Swept(s, m.sender, now);
      if RateAdmits(s, m.sender, now) {
        AdmittedFrame(s1, m, mh, rk, now, dropped);
        assert false;
      }
      RecordFailureBans(s1, m.sender, now, id);
  }

  /** After an auto-ban the id is in no voter set and has no history in any later state. */
  lemma AutoBannedStaysAbsent(s: State, op: Op, later: seq<Op>, id: NodeId)
    requires op.VerifyOp? || op.AdvanceOp?
    requires id !in s.members.banned && id in Step(s, op).members.banned
    ensures Absent(Run(Step(s, op), later), id)
  {
    AutoBanErases(s, op, id);
    BanIsPermanent(Step(s, op), later, id);
  }
}
