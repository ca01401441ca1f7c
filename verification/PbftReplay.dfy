/** A message moves a round at most once, however often it comes and whatever happens in between. */
module PbftReplay {
  import opened Symbolic
  import opened Pbft
  import opened PbftRegistry

  /** advance_state gets as far as the message hash. */
  predicate PassesLimiter(s: State, m: Message, now: int) {
    m.sender in s.members.keys && m.sender !in s.members.banned && RateAdmits(s, m.sender, now)
  }

  /** The call makes the set of seen messages too large, and this hash is in the half that goes. */
  predicate Evicts(s: State, op: Op, mh: Str) {
    op.AdvanceOp? && |s.log.seen + {op.mh}| > MAX_SEEN_MESSAGES && mh in op.dropped
  }

  /** No call of the run evicts the hash. */
  ghost predicate NeverEvicts(s: State, ops: seq<Op>, mh: Str) {
    ops == [] ||
    (NeverEvicts(s, ops[..|ops| - 1], mh) && !Evicts(Run(s, ops[..|ops| - 1]), ops[|ops| - 1], mh))
  }

  lemma AdmittedSeen(s: State, m: Message, mh: Str, rk: Str, now: int, dropped: set<Str>)
    ensures Admitted(s, m, mh, rk, now, dropped).0.log.seen ==
              if mh in s.log.seen then s.log.seen else EvictSeen(s.log.seen + {mh}, dropped)
  {
  }

  lemma AdvanceKeepsSeen(s: State, m: Message, x: Str, rk: Str, now: int, dropped: set<Str>, mh: Str)
    requires mh in s.log.seen && (|s.log.seen + {x}| > MAX_SEEN_MESSAGES ==> mh !in dropped)
    ensures mh in Advance(s, m, x, rk, now, dropped).0.log.seen
  {
    if PassesLimiter(s, m, now) { AdmittedSeen(Swept(s, m.sender, now), m, x, rk, now, dropped); }
  }

  /** Only an eviction takes a hash out of the set. */
  lemma SeenStays(s: State, op: Op, mh: Str)
    requires mh in s.log.seen && !Evicts(s, op, mh)
    ensures mh in Step(s, op).log.seen
  {
    match op
    case AdvanceOp(m, x, rk, now, dropped) => AdvanceKeepsSeen(s, m, x, rk, now, dropped, mh);
    case _ =>
  }

  lemma {:induction false} SeenStaysOver(s: State, ops: seq<Op>, mh: Str)
    requires mh in s.log.seen && NeverEvicts(s, ops, mh)
    ensures mh in Run(s, ops).log.seen
  {
    if ops != [] {
      SeenStaysOver(s, ops[..|ops| - 1], mh);
      SeenStays(Run(s, ops[..|ops| - 1]), ops[|ops| - 1], mh);
    }
  }

  /** A message that gets as far as its hash is seen from then on. */
  lemma AdmittedIsSeen(s: State, m: Message, mh: Str, rk: Str, now: int, dropped: set<Str>)
    requires PassesLimiter(s, m, now) && !Evicts(s, AdvanceOp(m, mh, rk, now, dropped), mh)
    ensures mh in Advance(s, m, mh, rk, now, dropped).0.log.seen
  {
    AdmittedSeen(Swept(s, m.sender, now), m, mh, rk, now, dropped);
  }

  lemma MovesIsAdmitted(s: State, m: Message, mh: Str, rk: Str, now: int, dropped: set<Str>)
    requires Advance(s, m, mh, rk, now, dropped).1 != Idle
    ensures PassesLimiter(s, m, now)
  {
  }

  /** No voter, round, history entry or evidence more than before. */
  ghost predicate NothingMore(s: State, s': State) {
    && (forall rk, stage :: Voters(s'.ballots, rk, stage) <= Voters(s.ballots, rk, stage))
    && (forall rk :: rk in s'.ballots.rounds ==> rk in s.ballots.rounds && s'.ballots.rounds[rk] == s.ballots.rounds[rk])
    && (forall id :: id in s'.log.history ==> id in s.log.history && s'.log.history[id] == s.log.history[id])
    && s'.log.equivocations == s.log.equivocations && s'.log.seen == s.log.seen
  }

  lemma SweptNothingMore(s: State, id: NodeId, now: int)
    ensures NothingMore(s, Swept(s, id, now))
  {
    forall rk, stage ensures Voters(Swept(s, id, now).ballots, rk, stage) <= Voters(s.ballots, rk, stage) {
      CleanupVoters(s.ballots, now, rk, stage);
    }
  }

  lemma FailureNothingMore(s: State, id: NodeId, now: int)
    ensures NothingMore(s, RecordFailure(s, id, now))
  {
    forall rk, stage ensures Voters(RecordFailure(s, id, now).ballots, rk, stage) <= Voters(s.ballots, rk, stage) {
      EraseVoterVoters(s.ballots, id, rk, stage);
    }
  }

  lemma NothingMoreTwice(s: State, s1: State, s2: State)
    requires NothingMore(s, s1) && NothingMore(s1, s2)
    ensures NothingMore(s, s2)
  {
    forall rk, stage ensures Voters(s2.ballots, rk, stage) <= Voters(s.ballots, rk, stage) {
      assert Voters(s2.ballots, rk, stage) <= Voters(s1.ballots, rk, stage) <= Voters(s.ballots, rk, stage);
    }
  }

  lemma StaysNothingMore(s: State)
    ensures NothingMore(s, s)
  {
  }

  /** A hash that was seen, under whatever message, round key and clock: advance_state answers IDLE and adds nothing. */
  lemma SeenIsIdle(s: State, m: Message, mh: Str, rk: Str, now: int, dropped: set<Str>)
    requires mh in s.log.seen
    ensures var (s', stage) := Advance(s, m, mh, rk, now, dropped);
            stage == Idle && NothingMore(s, s')
  {
    StaysNothingMore(s);
    if m.sender in s.members.keys && m.sender !in s.members.banned {
      var s1 := Swept(s, m.sender, now);
      SweptNothingMore(s, m.sender, now);
      if !RateAdmits(s, m.sender, now) {
        FailureNothingMore(s1, m.sender, now);
        NothingMoreTwice(s, s1, RecordFailure(s1, m.sender, now));
      }
    }
  }

  /**
   Once a message was admitted, and as long as no eviction drops its hash, every later advance_state with that
   hash answers IDLE and adds no voter, round, history entry or evidence, whatever was called in between; the
   round may have been cleared since.
   */
  lemma {:induction false} ReplayIsIdle(s: State, m: Message, mh: Str, rk: Str, now: int, dropped: set<Str>, between: seq<Op>,
                                        m': Message, rk': Str, now': int, dropped': set<Str>)
    requires PassesLimiter(s, m, now) && !Evicts(s, AdvanceOp(m, mh, rk, now, dropped), mh)
    requires NeverEvicts(Advance(s, m, mh, rk, now, dropped).0, between, mh)
    ensures var later := Run(Advance(s, m, mh, rk, now, dropped).0, between);
            var (s', stage) := Advance(later, m', mh, rk', now', dropped');
            stage == Idle && NothingMore(later, s')
  {
    AdmittedIsSeen(s, m, mh, rk, now, dropped);
    SeenStaysOver(Advance(s, m, mh, rk, now, dropped).0, between, mh);
    SeenIsIdle(Run(Advance(s, m, mh, rk, now, dropped).0, between), m', mh, rk', now', dropped');
  }

  /** So of two results other than IDLE for one message, an eviction of its hash lies between. */
  lemma {:induction false} MovesOnce(s: State, m: Message, mh: Str, rk: Str, now: int, dropped: set<Str>, between: seq<Op>,
                                     rk': Str, now': int, dropped': set<Str>)
    requires Advance(s, m, mh, rk, now, dropped).1 != Idle
    requires Advance(Run(Advance(s, m, mh, rk, now, dropped).0, between), m, mh, rk', now', dropped').1 != Idle
    ensures Evicts(s, AdvanceOp(m, mh, rk, now, dropped), mh) || !NeverEvicts(Advance(s, m, mh, rk, now, dropped).0, between, mh)
  {
    MovesIsAdmitted(s, m, mh, rk, now, dropped);
    if !Evicts(s, AdvanceOp(m, mh, rk, now, dropped), mh) && NeverEvicts(Advance(s, m, mh, rk, now, dropped).0, between, mh) {
      ReplayIsIdle(s, m, mh, rk, now, dropped, between, m, rk', now', dropped');
    }
  }

  /** Below the cap nothing is evicted, so a fresh message is moved by at most once in any run this short. */
  lemma {:induction false} SmallNeverEvicts(s: State, ops: seq<Op>, mh: Str)
    requires |s.log.seen| + |ops| <= MAX_SEEN_MESSAGES
    ensures NeverEvicts(s, ops, mh) && |Run(s, ops).log.seen| <= |s.log.seen| + |ops|
  {
    if ops != [] {
      var before, op := ops[..|ops| - 1], ops[|ops| - 1];
      SmallNeverEvicts(s, before, mh);
      SeenGrows(Run(s, before), op);
      if op.AdvanceOp? { assert |Run(s, before).log.seen + {op.mh}| <= |Run(s, before).log.seen| + 1; }
    }
  }

  lemma SeenGrows(s: State, op: Op)
    ensures |Step(s, op).log.seen| <= |s.log.seen| + 1
  {
    match op
    case AdvanceOp(m, mh, rk, now, dropped) =>
      if PassesLimiter(s, m, now) {
        AdmittedSeen(Swept(s, m.sender, now), m, mh, rk, now, dropped);
        EvictShrinks(s.log.seen + {mh}, dropped);
        assert |s.log.seen + {mh}| <= |s.log.seen| + 1;
      }
    case _ =>
  }

  lemma EvictShrinks(seen: set<Str>, dropped: set<Str>)
    ensures |EvictSeen(seen, dropped)| <= |seen|
  {
    assert seen == (seen - dropped) + (seen * dropped);
    assert |seen| == |seen - dropped| + |seen * dropped|;
  }
}
