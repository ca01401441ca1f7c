/** The trust kept for a sender, told from what happened to it. */
module PbftTrust {
  import opened Symbolic
  import opened Pbft
  import opened PbftRegistry
  import opened PbftEquivocation

  /** What a call means for an id. */
  datatype Mark = Nothing | Enrolled | Good | Bad | Double

  ghost function MarkOf(s: State, op: Op, id: NodeId): Mark {
    match op
    case RegisterOp(id', _) => if id' == id then Enrolled else Nothing
    case VerifyOp(m, _) =>
      if m.sender != id || id !in s.members.keys || id in s.members.banned then Nothing
      else if Verifies(s, m) then Good else Bad
    case AdvanceOp(m, mh, _, now, _) =>
      if m.sender != id || id !in s.members.keys || id in s.members.banned then Nothing
      else if !RateAdmits(s, id, now) then Bad
      else if mh !in s.log.seen && m.seqNo in HistoryAt(s.log, id) && HistoryAt(s.log, id)[m.seqNo] != mh then Double
      else Nothing
    case _ => Nothing
  }

  /** Failures in a row, equivocations, successes, the score in units of 0.05, and when the last failure was. */
  datatype Card = Card(failures: nat, doubles: nat, successes: nat, score: int, last: int)

  function TimeOf(op: Op): int { if op.VerifyOp? || op.AdvanceOp? then op.now else 0 }

  function Marked(c: Card, mark: Mark, now: int): Card {
    match mark
    case Nothing => c
    case Enrolled => Card(0, 0, 0, 20, 0)
    case Good => Card(0, c.doubles, c.successes + 1, if c.score < 20 then c.score + 1 else 20, c.last)
    case Bad => Card(c.failures + 1, c.doubles, c.successes, if c.score >= 2 then c.score - 2 else 0, now)
    case Double => Card(c.failures + 1, c.doubles + 1, c.successes, if c.score >= 6 then c.score - 6 else 0, now)
  }

  /** The card after a run, from the marks alone. */
  ghost function CardAfter(s: State, ops: seq<Op>, id: NodeId): Card {
    if ops == [] then Card(0, 0, 0, 20, 0)
    else
      var before, op := ops[..|ops| - 1], ops[|ops| - 1];
      Marked(CardAfter(s, before, id), MarkOf(Run(s, before), op, id), TimeOf(op))
  }

  function CardOf(t: Trust): Card { Card(t.failures, t.equivocations, t.successes, t.score, t.lastFailure) }

  /** A failure ends with a ban at the hundredth in a row. */
  ghost predicate BansNow(s: State, op: Op, id: NodeId) {
    MarkOf(s, op, id) == Bad && TrustAt(s.members, id).failures + 1 >= 100
  }

  lemma FailureTrust(s: State, id: NodeId, now: int, other: NodeId)
    ensures var s', bans := RecordFailure(s, id, now), TrustAt(s.members, id).failures + 1 >= 100;
            && (other != id ==> (other in s'.members.trust <==> other in s.members.trust) && TrustAt(s'.members, other) == TrustAt(s.members, other))
            && (!bans ==> id in s'.members.trust && TrustAt(s'.members, id) == FailedTrust(TrustAt(s.members, id), now)
                          && s'.members.banned == s.members.banned && s'.members.recentBans == s.members.recentBans)
            && (bans ==> id !in s'.members.trust && s'.members.banned == s.members.banned + {id}
                         && s'.members.recentBans == s.members.recentBans + {id})
  {
  }

  lemma SweptMembers(s: State, id: NodeId, now: int)
    ensures Swept(s, id, now).members == s.members
  {
  }

  /** What one call does to the trust of an id, and when it bans. */
  lemma StepTrust(s: State, op: Op, id: NodeId)
    requires s.members.trust.Keys == s.members.keys.Keys
    ensures id in Step(s, op).members.trust ==>
              && !BansNow(s, op, id) && (id in s.members.trust || MarkOf(s, op, id) == Enrolled)
              && CardOf(TrustAt(Step(s, op).members, id)) == Marked(CardOf(TrustAt(s.members, id)), MarkOf(s, op, id), TimeOf(op))
  {
    match op
    case VerifyOp(m, now) => FailureTrust(s, m.sender, now, id);
    case AdvanceOp(m, mh, rk, now, dropped) => AdvanceTrust(s, m, mh, rk, now, dropped, id);
    case _ =>
  }

  lemma AdvanceTrust(s: State, m: Message, mh: Str, rk: Str, now: int, dropped: set<Str>, id: NodeId)
    requires s.members.trust.Keys == s.members.keys.Keys
    ensures var s', op := Advance(s, m, mh, rk, now, dropped).0, AdvanceOp(m, mh, rk, now, dropped);
            id in s'.members.trust ==>
              && !BansNow(s, op, id) && id in s.members.trust
              && CardOf(TrustAt(s'.members, id)) == Marked(CardOf(TrustAt(s.members, id)), MarkOf(s, op, id), TimeOf(op))
  {
    if Takes(s, AdvanceOp(m, mh, rk, now, dropped)) {
      TakenLog(s, m, mh, rk, now, dropped);
    } else if m.sender in s.members.keys && m.sender !in s.members.banned {
      SweptMembers(s, m.sender, now);
      FailureTrust(Swept(s, m.sender, now), m.sender, now, id);
    }
  }

  /**
   In every run from a consistent state without keys: the trust of a registered id is what the marks since its
   registration make of it. In particular the failure count is the number of failures since the last success.
   */
  lemma {:induction false} TrustFollowsMarks(s: State, ops: seq<Op>, id: NodeId)
    requires Consistent(s) && s.members.keys == map[]
    ensures Consistent(Run(s, ops))
    ensures id in Run(s, ops).members.trust ==> CardOf(TrustAt(Run(s, ops).members, id)) == CardAfter(s, ops, id)
  {
    if ops != [] {
      var before, op := ops[..|ops| - 1], ops[|ops| - 1];
      TrustFollowsMarks(s, before, id);
      StepConsistent(Run(s, before), op);
      StepTrust(Run(s, before), op, id);
    }
  }

  // ---------------------------------------------------------------- bans

  /** A call of verify_message or advance_state bans exactly an id for which it is the hundredth failure in a row. */
  lemma BannedByCallIff(s: State, op: Op, id: NodeId)
    requires (op.VerifyOp? || op.AdvanceOp?) && id !in s.members.banned
    ensures id in Step(s, op).members.banned <==> BansNow(s, op, id)
    ensures Step(s, op).members.recentBans == s.members.recentBans + (Step(s, op).members.banned - s.members.banned)
  {
    if op.VerifyOp? {
      FailureTrust(s, op.m.sender, op.now, id);
    } else {
      AdvanceBans(s, op.m, op.mh, op.rk, op.now, op.dropped);
    }
  }

  lemma AdvanceBans(s: State, m: Message, mh: Str, rk: Str, now: int, dropped: set<Str>)
    ensures var g := Advance(s, m, mh, rk, now, dropped).0.members;
            var bans := if BansNow(s, AdvanceOp(m, mh, rk, now, dropped), m.sender) then {m.sender} else {};
            g.banned == s.members.banned + bans && g.recentBans == s.members.recentBans + bans
  {
    if Takes(s, AdvanceOp(m, mh, rk, now, dropped)) {
      TakenLog(s, m, mh, rk, now, dropped);
    } else if m.sender in s.members.keys && m.sender !in s.members.banned {
      SweptMembers(s, m.sender, now);
      FailureTrust(Swept(s, m.sender, now), m.sender, now, m.sender);
    }
  }

  /** The ids that a call of this kind banned since the last drain. */
  ghost function BannedSince(s: State, ops: seq<Op>): set<NodeId> {
    if ops == [] then s.members.recentBans
    else
      var before, op := ops[..|ops| - 1], ops[|ops| - 1];
      if op.DrainBansOp? then {}
      else if (op.VerifyOp? || op.AdvanceOp?) && BansNow(Run(s, before), op, op.m.sender)
      then BannedSince(s, before) + {op.m.sender}
      else BannedSince(s, before)
  }

  lemma StepRecent(s: State, op: Op)
    ensures Step(s, op).members.recentBans ==
              if op.DrainBansOp? then {}
              else if (op.VerifyOp? || op.AdvanceOp?) && BansNow(s, op, op.m.sender) then s.members.recentBans + {op.m.sender}
              else s.members.recentBans
  {
    match op
    case VerifyOp(m, now) => FailureTrust(s, m.sender, now, m.sender);
    case AdvanceOp(m, mh, rk, now, dropped) => AdvanceBans(s, m, mh, rk, now, dropped);
    case _ =>
  }

  /** The recent bans, which the node turns into ban rounds, are exactly the ids banned by failures since the last drain. */
  lemma {:induction false} RecentBansExact(s: State, ops: seq<Op>)
    ensures Run(s, ops).members.recentBans == BannedSince(s, ops)
  {
    if ops != [] {
      RecentBansExact(s, ops[..|ops| - 1]);
      StepRecent(Run(s, ops[..|ops| - 1]), ops[|ops| - 1]);
    }
  }
}
