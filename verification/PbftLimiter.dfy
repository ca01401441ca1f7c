/** The sliding window inside the engine: what it stores is what the run's checks would store. */
module PbftLimiter {
  import opened Symbolic
  import opened RateLimit
  import opened Pbft
  import opened PbftRegistry

  /** The step is an advance_state of `id` that gets as far as the rate check. */
  predicate Checks(s: State, op: Op, id: NodeId) {
    op.AdvanceOp? && op.m.sender == id && id !in s.members.banned && id in s.members.keys
  }

  /** The clock readings at which a run checks the rate of `id`. */
  ghost function CheckTimes(s: State, ops: seq<Op>, id: NodeId): seq<int> {
    if ops == [] then []
    else
      var before, op := ops[..|ops| - 1], ops[|ops| - 1];
      if Checks(Run(s, before), op, id) then CheckTimes(s, before, id) + [op.now] else CheckTimes(s, before, id)
  }

  lemma AdvanceRate(s: State, m: Message, mh: Str, rk: Str, now: int, dropped: set<Str>, id: NodeId)
    ensures var s' := Advance(s, m, mh, rk, now, dropped).0;
            && s'.rateWindow == s.rateWindow && s'.rateMax == s.rateMax
            && RateAt(s'.log, id) ==
                 if Checks(s, AdvanceOp(m, mh, rk, now, dropped), id)
                 then AfterCheck(RateAt(s.log, id), now, s.rateWindow, s.rateMax) else RateAt(s.log, id)
  {
    if m.sender in s.members.keys && m.sender !in s.members.banned {
      var s1 := Swept(s, m.sender, now);
      if RateAdmits(s, m.sender, now) {
        AdmittedFrame(s1, m, mh, rk, now, dropped);
      } else {
        assert RecordFailure(s1, m.sender, now).log.rateLimits == s1.log.rateLimits;
      }
    }
  }

  lemma StepRate(s: State, op: Op, id: NodeId)
    ensures var s' := Step(s, op);
            && s'.rateWindow == s.rateWindow && s'.rateMax == s.rateMax
            && RateAt(s'.log, id) ==
                 if Checks(s, op, id) then AfterCheck(RateAt(s.log, id), op.now, s.rateWindow, s.rateMax)
                 else RateAt(s.log, id)
  {
    match op
    case AdvanceOp(m, mh, rk, now, dropped) => AdvanceRate(s, m, mh, rk, now, dropped, id);
    case VerifyOp(m, now) => assert Step(s, op).log.rateLimits == s.log.rateLimits;
    case _ =>
  }

  lemma {:induction false} RunRate(s: State, ops: seq<Op>, id: NodeId)
    requires RateAt(s.log, id) == []
    ensures Run(s, ops).rateWindow == s.rateWindow && Run(s, ops).rateMax == s.rateMax
    ensures RateAt(Run(s, ops).log, id) == Stored(CheckTimes(s, ops, id), s.rateWindow, s.rateMax)
  {
    if ops != [] {
      var before, op := ops[..|ops| - 1], ops[|ops| - 1];
      RunRate(s, before, id);
      StepRate(Run(s, before), op, id);
      var calls := CheckTimes(s, before, id);
      if Checks(Run(s, before), op, id) {
        assert (calls + [op.now])[..|calls|] == calls;
      }
    }
  }

  /**
   For every sender and every run whose clock never goes back, a message passes the limiter exactly when
   fewer than rateMax of that sender's earlier admissions are younger than the window.
   */
  lemma EngineLimiterExact(s: State, ops: seq<Op>, id: NodeId, now: int)
    requires RateAt(s.log, id) == [] && 0 < s.rateWindow
    requires NonDecreasing(CheckTimes(s, ops, id) + [now])
    ensures RateAdmits(Run(s, ops), id, now)
       <==> CountYoung(Admissions(CheckTimes(s, ops, id), s.rateWindow, s.rateMax), now, s.rateWindow) < s.rateMax
  {
    RunRate(s, ops, id);
    LimiterExact(CheckTimes(s, ops, id), now, s.rateWindow, s.rateMax);
  }
}
