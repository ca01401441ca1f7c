/** How rounds move, and how far apart two executions of one round are. */
module PbftRounds {
  import opened Symbolic
  import opened RateLimit
  import opened Pbft
  import opened PbftRegistry

  function Rank(stage: Stage): int {
    match stage
    case Idle => 0
    case Prepare => 1
    case Commit => 2
    case Executed => 3
    case PrePrepare => -1
    case BanPeer => -1
  }

  ghost predicate StatesOk(b: Ballots) {
    forall rk :: rk in b.rounds ==> Rank(b.rounds[rk].state) >= 0
  }

  /** Within its lifetime a round stays where it is or moves one step up. */
  ghost predicate OneStep(r: Round, r': Round) {
    Rank(r'.state) == Rank(r.state) || Rank(r'.state) == Rank(r.state) + 1
  }

  lemma InsertRound(b: Ballots, m: Message, mh: Str, rk: Str, now: int, rk': Str)
    ensures var r := OpenRound(RoundAt(b, rk), m, mh, rk, now);
            RoundAt(Insert(b, m, mh, rk, now), rk') ==
              if rk' != rk then RoundAt(b, rk') else if r.view != m.view then r else r.(lastActivity := now)
  {
  }

  lemma TransitionRound(b: Ballots, quorum: int, m: Message, rk: Str, rk': Str)
    ensures var next := NextStage(b, quorum, m.stage, rk);
            RoundAt(Transition(b, quorum, m, rk), rk') ==
              if rk' == rk && next != Idle then RoundAt(b, rk).(state := next) else RoundAt(b, rk')
  {
  }

  /** The one round a vote touches, by cases. */
  lemma CountVoteRound(b: Ballots, quorum: int, m: Message, mh: Str, rk: Str, now: int, rk': Str)
    ensures var (b', stage) := CountVote(b, quorum, m, mh, rk, now);
            var r, r' := RoundAt(b, rk'), RoundAt(b', rk');
            if rk' != rk then r' == r
            else || (r'.state == r.state && stage == Idle && (r'.lastActivity == r.lastActivity || r'.lastActivity == now))
                 || (r'.state == stage != Idle && Rank(stage) == Rank(r.state) + 1 && r'.lastActivity == now)
  {
    InsertRound(b, m, mh, rk, now, rk');
    TransitionRound(Insert(b, m, mh, rk, now), quorum, m, rk, rk');
  }

  lemma CountVoteOneStep(b: Ballots, quorum: int, m: Message, mh: Str, rk: Str, now: int, rk': Str)
    requires StatesOk(b)
    ensures var b' := CountVote(b, quorum, m, mh, rk, now).0;
            OneStep(RoundAt(b, rk'), RoundAt(b', rk'))
  {
    CountVoteRound(b, quorum, m, mh, rk, now, rk');
  }

  lemma CountVoteStatesOk(b: Ballots, quorum: int, m: Message, mh: Str, rk: Str, now: int)
    requires StatesOk(b)
    ensures StatesOk(CountVote(b, quorum, m, mh, rk, now).0)
  {
    var b' := CountVote(b, quorum, m, mh, rk, now).0;
    forall rk' | rk' in b'.rounds ensures Rank(b'.rounds[rk'].state) >= 0 {
      CountVoteOneStep(b, quorum, m, mh, rk, now, rk');
      assert Rank(RoundAt(b, rk').state) >= 0;
    }
  }

  lemma CleanupRound(b: Ballots, now: int, rk: Str)
    ensures RoundAt(Cleanup(b, now), rk)
         == if rk in b.rounds && Stale(b.rounds[rk], now) then FRESH_ROUND else RoundAt(b, rk)
  {
  }

  /** The ballots after advance_state: swept, and then at most one vote counted. */
  lemma AdvanceBallots(s: State, m: Message, mh: Str, rk: Str, now: int, dropped: set<Str>)
    ensures var (s', stage) := Advance(s, m, mh, rk, now, dropped);
            var swept := Cleanup(s.ballots, now);
            var c := CountVote(swept, Quorum(s.members.total), m, mh, rk, now);
            || (s' == s && stage == Idle)
            || (s'.ballots.rounds == swept.rounds && stage == Idle)
            || (s'.ballots == c.0 && stage == c.1)
  {
    if m.sender in s.members.keys && m.sender !in s.members.banned && RateAdmits(s, m.sender, now) {
      AdmittedFrame(Swept(s, m.sender, now), m, mh, rk, now, dropped);
    }
  }

  /**
   Every call moves every round by at most one step, IDLE to PREPARE to COMMIT to EXECUTED, except
   that advance_state may first clear a round idle for more than ROUND_TTL_SEC and start it afresh.
   */
  lemma RoundsMoveOneStep(s: State, op: Op, rk: Str)
    requires StatesOk(s.ballots)
    ensures StatesOk(Step(s, op).ballots)
    ensures var r, r' := RoundAt(s.ballots, rk), RoundAt(Step(s, op).ballots, rk);
            || OneStep(r, r')
            || (op.AdvanceOp? && rk in s.ballots.rounds && Stale(r, op.now) && OneStep(FRESH_ROUND, r'))
  {
    match op
    case AdvanceOp(m, mh, key, now, dropped) =>
      var swept := Cleanup(s.ballots, now);
      AdvanceBallots(s, m, mh, key, now, dropped);
      CountVoteOneStep(swept, Quorum(s.members.total), m, mh, key, now, rk);
      CountVoteStatesOk(swept, Quorum(s.members.total), m, mh, key, now);
      CleanupRound(s.ballots, now, rk);
    case VerifyOp(m, now) => assert Step(s, op).ballots.rounds == s.ballots.rounds;
    case _ =>
  }

  // ---------------------------------------------------------------- two executions of one round

  /** The latest clock reading of an advance_state in `ops`, or `start`. */
  function LastClock(ops: seq<Op>, start: int): int {
    if ops == [] then start
    else if ops[|ops| - 1].AdvanceOp? then ops[|ops| - 1].now
    else LastClock(ops[..|ops| - 1], start)
  }

  ghost predicate ClockNeverBack(ops: seq<Op>, start: int) {
    ops == [] ||
    (ClockNeverBack(ops[..|ops| - 1], start) && LastClock(ops[..|ops| - 1], start) <= LastClock(ops, start))
  }

  /** Since an execution at `t0` the round is still held as EXECUTED, or its time to live has passed. */
  ghost predicate HeldOrExpired(b: Ballots, rk: Str, t0: int, now: int) {
    || (rk in b.rounds && b.rounds[rk].state == Executed && b.rounds[rk].lastActivity >= t0)
    || Seconds(now - t0) > ROUND_TTL_SEC
  }

  lemma SecondsMonotone(d: int, d': int)
    requires d <= d'
    ensures Seconds(d) <= Seconds(d')
  {
  }

  lemma CountVoteHeld(b: Ballots, quorum: int, m: Message, mh: Str, key: Str, now: int, rk: Str, t0: int)
    requires rk in b.rounds && b.rounds[rk].state == Executed && b.rounds[rk].lastActivity >= t0 && now >= t0
    ensures var (b', stage) := CountVote(b, quorum, m, mh, key, now);
            && rk in b'.rounds && b'.rounds[rk].state == Executed && b'.rounds[rk].lastActivity >= t0
            && (key == rk ==> stage != Executed)
  {
    CountVoteRound(b, quorum, m, mh, key, now, rk);
    CountVoteRounds(b, quorum, m, mh, key, now);
  }

  /** While held, advance_state cannot report EXECUTED for the round again. */
  lemma AdvanceHeld(s: State, m: Message, mh: Str, key: Str, now: int, dropped: set<Str>, rk: Str, t0: int, last: int)
    requires HeldOrExpired(s.ballots, rk, t0, last) && t0 <= last <= now
    ensures HeldOrExpired(Advance(s, m, mh, key, now, dropped).0.ballots, rk, t0, now)
    ensures key == rk && Advance(s, m, mh, key, now, dropped).1 == Executed ==> Seconds(now - t0) > ROUND_TTL_SEC
  {
    SecondsMonotone(last - t0, now - t0);
    if Seconds(now - t0) <= ROUND_TTL_SEC {
      SecondsMonotone(now - s.ballots.rounds[rk].lastActivity, now - t0);
      AdvanceBallots(s, m, mh, key, now, dropped);
      CountVoteHeld(Cleanup(s.ballots, now), Quorum(s.members.total), m, mh, key, now, rk, t0);
    }
  }

  lemma OtherStepHeld(s: State, op: Op, rk: Str, t0: int, now: int)
    requires !op.AdvanceOp? && HeldOrExpired(s.ballots, rk, t0, now)
    ensures HeldOrExpired(Step(s, op).ballots, rk, t0, now)
  {
    match op
    case VerifyOp(m, t) => assert Step(s, op).ballots.rounds == s.ballots.rounds;
    case _ =>
  }

  lemma {:induction false} RunHeld(s: State, ops: seq<Op>, rk: Str, t0: int)
    requires HeldOrExpired(s.ballots, rk, t0, t0) && ClockNeverBack(ops, t0)
    ensures t0 <= LastClock(ops, t0)
    ensures HeldOrExpired(Run(s, ops).ballots, rk, t0, LastClock(ops, t0))
  {
    if ops != [] {
      var before, op := ops[..|ops| - 1], ops[|ops| - 1];
      RunHeld(s, before, rk, t0);
      match op
      case AdvanceOp(m, mh, key, now, dropped) =>
        AdvanceHeld(Run(s, before), m, mh, key, now, dropped, rk, t0, LastClock(before, t0));
      case _ => OtherStepHeld(Run(s, before), op, rk, t0, LastClock(before, t0));
    }
  }

  lemma ExecutesFresh(b: Ballots, quorum: int, m: Message, mh: Str, rk: Str, now: int)
    requires CountVote(b, quorum, m, mh, rk, now).1 == Executed
    ensures HeldOrExpired(CountVote(b, quorum, m, mh, rk, now).0, rk, now, now)
  {
  }

  /** An execution leaves its round held. */
  lemma ExecutedIsHeld(s: State, m: Message, mh: Str, rk: Str, now: int, dropped: set<Str>)
    requires Advance(s, m, mh, rk, now, dropped).1 == Executed
    ensures HeldOrExpired(Advance(s, m, mh, rk, now, dropped).0.ballots, rk, now, now)
  {
    AdvanceBallots(s, m, mh, rk, now, dropped);
    ExecutesFresh(Cleanup(s.ballots, now), Quorum(s.members.total), m, mh, rk, now);
  }

  /** From a state that holds the round since `t0`, the next execution of it is far away. */
  lemma {:induction false} NextExecutionApart(s: State, rk: Str, t0: int, between: seq<Op>,
                                              m: Message, mh: Str, now: int, dropped: set<Str>)
    requires HeldOrExpired(s.ballots, rk, t0, t0) && ClockNeverBack(between, t0) && LastClock(between, t0) <= now
    requires Advance(Run(s, between), m, mh, rk, now, dropped).1 == Executed
    ensures Seconds(now - t0) > ROUND_TTL_SEC
  {
    RunHeld(s, between, rk, t0);
    AdvanceHeld(Run(s, between), m, mh, rk, now, dropped, rk, t0, LastClock(between, t0));
  }

  /**
   Under a clock that never runs backwards, two advance_state results EXECUTED for one round key are more
   than ROUND_TTL_SEC seconds apart, whatever is called in between.
   */
  lemma {:induction false} ExecutionsApart(s: State, rk: Str, m: Message, mh: Str, now: int, dropped: set<Str>, between: seq<Op>,
                                           m': Message, mh': Str, now': int, dropped': set<Str>)
    requires Advance(s, m, mh, rk, now, dropped).1 == Executed
    requires ClockNeverBack(between, now) && LastClock(between, now) <= now'
    requires Advance(Run(Advance(s, m, mh, rk, now, dropped).0, between), m', mh', rk, now', dropped').1 == Executed
    ensures Seconds(now' - now) > ROUND_TTL_SEC
  {
    ExecutedIsHeld(s, m, mh, rk, now, dropped);
    NextExecutionApart(Advance(s, m, mh, rk, now, dropped).0, rk, now, between, m', mh', now', dropped');
  }
}
