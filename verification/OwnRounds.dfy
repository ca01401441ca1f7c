/** What becomes of a node's own votes: they stay on its record, and a node that is a quorum by itself executes alone. */
module OwnRounds {
  import opened Wrappers
  import opened Decimal
  import opened Symbolic
  import opened RateLimit
  import opened Pbft
  import opened PbftRegistry
  import opened PbftVotes
  import opened PbftReplay
  import opened PbftEquivocation
  import opened CommitSigs
  import opened NodeSpec
  import opened NodeAnswers

  // ---------------------------------------------------------------- an own vote stays on record

  /** Of a history with numbers up to two above `n`, eviction leaves `n`. */
  lemma EvictKeepsHigh(h: map<U64, Str>, n: U64)
    requires n in h && forall k :: k in h ==> k <= n + 2
    ensures var r := EvictOldest(h); n in r && r[n] == h[n] && forall k :: k in r ==> k <= n + 2
  {
    EvictOldestKeepsNewest(h);
    var r := EvictOldest(h);
    if n !in r {
      var high := set k | k in r.Keys && n < k <= n + 2;
      assert forall k :: k in r ==> k in high;
      FewNumbers(n, high);
      assert r.Keys <= high;
      SmallerSet(r.Keys, high);
    }
  }

  lemma FewNumbers(n: U64, s: set<U64>)
    requires forall k :: k in s ==> n < k <= n + 2
    ensures |s| <= 2
  {
    if s != {} {
      var x :| x in s;
      var s1 := s - {x};
      if s1 != {} {
        var y :| y in s1;
        assert s1 - {y} == {};
        assert |s1| == 1;
      }
      assert |s| == |s1| + 1;
    }
  }

  lemma SmallerSet(a: set<U64>, b: set<U64>)
    requires a <= b
    ensures |a| <= |b|
  {
    assert b == a + (b - a);
    assert |b| == |a| + |b - a|;
  }

  /** The hash is on record, nothing much above it is, and the sender is far from a ban. */
  ghost predicate Settled(s: State, id: NodeId, n: U64, hash: Str, worst: nat) {
    && OnRecord(s, id, n, hash) && (forall k :: k in HistoryAt(s.log, id) ==> k <= n + 2)
    && TrustAt(s.members, id).failures <= worst
  }

  lemma FailureSettled(s: State, id: NodeId, now: int, n: U64, hash: Str, worst: nat)
    requires Settled(s, id, n, hash, worst) && worst < 98
    ensures Settled(RecordFailure(s, id, now), id, n, hash, worst + 1)
  {
  }

  lemma TakenSettled(s: State, m: Message, mh: Str, rk: Str, now: int, dropped: set<Str>, n: U64, hash: Str, worst: nat)
    requires Settled(s, m.sender, n, hash, worst) && n < m.seqNo <= n + 2 && Takes(s, AdvanceOp(m, mh, rk, now, dropped))
    ensures Settled(Advance(s, m, mh, rk, now, dropped).0, m.sender, n, hash, worst + 1)
  {
    TakenLog(s, m, mh, rk, now, dropped);
    EvictKeepsHigh(HistoryAt(s.log, m.sender)[m.seqNo := mh], n);
  }

  lemma SeenSettled(s: State, m: Message, mh: Str, rk: Str, now: int, dropped: set<Str>, n: U64, hash: Str, worst: nat)
    requires Settled(s, m.sender, n, hash, worst) && PassesLimiter(s, m, now) && mh in s.log.seen
    ensures Settled(Advance(s, m, mh, rk, now, dropped).0, m.sender, n, hash, worst + 1)
  {
  }

  lemma AdvanceSettled(s: State, m: Message, mh: Str, rk: Str, now: int, dropped: set<Str>, n: U64, hash: Str, worst: nat)
    requires Settled(s, m.sender, n, hash, worst) && n < m.seqNo <= n + 2 && worst < 98
    ensures Settled(Advance(s, m, mh, rk, now, dropped).0, m.sender, n, hash, worst + 1)
  {
    if Takes(s, AdvanceOp(m, mh, rk, now, dropped)) {
      TakenSettled(s, m, mh, rk, now, dropped, n, hash, worst);
    } else if PassesLimiter(s, m, now) {
      SeenSettled(s, m, mh, rk, now, dropped, n, hash, worst);
    } else if m.sender in s.members.keys && m.sender !in s.members.banned {
      assert Settled(Swept(s, m.sender, now), m.sender, n, hash, worst);
      FailureSettled(Swept(s, m.sender, now), m.sender, now, n, hash, worst);
    }
  }

  lemma CastSettled(s: State, m: Message, tick: Tick, n: U64, hash: Str, worst: nat)
    requires Settled(s, m.sender, n, hash, worst) && n < m.seqNo <= n + 2 && worst < 97
    ensures Settled(CastOn(s, m, tick).0, m.sender, n, hash, worst + 1)
  {
    FailureSettled(s, m.sender, tick.now, n, hash, worst);
    if Verifies(s, m) {
      assert Settled(Verify(s, m, tick.now), m.sender, n, hash, 0);
      AdvanceSettled(Verify(s, m, tick.now), m, MessageHash(m), Rk(m), tick.now', tick.dropped, n, hash, 0);
    }
  }

  /** What is sent is the node's vote with the next number, and sending touches neither record nor limiter nor members. */
  lemma SendFrame(d: Desk, stage: string, target: NodeId, evidence: string)
    ensures var m, d1 := NextOwn(d, stage, target, evidence), SendOn(d, stage, target, evidence);
            && m.sender == d.id && m.stage == stage && m.target == target && m.evidence == evidence && m.view == d.pbft.view
            && m.seqNo == (d.lastSeq + 1) % TWO_64 && m.prevHash == LastHash(d.pbft.log, d.id)
            && d1.id == d.id && d1.lastSeq == m.seqNo && d1.peers == d.peers && d1.sent == d.sent + [m]
            && d1.journal == d.journal && d1.entries == d.entries
            && d1.pbft == d.pbft.(ballots := d1.pbft.ballots) && d1.pbft.ballots.votes == d.pbft.ballots.votes
  {
  }

  /** Casting a vote with one of the next two numbers unsettles nothing. */
  ghost predicate KeepsSettled(cast: Casting) {
    CastingOk(cast) && forall s: State, m: Message, tick: Tick, n: U64, hash: Str, worst: nat ::
      Settled(s, m.sender, n, hash, worst) && n < m.seqNo <= n + 2 && worst < 97 ==>
        Settled(cast(s, m, tick).0, m.sender, n, hash, worst + 1)
  }

  lemma EngineKeepsSettled()
    ensures KeepsSettled(Engine())
  {
    forall s: State, m: Message, tick: Tick, n: U64, hash: Str, worst: nat
      | Settled(s, m.sender, n, hash, worst) && n < m.seqNo <= n + 2 && worst < 97
      ensures Settled(Engine()(s, m, tick).0, m.sender, n, hash, worst + 1)
    {
      CastSettled(s, m, tick, n, hash, worst);
    }
  }

  lemma {:induction false} ReactSettled(cast: Casting, d: Desk, next: Stage, stage: string, target: NodeId, evidence: string, sig: Signature,
                                        at: int, env: Env, n: U64, hash: Str, worst: nat)
    requires KeepsSettled(cast) && Follows(stage, next) && Settled(d.pbft, d.id, n, hash, worst) && worst + 2 * CallsLeft(stage) <= 90
    requires n + 2 < TWO_64 && n <= d.lastSeq && d.lastSeq + CallsLeft(stage) <= n + 3
    ensures Settled(ReactOn(cast, d, next, stage, target, evidence, sig, at, env).pbft, d.id, n, hash, 90)
    decreases CallsLeft(stage), 0
  {
    match next
    case Prepare => BroadcastSettled(cast, d, "PREPARE", target, evidence, env, n, hash, worst);
    case Commit =>
      BroadcastSettled(cast, d.(journal := d.journal + [("COMMIT", target, evidence)]), "COMMIT", target, evidence, env, n, hash, worst);
    case _ =>
  }

  /** One level of a broadcast, and what is settled after it. */
  lemma SettledParts(cast: Casting, d: Desk, stage: string, target: NodeId, evidence: string, env: Env, n: U64, hash: Str, worst: nat)
    returns (d2: Desk, next: Stage, sig: Signature)
    requires KeepsSettled(cast) && Settled(d.pbft, d.id, n, hash, worst) && worst < 90 && n + 2 < TWO_64
    requires n <= d.lastSeq && d.lastSeq + 1 <= n + 2
    ensures d2.id == d.id && d2.lastSeq == d.lastSeq + 1 && Settled(d2.pbft, d.id, n, hash, worst + 1) && Follows(stage, next)
    ensures BroadcastOn(cast, d, stage, target, evidence, env)
         == ReactOn(cast, d2, next, stage, target, evidence, sig, TickOf(env).at, RestOf(env))
  {
    var m, d1, s;
    m, d1, s, next := BroadcastParts(cast, d, stage, target, evidence, env);
    SendFrame(d, stage, target, evidence);
    assert Settled(d1.pbft, m.sender, n, hash, worst);
    d2, sig := d1.(pbft := s), m.signature;
  }

  lemma {:induction false} BroadcastSettled(cast: Casting, d: Desk, stage: string, target: NodeId, evidence: string, env: Env, n: U64, hash: Str, worst: nat)
    requires KeepsSettled(cast) && Settled(d.pbft, d.id, n, hash, worst) && worst + 2 * CallsLeft(stage) < 90 && n + 2 < TWO_64
    requires n <= d.lastSeq && d.lastSeq + CallsLeft(stage) <= n + 2
    ensures Settled(BroadcastOn(cast, d, stage, target, evidence, env).pbft, d.id, n, hash, 90)
    decreases CallsLeft(stage), 1
  {
    var d2, next, sig := SettledParts(cast, d, stage, target, evidence, env, n, hash, worst);
    ReactSettled(cast, d2, next, stage, target, evidence, sig, TickOf(env).at, RestOf(env), n, hash, worst + 1);
  }

  lemma CastNext(d: Desk, m: Message, d1: Desk, tick: Tick)
    requires d.lastSeq + 3 < TWO_64 && forall k :: k in HistoryAt(d.pbft.log, d.id) ==> k <= d.lastSeq
    requires m.sender == d.id && m.seqNo == d.lastSeq + 1 && d1.pbft.log == d.pbft.log && Counts(d1.pbft, m, tick)
    ensures Settled(CastOn(d1.pbft, m, tick).0, d.id, d.lastSeq + 1, MessageHash(m), 1)
  {
    CastTaken(d1.pbft, m, tick);
  }

  lemma TakenLevel(d: Desk, stage: string, target: NodeId, evidence: string, tick: Tick)
    returns (m: Message, d2: Desk, next: Stage)
    requires d.lastSeq + 3 < TWO_64 && forall k :: k in HistoryAt(d.pbft.log, d.id) ==> k <= d.lastSeq
    requires Counts(SendOn(d, stage, target, evidence).pbft, NextOwn(d, stage, target, evidence), tick)
    ensures Level(Engine(), d, stage, target, evidence, tick, m, d2, next) && d2.id == d.id && d2.lastSeq == d.lastSeq + 1
    ensures Settled(d2.pbft, d.id, d.lastSeq + 1, MessageHash(m), 1)
  {
    SendFrame(d, stage, target, evidence);
    var d1 := SendOn(d, stage, target, evidence);
    m := NextOwn(d, stage, target, evidence);
    CastNext(d, m, d1, tick);
    var c := CastOn(d1.pbft, m, tick);
    d2, next := d1.(pbft := c.0), c.1;
  }

  /**
   An own vote that verifies when it is sent, passes the limiter and was not seen, and whose number is the
   largest, is on the node's record under its number when the call returns, whatever the nested calls did.
   */
  lemma OwnVoteOnRecord(d: Desk, stage: string, target: NodeId, evidence: string, env: Env)
    requires d.lastSeq + 3 < TWO_64 && forall k :: k in HistoryAt(d.pbft.log, d.id) ==> k <= d.lastSeq
    requires Counts(SendOn(d, stage, target, evidence).pbft, NextOwn(d, stage, target, evidence), TickOf(env))
    ensures OnRecord(BroadcastOn(Engine(), d, stage, target, evidence, env).pbft, d.id, d.lastSeq + 1,
                     MessageHash(NextOwn(d, stage, target, evidence)))
  {
    var m, d2, next := TakenLevel(d, stage, target, evidence, TickOf(env));
    LevelOne(Engine(), d, stage, target, evidence, env, m, d2, next);
    EngineKeepsSettled();
    ReactSettled(Engine(), d2, next, stage, target, evidence, m.signature, TickOf(env).at, RestOf(env), d.lastSeq + 1, MessageHash(m), 1);
  }

  lemma CastTaken(s: State, m: Message, tick: Tick)
    requires Counts(s, m, tick) && forall k :: k in HistoryAt(s.log, m.sender) ==> k <= m.seqNo
    ensures Settled(CastOn(s, m, tick).0, m.sender, m.seqNo, MessageHash(m), 1)
  {
    var s1 := Verify(s, m, tick.now);
    CastCounts(s, m, tick);
    NewestKept(HistoryAt(s.log, m.sender), m.seqNo, MessageHash(m));
    EvictOldestKeepsNewest(HistoryAt(s.log, m.sender)[m.seqNo := MessageHash(m)]);
    TakenLog(s1, m, MessageHash(m), Rk(m), tick.now', tick.dropped);
  }

  // ---------------------------------------------------------------- a quorum of one

  /** The node knows its own key, is not banned, and is a quorum by itself. */
  ghost predicate Alone(s: State, id: NodeId, key: nat) {
    && s.signingKey == Some(key) && id in s.members.keys && s.members.keys[id] == PublicKey(key)
    && id !in s.members.banned && Quorum(s.members.total) == 1
  }

  function StageNo(n: nat): string { if n == 0 then "PRE_PREPARE" else if n == 1 then "PREPARE" else "COMMIT" }

  function Standing(n: nat): Stage { if n == 0 then Idle else if n == 1 then Prepare else if n == 2 then Commit else Executed }

  function Order(stage: string): nat {
    if stage == "PRE_PREPARE" then 1 else if stage == "PREPARE" then 2 else if stage == "COMMIT" then 3 else 4
  }

  ghost predicate FromStage(x: Str, n: nat) {
    exists m: Message :: x == MessageHash(m) && BarFree(m.stage) && Order(m.stage) <= n
  }

  /** Nothing but hashes of messages of the first n stages was seen. */
  ghost predicate SeenStages(seen: set<Str>, n: nat) {
    |seen| <= n && forall x :: x in seen ==> FromStage(x, n)
  }

  /** The node's record after its first n votes, and what the limiter still allows. */
  ghost predicate RecordAt(l: Log, id: NodeId, lastSeq: U64, max: int, n: nat) {
    && SeenStages(l.seen, n) && |RateAt(l, id)| + 3 <= max + n
    && |HistoryAt(l, id)| <= n && (if n == 0 then HistoryAt(l, id) == map[] else IsLargest(lastSeq, HistoryAt(l, id)))
  }

  /** The round after these votes, the last one counted at `t`. */
  ghost predicate RoundIs(b: Ballots, rk: Str, id: NodeId, view: int, n: nat, t: int) {
    && RoundAt(b, rk).state == Standing(n)
    && (n > 0 ==> rk in b.rounds && RoundAt(b, rk).view == view && RoundAt(b, rk).lastActivity == t)
    && (forall i :: n <= i < 3 ==> Voters(b, rk, StageNo(i)) == {}) && (n > 1 ==> Voters(b, rk, "PREPARE") == {id})
  }

  ghost predicate Stands(s: State, id: NodeId, key: nat, rk: Str, lastSeq: U64, n: nat, t: int) {
    Alone(s, id, key) && RecordAt(s.log, id, lastSeq, s.rateMax, n) && RoundIs(s.ballots, rk, id, s.view, n, t)
  }

  lemma StageOfHash(m: Message, m': Message)
    requires BarFree(m.stage) && BarFree(m'.stage) && MessageHash(m) == MessageHash(m')
    ensures m.stage == m'.stage
  {
    assert Digest(HashInput(m)) == MessageHash(m)[0] == MessageHash(m')[0] == Digest(HashInput(m'));
    var rest := Lift(m.sender) + [BAR] + (Lift(m.target) + [BAR] + (Lift(m.evidence) + [BAR] +
                (m.prevHash + [BAR] + (Lift(Print(m.seqNo)) + [BAR] + Lift(PrintInt(m.view))))));
    var rest' := Lift(m'.sender) + [BAR] + (Lift(m'.target) + [BAR] + (Lift(m'.evidence) + [BAR] +
                (m'.prevHash + [BAR] + (Lift(Print(m'.seqNo)) + [BAR] + Lift(PrintInt(m'.view))))));
    CutText(m.stage, rest, m'.stage, rest');
  }

  lemma LaterStage(x: Str, n: nat, m: Message)
    requires FromStage(x, n) && Order(m.stage) == n + 1 && BarFree(m.stage)
    ensures x != MessageHash(m)
  {
    var m' :| x == MessageHash(m') && BarFree(m'.stage) && Order(m'.stage) <= n;
    if x == MessageHash(m) { StageOfHash(m, m'); }
  }

  lemma NewStageUnseen(seen: set<Str>, n: nat, m: Message)
    requires SeenStages(seen, n) && Order(m.stage) == n + 1 && BarFree(m.stage)
    ensures MessageHash(m) !in seen && SeenStages(seen + {MessageHash(m)}, n + 1)
  {
    forall x | x in seen ensures x != MessageHash(m) && FromStage(x, n + 1) {
      LaterStage(x, n, m);
    }
    assert FromStage(MessageHash(m), n + 1);
  }

  /** A signed message that chains from its sender's last one, or is the first, verifies. */
  lemma ChainedVerifies(s: State, m: Message, key: nat, last: U64)
    requires m.sender in s.members.keys && s.members.keys[m.sender] == PublicKey(key) && m.sender !in s.members.banned
    requires m.signature == Signed(key, Blob(m))
    requires var h := HistoryAt(s.log, m.sender);
             h == map[] || (IsLargest(last, h) && m.seqNo == last + 1 && m.prevHash == h[last] && last + 100 < TWO_64)
    ensures Verifies(s, m)
  {
    var h := HistoryAt(s.log, m.sender);
    if h != map[] {
      assert Predecessor(m.seqNo) == last;
      assert IsLargest(last, h) && m.seqNo <= (last + MAX_SEQUENCE_GAP) % TWO_64;
    }
  }

  lemma LastIs(l: Log, id: NodeId, last: U64)
    requires IsLargest(last, HistoryAt(l, id))
    ensures LastHash(l, id) == HistoryAt(l, id)[last]
  {
    assert LargestKey(HistoryAt(l, id)) == last;
  }

  /** The node's next vote, as a value. */
  ghost predicate IsNextVote(m: Message, s: State, key: nat, rk: Str, lastSeq: U64, n: nat) {
    && n < 3 && m.stage == StageNo(n) && m.view == s.view && Rk(m) == rk && lastSeq + 100 < TWO_64 && m.seqNo == lastSeq + 1
    && m.signature == Signed(key, Blob(m)) && m.prevHash == LastHash(s.log, m.sender)
  }

  lemma StageNoFree(n: nat)
    ensures BarFree(StageNo(n)) && (n < 3 ==> Order(StageNo(n)) == n + 1)
  {
  }

  lemma NextCounts(s: State, m: Message, key: nat, rk: Str, lastSeq: U64, n: nat, t: int, tick: Tick)
    requires Stands(s, m.sender, key, rk, lastSeq, n, t) && IsNextVote(m, s, key, rk, lastSeq, n)
    ensures Counts(s, m, tick)
  {
    if n > 0 { LastIs(s.log, m.sender, lastSeq); }
    ChainedVerifies(s, m, key, lastSeq);
    StageNoFree(n);
    NewStageUnseen(s.log.seen, n, m);
  }

  /** The round is not stale yet. */
  predicate Soon(n: nat, t: int, now: int) { n == 0 || Seconds(now - t) <= 120 }

  lemma SoonMet(b: Ballots, rk: Str, id: NodeId, view: int, n: nat, t: int, now: int)
    requires RoundIs(b, rk, id, view, n, t) && Soon(n, t, now)
    ensures RoundIs(Cleanup(b, now), rk, id, view, n, t)
  {
    SweepExact(b, now, rk);
    CleanupRoundAt(b, now, rk);
  }

  lemma CleanupRoundAt(b: Ballots, now: int, rk: Str)
    ensures RoundAt(Cleanup(b, now), rk) == RoundAt(b, rk) || (rk in b.rounds && rk !in Cleanup(b, now).rounds)
  {
  }

  /** One more vote of the node moves the round one stage on. */
  lemma RoundMoves(b: Ballots, m: Message, mh: Str, rk: Str, view: int, n: nat, t: int, now: int)
    requires RoundIs(b, rk, m.sender, view, n, t) && n < 3 && m.stage == StageNo(n) && m.view == view
    ensures var c := CountVote(b, 1, m, mh, rk, now);
            c.1 == Standing(n + 1) && RoundIs(c.0, rk, m.sender, view, n + 1, now)
  {
    assert Voters(b, rk, StageNo(n)) == {};
    assert WithVote(b, m, rk) == {m.sender};
    if n == 2 { assert Voters(b, rk, "PREPARE") * {m.sender} == {m.sender}; }
    ReportedIff(b, 1, m, mh, rk, now);
    CountedIff(b, 1, m, mh, rk, now);
    RoundAfter(b, 1, m, mh, rk, now);
    CountVoteRounds(b, 1, m, mh, rk, now);
    var b' := CountVote(b, 1, m, mh, rk, now).0;
    forall i | n + 1 <= i < 3 ensures Voters(b', rk, StageNo(i)) == {} {
      CountVoteVoters(b, 1, m, mh, rk, now, rk, StageNo(i));
    }
    CountVoteVoters(b, 1, m, mh, rk, now, rk, "PREPARE");
  }

  lemma NextIsLargest(h: map<U64, Str>, last: U64, n: U64, hash: Str)
    requires (h == map[] || IsLargest(last, h)) && n == last + 1
    ensures IsLargest(n, h[n := hash])
  {
  }

  lemma LoggedRecord(l: Log, l': Log, m: Message, lastSeq: U64, max: int, n: nat)
    requires RecordAt(l, m.sender, lastSeq, max, n) && n < 3 && lastSeq + 1 < TWO_64 && m.seqNo == lastSeq + 1
    requires Logged(l, l', m, MessageHash(m)) && SeenStages(l'.seen, n + 1)
    ensures RecordAt(l', m.sender, m.seqNo, max, n + 1)
  {
    var h := HistoryAt(l, m.sender);
    SmallKept(h, m.seqNo, MessageHash(m));
    NextIsLargest(h, lastSeq, m.seqNo, MessageHash(m));
  }

  /** And is recorded. */
  lemma RecordMoves(s: State, m: Message, key: nat, rk: Str, lastSeq: U64, n: nat, t: int, tick: Tick)
    requires Stands(s, m.sender, key, rk, lastSeq, n, t) && IsNextVote(m, s, key, rk, lastSeq, n)
    ensures var s' := CastOn(s, m, tick).0; RecordAt(s'.log, m.sender, m.seqNo, s'.rateMax, n + 1)
  {
    NextCounts(s, m, key, rk, lastSeq, n, t, tick);
    StageNoFree(n);
    NewStageUnseen(s.log.seen, n, m);
    CastLog(s, m, tick);
    LoggedRecord(s.log, CastOn(s, m, tick).0.log, m, lastSeq, s.rateMax, n);
  }

  /** The log after a small one took a message in. */
  ghost predicate Logged(l: Log, l': Log, m: Message, mh: Str) {
    && l'.seen == l.seen + {mh} && HistoryAt(l', m.sender) == HistoryAt(l, m.sender)[m.seqNo := mh]
    && |RateAt(l', m.sender)| <= |RateAt(l, m.sender)| + 1
  }

  lemma CastLog(s: State, m: Message, tick: Tick)
    requires Counts(s, m, tick) && |s.log.seen| < 10 && |HistoryAt(s.log, m.sender)| < 10
    ensures var s' := CastOn(s, m, tick).0;
            Logged(s.log, s'.log, m, MessageHash(m)) && s'.rateMax == s.rateMax && s'.view == s.view && s'.signingKey == s.signingKey
  {
    var s1 := CastIsAdvance(s, m, tick);
    AdvanceLogs(s1, m, MessageHash(m), Rk(m), tick.now', tick.dropped);
  }

  lemma CastIsAdvance(s: State, m: Message, tick: Tick) returns (s1: State)
    requires Counts(s, m, tick)
    ensures s1 == s.(members := s1.members) && Takes(s1, AdvanceOp(m, MessageHash(m), Rk(m), tick.now', tick.dropped))
    ensures CastOn(s, m, tick) == Advance(s1, m, MessageHash(m), Rk(m), tick.now', tick.dropped)
  {
    s1 := Verify(s, m, tick.now);
    VerifyFrame(s, m, tick.now);
  }

  lemma AdvanceLogs(s: State, m: Message, mh: Str, rk: Str, now: int, dropped: set<Str>)
    requires Takes(s, AdvanceOp(m, mh, rk, now, dropped)) && |s.log.seen| < 10 && |HistoryAt(s.log, m.sender)| < 10
    ensures var s' := Advance(s, m, mh, rk, now, dropped).0;
            Logged(s.log, s'.log, m, mh) && s'.rateMax == s.rateMax && s'.view == s.view && s'.signingKey == s.signingKey
  {
    AdvanceSeen(s, m, mh, rk, now, dropped);
    TakenLog(s, m, mh, rk, now, dropped);
    SmallKept(HistoryAt(s.log, m.sender), m.seqNo, mh);
  }

  lemma SmallKept(h: map<U64, Str>, n: U64, hash: Str)
    requires |h| < 10
    ensures EvictOldest(h[n := hash]) == h[n := hash] && |h[n := hash]| <= |h| + 1
  {
    assert h[n := hash].Keys == h.Keys + {n};
    assert |h.Keys + {n}| <= |h.Keys| + 1;
  }

  lemma AdvanceSeen(s: State, m: Message, mh: Str, rk: Str, now: int, dropped: set<Str>)
    requires Takes(s, AdvanceOp(m, mh, rk, now, dropped)) && |s.log.seen| < 10
    ensures var s' := Advance(s, m, mh, rk, now, dropped).0;
            && s'.log.seen == s.log.seen + {mh} && s'.rateMax == s.rateMax && s'.view == s.view && s'.signingKey == s.signingKey
            && |RateAt(s'.log, m.sender)| <= |RateAt(s.log, m.sender)| + 1
  {
    AdmittedSeen(Swept(s, m.sender, now), m, mh, rk, now, dropped);
    assert |s.log.seen + {mh}| <= |s.log.seen| + 1;
  }

  lemma StandsNext(s: State, m: Message, key: nat, rk: Str, lastSeq: U64, n: nat, t: int, tick: Tick)
    requires Stands(s, m.sender, key, rk, lastSeq, n, t) && IsNextVote(m, s, key, rk, lastSeq, n) && Soon(n, t, tick.now')
    ensures var (s', next) := CastOn(s, m, tick);
            next == Standing(n + 1) && Stands(s', m.sender, key, rk, m.seqNo, n + 1, tick.now')
  {
    NextCounts(s, m, key, rk, lastSeq, n, t, tick);
    RecordMoves(s, m, key, rk, lastSeq, n, t, tick);
    CastLog(s, m, tick);
    CastCounts(s, m, tick);
    SoonMet(s.ballots, rk, m.sender, s.view, n, t, tick.now');
    RoundMoves(Met(s, tick), m, MessageHash(m), rk, s.view, n, t, tick.now');
  }

  // ---------------------------------------------------------------- the three votes of a lone node

  lemma CommitSigStands(s: State, id: NodeId, key: nat, rk: Str, lastSeq: U64, n: nat, t: int, sig: Signature)
    requires Stands(s, id, key, rk, lastSeq, n, t) && n > 0
    ensures Stands(Step(s, CommitSigOp(rk, sig)), id, key, rk, lastSeq, n, t)
  {
  }

  /** One more vote, of the stage whose turn it is. */
  ghost predicate OneMore(d: Desk, d': Desk, m: Message, target: NodeId, evidence: string, n: nat) {
    && d' == d.(lastSeq := m.seqNo, sent := d.sent + [m], pbft := d'.pbft)
    && IsVote(m, d.id, d.lastSeq + 1, StageNo(n), target, evidence)
  }

  predicate IsVote(m: Message, id: NodeId, seqNo: int, stage: string, target: NodeId, evidence: string) {
    m.stage == stage && m.sender == id && m.target == target && m.evidence == evidence && m.seqNo == seqNo
  }

  lemma SendStands(d: Desk, target: NodeId, evidence: string, key: nat, n: nat, t: int)
    requires n < 3 && d.lastSeq + 110 < TWO_64 && Stands(d.pbft, d.id, key, RoundKey(evidence, target), d.lastSeq, n, t)
    ensures var m, d1 := NextOwn(d, StageNo(n), target, evidence), SendOn(d, StageNo(n), target, evidence);
            && m.sender == d.id && Stands(d1.pbft, d.id, key, RoundKey(evidence, target), d.lastSeq, n, t)
            && IsNextVote(m, d1.pbft, key, RoundKey(evidence, target), d.lastSeq, n) && OneMore(d, d1, m, target, evidence, n)
  {
    SendFrame(d, StageNo(n), target, evidence);
    var m := NextOwn(d, StageNo(n), target, evidence);
    if n == 2 { CommitSigStands(d.pbft, d.id, key, RoundKey(evidence, target), d.lastSeq, n, t, m.signature); }
  }

  /** One level of a broadcast: the vote `m`, and the node after the cast reported `next`. */
  ghost predicate Level(cast: Casting, d: Desk, stage: string, target: NodeId, evidence: string, tick: Tick, m: Message, d': Desk, next: Stage) {
    var d1 := SendOn(d, stage, target, evidence);
    m == NextOwn(d, stage, target, evidence) && d' == d1.(pbft := d'.pbft) && cast(d1.pbft, m, tick) == (d'.pbft, next)
  }

  lemma LoneStep(d: Desk, target: NodeId, evidence: string, tick: Tick, key: nat, n: nat, t: int)
    returns (d2: Desk, m: Message)
    requires n < 3 && d.lastSeq + 110 < TWO_64 && Stands(d.pbft, d.id, key, RoundKey(evidence, target), d.lastSeq, n, t)
    requires Soon(n, t, tick.now')
    ensures OneMore(d, d2, m, target, evidence, n)
    ensures Stands(d2.pbft, d.id, key, RoundKey(evidence, target), d2.lastSeq, n + 1, tick.now')
    ensures Level(Engine(), d, StageNo(n), target, evidence, tick, m, d2, Standing(n + 1))
  {
    var d1 := SendOn(d, StageNo(n), target, evidence);
    m := NextOwn(d, StageNo(n), target, evidence);
    SendStands(d, target, evidence, key, n, t);
    StandsNext(d1.pbft, m, key, RoundKey(evidence, target), d.lastSeq, n, t, tick);
    d2 := d1.(pbft := CastOn(d1.pbft, m, tick).0);
  }

  function Journalled(d: Desk, target: NodeId, evidence: string): Desk { d.(journal := d.journal + [("COMMIT", target, evidence)]) }

  /** Three levels that end in EXECUTED are a whole broadcast. */
  lemma {:induction false} ThreeLevels(cast: Casting, d: Desk, target: NodeId, evidence: string, env: Env,
                    m1: Message, d1: Desk, m2: Message, d2: Desk, m3: Message, d3: Desk)
    requires CastingOk(cast) && Level(cast, d, "PRE_PREPARE", target, evidence, TickOf(env), m1, d1, Prepare)
    requires Level(cast, d1, "PREPARE", target, evidence, TickOf(RestOf(env)), m2, d2, Commit)
    requires Level(cast, Journalled(d2, target, evidence), "COMMIT", target, evidence, TickOf(RestOf(RestOf(env))), m3, d3, Executed)
    ensures BroadcastOn(cast, d, "PRE_PREPARE", target, evidence, env)
         == ExecuteOn(d3, "COMMIT", target, evidence, m3.signature, TickOf(RestOf(RestOf(env))).at)
  {
    var env1, env2 := RestOf(env), RestOf(RestOf(env));
    LevelOne(cast, d, "PRE_PREPARE", target, evidence, env, m1, d1, Prepare);
    LevelOne(cast, d1, "PREPARE", target, evidence, env1, m2, d2, Commit);
    LevelOne(cast, Journalled(d2, target, evidence), "COMMIT", target, evidence, env2, m3, d3, Executed);
  }

  lemma {:induction false} LevelOne(cast: Casting, d: Desk, stage: string, target: NodeId, evidence: string, env: Env, m: Message, d': Desk, next: Stage)
    requires CastingOk(cast) && Level(cast, d, stage, target, evidence, TickOf(env), m, d', next)
    ensures Follows(stage, next)
    ensures BroadcastOn(cast, d, stage, target, evidence, env)
         == ReactOn(cast, d', next, stage, target, evidence, m.signature, TickOf(env).at, RestOf(env))
  {
    assert m.stage == stage;
  }

  /** The clock readings at the three votes are no more than 120 seconds apart. */
  predicate Steady(env: Env) {
    var t1, t2, t3 := TickOf(env).now', TickOf(RestOf(env)).now', TickOf(RestOf(RestOf(env))).now';
    Seconds(t2 - t1) <= 120 && Seconds(t3 - t2) <= 120
  }

  /** Three votes more, one of each stage and numbered on. */
  ghost predicate ThreeMore(sent: seq<Message>, sent': seq<Message>, id: NodeId, lastSeq: U64, target: NodeId, evidence: string) {
    && |sent'| == |sent| + 3 && sent'[..|sent|] == sent
    && forall i :: 0 <= i < 3 ==> IsVote(sent'[|sent| + i], id, lastSeq + 1 + i, StageNo(i), target, evidence)
  }

  lemma ThreeVotes(sent: seq<Message>, id: NodeId, lastSeq: U64, target: NodeId, evidence: string, m1: Message, m2: Message, m3: Message)
    requires IsVote(m1, id, lastSeq + 1, StageNo(0), target, evidence)
    requires IsVote(m2, id, m1.seqNo + 1, StageNo(1), target, evidence) && IsVote(m3, id, m2.seqNo + 1, StageNo(2), target, evidence)
    ensures ThreeMore(sent, sent + [m1] + [m2] + [m3], id, lastSeq, target, evidence)
  {
    var sent' := sent + [m1] + [m2] + [m3];
    assert sent'[|sent|] == m1 && sent'[|sent| + 1] == m2 && sent'[|sent| + 2] == m3;
  }

  /** One vote is cast: `level` says how, and `stands` where the node is before and after. */
  ghost predicate Did(level: (Desk, nat, Tick, Message, Desk) -> bool, stands: (Desk, nat, int) -> bool,
                      target: NodeId, evidence: string, d: Desk, n: nat, tick: Tick, m: Message, d': Desk) {
    OneMore(d, d', m, target, evidence, n) && stands(d', n + 1, tick.now') && level(d, n, tick, m, d')
  }

  ghost predicate CanDo(level: (Desk, nat, Tick, Message, Desk) -> bool, stands: (Desk, nat, int) -> bool,
                        target: NodeId, evidence: string, d: Desk, n: nat, tick: Tick) {
    exists m, d' :: Did(level, stands, target, evidence, d, n, tick, m, d')
  }

  /** Whoever stands somewhere can cast the next vote soon enough; and a journal line makes no difference. */
  ghost predicate GoesOn(level: (Desk, nat, Tick, Message, Desk) -> bool, stands: (Desk, nat, int) -> bool,
                         target: NodeId, evidence: string) {
    && (forall d: Desk, n: nat, t: int, tick: Tick {:trigger stands(d, n, t), CanDo(level, stands, target, evidence, d, n, tick)} ::
          n < 3 && d.lastSeq + 110 < TWO_64 && stands(d, n, t) && Soon(n, t, tick.now') ==> CanDo(level, stands, target, evidence, d, n, tick))
    && (forall d: Desk, n: nat, t: int :: stands(d, n, t) ==> stands(Journalled(d, target, evidence), n, t))
  }

  lemma OneVote(level: (Desk, nat, Tick, Message, Desk) -> bool, stands: (Desk, nat, int) -> bool,
                target: NodeId, evidence: string, d: Desk, n: nat, t: int, tick: Tick) returns (m: Message, d': Desk)
    requires GoesOn(level, stands, target, evidence)
    requires n < 3 && d.lastSeq + 110 < TWO_64 && stands(d, n, t) && Soon(n, t, tick.now')
    ensures Did(level, stands, target, evidence, d, n, tick, m, d')
  {
    assert CanDo(level, stands, target, evidence, d, n, tick);
    m, d' :| Did(level, stands, target, evidence, d, n, tick, m, d');
  }

  /** So three votes can be cast. */
  lemma ThreeCasts(level: (Desk, nat, Tick, Message, Desk) -> bool, stands: (Desk, nat, int) -> bool,
                   d: Desk, target: NodeId, evidence: string, env: Env)
    returns (d1: Desk, m1: Message, d2: Desk, m2: Message, d3: Desk, m3: Message)
    requires GoesOn(level, stands, target, evidence) && d.lastSeq + 200 < TWO_64 && stands(d, 0, 0) && Steady(env)
    ensures level(d, 0, TickOf(env), m1, d1) && level(d1, 1, TickOf(RestOf(env)), m2, d2)
    ensures level(Journalled(d2, target, evidence), 2, TickOf(RestOf(RestOf(env))), m3, d3)
    ensures stands(d3, 3, TickOf(RestOf(RestOf(env))).now')
    ensures ThreeMore(d.sent, d3.sent, d.id, d.lastSeq, target, evidence) && d3.entries == d.entries && d3.peers == d.peers && d3.id == d.id
  {
    m1, d1 := OneVote(level, stands, target, evidence, d, 0, 0, TickOf(env));
    m2, d2 := OneVote(level, stands, target, evidence, d1, 1, TickOf(env).now', TickOf(RestOf(env)));
    m3, d3 := OneVote(level, stands, target, evidence, Journalled(d2, target, evidence), 2, TickOf(RestOf(env)).now', TickOf(RestOf(RestOf(env))));
    ThreeVotes(d.sent, d.id, d.lastSeq, target, evidence, m1, m2, m3);
  }

  ghost function Standings(id: NodeId, key: nat, rk: Str): (Desk, nat, int) -> bool {
    (d: Desk, n: nat, t: int) => d.id == id && Stands(d.pbft, id, key, rk, d.lastSeq, n, t)
  }

  ghost function Levels(target: NodeId, evidence: string): (Desk, nat, Tick, Message, Desk) -> bool {
    (d: Desk, n: nat, tick: Tick, m: Message, d': Desk) => Level(Engine(), d, StageNo(n), target, evidence, tick, m, d', Standing(n + 1))
  }

  ghost predicate AreStandings(stands: (Desk, nat, int) -> bool, id: NodeId, key: nat, rk: Str) {
    forall d: Desk, n: nat, t: int :: stands(d, n, t) <==> d.id == id && Stands(d.pbft, id, key, rk, d.lastSeq, n, t)
  }

  ghost predicate AreLevels(level: (Desk, nat, Tick, Message, Desk) -> bool, target: NodeId, evidence: string) {
    forall d: Desk, n: nat, tick: Tick, m: Message, d': Desk ::
      level(d, n, tick, m, d') <==> Level(Engine(), d, StageNo(n), target, evidence, tick, m, d', Standing(n + 1))
  }

  lemma Named(id: NodeId, key: nat, target: NodeId, evidence: string)
    ensures AreStandings(Standings(id, key, RoundKey(evidence, target)), id, key, RoundKey(evidence, target))
    ensures AreLevels(Levels(target, evidence), target, evidence)
  {
  }

  lemma LoneCanDo(level: (Desk, nat, Tick, Message, Desk) -> bool, stands: (Desk, nat, int) -> bool,
                  id: NodeId, key: nat, target: NodeId, evidence: string, d: Desk, n: nat, t: int, tick: Tick)
    requires AreLevels(level, target, evidence) && AreStandings(stands, id, key, RoundKey(evidence, target))
    requires n < 3 && d.lastSeq + 110 < TWO_64 && stands(d, n, t) && Soon(n, t, tick.now')
    ensures CanDo(level, stands, target, evidence, d, n, tick)
  {
    var d', m := LoneStep(d, target, evidence, tick, key, n, t);
    assert Did(level, stands, target, evidence, d, n, tick, m, d');
  }

  lemma JournalStands(stands: (Desk, nat, int) -> bool, id: NodeId, key: nat, rk: Str, d: Desk, n: nat, t: int, target: NodeId, evidence: string)
    requires AreStandings(stands, id, key, rk) && stands(d, n, t)
    ensures stands(Journalled(d, target, evidence), n, t)
  {
  }

  lemma LoneGoesOn(level: (Desk, nat, Tick, Message, Desk) -> bool, stands: (Desk, nat, int) -> bool,
                   id: NodeId, key: nat, target: NodeId, evidence: string)
    requires AreLevels(level, target, evidence) && AreStandings(stands, id, key, RoundKey(evidence, target))
    ensures GoesOn(level, stands, target, evidence)
  {
    forall d: Desk, n: nat, t: int, tick: Tick | n < 3 && d.lastSeq + 110 < TWO_64 && stands(d, n, t) && Soon(n, t, tick.now')
      ensures CanDo(level, stands, target, evidence, d, n, tick)
    {
      LoneCanDo(level, stands, id, key, target, evidence, d, n, t, tick);
    }
    forall d: Desk, n: nat, t: int | stands(d, n, t) ensures stands(Journalled(d, target, evidence), n, t) {
      JournalStands(stands, id, key, RoundKey(evidence, target), d, n, t, target, evidence);
    }
  }

  lemma LoneVotes(level: (Desk, nat, Tick, Message, Desk) -> bool, stands: (Desk, nat, int) -> bool,
                  d: Desk, target: NodeId, evidence: string, env: Env, key: nat)
    returns (d1: Desk, m1: Message, d2: Desk, m2: Message, d3: Desk, m3: Message)
    requires AreLevels(level, target, evidence) && AreStandings(stands, d.id, key, RoundKey(evidence, target))
    requires d.lastSeq + 200 < TWO_64 && Stands(d.pbft, d.id, key, RoundKey(evidence, target), d.lastSeq, 0, 0) && Steady(env)
    ensures Level(Engine(), d, StageNo(0), target, evidence, TickOf(env), m1, d1, Standing(1))
    ensures Level(Engine(), d1, StageNo(1), target, evidence, TickOf(RestOf(env)), m2, d2, Standing(2))
    ensures Level(Engine(), Journalled(d2, target, evidence), StageNo(2), target, evidence, TickOf(RestOf(RestOf(env))), m3, d3, Standing(3))
    ensures ThreeMore(d.sent, d3.sent, d.id, d.lastSeq, target, evidence) && d3.entries == d.entries && d3.peers == d.peers
    ensures RoundAt(d3.pbft.ballots, RoundKey(evidence, target)).state == Executed
  {
    LoneGoesOn(level, stands, d.id, key, target, evidence);
    d1, m1, d2, m2, d3, m3 := ThreeCasts(level, stands, d, target, evidence, env);
  }

  /** Executing changes neither the votes sent nor the ballots, and records one decision if it records one. */
  lemma ExecuteFrame(d: Desk, target: NodeId, evidence: string, sig: Signature, at: int)
    ensures var d' := ExecuteOn(d, "COMMIT", target, evidence, sig, at);
            && d'.sent == d.sent && d'.pbft.ballots == d.pbft.ballots
            && (!Contains(evidence, BAN_MARK) && d.peers >= 1 ==> |d'.entries| == |d.entries| + 1)
  {
  }

  lemma LoneBroadcast(level: (Desk, nat, Tick, Message, Desk) -> bool, stands: (Desk, nat, int) -> bool,
                      d: Desk, target: NodeId, evidence: string, env: Env, key: nat) returns (d3: Desk, sig: Signature)
    requires AreLevels(level, target, evidence) && AreStandings(stands, d.id, key, RoundKey(evidence, target))
    requires d.lastSeq + 200 < TWO_64 && Stands(d.pbft, d.id, key, RoundKey(evidence, target), d.lastSeq, 0, 0) && Steady(env)
    ensures ThreeMore(d.sent, d3.sent, d.id, d.lastSeq, target, evidence) && d3.entries == d.entries && d3.peers == d.peers
    ensures RoundAt(d3.pbft.ballots, RoundKey(evidence, target)).state == Executed
    ensures BroadcastOn(Engine(), d, "PRE_PREPARE", target, evidence, env)
         == ExecuteOn(d3, "COMMIT", target, evidence, sig, TickOf(RestOf(RestOf(env))).at)
  {
    var d1, m1, d2, m2, m3;
    d1, m1, d2, m2, d3, m3 := LoneVotes(level, stands, d, target, evidence, env, key);
    ThreeLevels(Engine(), d, target, evidence, env, m1, d1, m2, d2, m3, d3);
    sig := m3.signature;
  }

  lemma StandsAtFirst(d: Desk, key: nat, rk: Str)
    requires Alone(d.pbft, d.id, key) && HistoryAt(d.pbft.log, d.id) == map[] && d.pbft.log.seen == {}
    requires |RateAt(d.pbft.log, d.id)| + 3 <= d.pbft.rateMax && rk !in d.pbft.ballots.rounds && rk !in d.pbft.ballots.votes
    ensures Stands(d.pbft, d.id, key, rk, d.lastSeq, 0, 0)
  {
  }

  /**
   A node that is a quorum by itself, with its own key registered, nothing on record, at least three admissions left
   and a round that has not begun: the call sends exactly three votes, one of each stage and with consecutive
   numbers, and the round is EXECUTED; what follows is what any execution leads to.
   */
  lemma LoneNodeExecutes(d: Desk, target: NodeId, evidence: string, env: Env, key: nat)
    requires Alone(d.pbft, d.id, key) && d.lastSeq + 200 < TWO_64 && Steady(env)
    requires HistoryAt(d.pbft.log, d.id) == map[] && d.pbft.log.seen == {} && |RateAt(d.pbft.log, d.id)| + 3 <= d.pbft.rateMax
    requires var b, rk := d.pbft.ballots, RoundKey(evidence, target); rk !in b.rounds && rk !in b.votes
    ensures var d' := BroadcastOn(Engine(), d, "PRE_PREPARE", target, evidence, env);
            && ThreeMore(d.sent, d'.sent, d.id, d.lastSeq, target, evidence)
            && RoundAt(d'.pbft.ballots, RoundKey(evidence, target)).state == Executed
            && (!Contains(evidence, BAN_MARK) && d.peers >= 1 ==> |d'.entries| == |d.entries| + 1)
  {
    var rk := RoundKey(evidence, target);
    StandsAtFirst(d, key, rk);
    Named(d.id, key, target, evidence);
    var d3, sig := LoneBroadcast(Levels(target, evidence), Standings(d.id, key, rk), d, target, evidence, env, key);
    ExecuteFrame(d3, target, evidence, sig, TickOf(RestOf(RestOf(env))).at);
  }

  /** A new node with at most three nodes in its engine is such a one. */
  lemma NewNodeStands(id: NodeId, key: nat, total: int, window: int, max: int, peers: nat)
    ensures var s := Step(Step(InitialState(total, window, max), RegisterOp(id, PublicKey(key))), IdentityOp(id, Some(key)));
            total <= 3 ==> Alone(s, id, key) && HistoryAt(s.log, id) == map[] && s.log.seen == {} && RateAt(s.log, id) == []
  {
  }
}
