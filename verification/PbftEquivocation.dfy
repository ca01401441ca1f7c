/** Evidence of equivocation: recorded when it should be, and only then. */
module PbftEquivocation {
  import opened Symbolic
  import opened Pbft
  import opened PbftRegistry
  import opened PbftReplay

  /** The call takes the message in: its hash is new and it passes the limiter. */
  predicate Takes(s: State, op: Op) {
    op.AdvanceOp? && PassesLimiter(s, op.m, op.now) && op.mh !in s.log.seen
  }

  ghost predicate OnRecord(s: State, id: NodeId, n: U64, hash: Str) {
    n in HistoryAt(s.log, id) && HistoryAt(s.log, id)[n] == hash
  }

  /** The message is the newest of its sender's history; another hash under its number is evidence, and costs trust. */
  ghost predicate TakenIn(s: State, s': State, m: Message, mh: Str, now: int) {
    var h := HistoryAt(s.log, m.sender);
    && s'.log.history == s.log.history[m.sender := EvictOldest(h[m.seqNo := mh])]
    && s'.members.(trust := s.members.trust) == s.members
    && (if m.seqNo in h && h[m.seqNo] != mh
        then && s'.log.equivocations == s.log.equivocations[m.sender := Equivocation(m.sender, m.seqNo, m.view, h[m.seqNo], mh, now)]
             && s'.members.trust == s.members.trust[m.sender := EquivocatedTrust(TrustAt(s.members, m.sender), now)]
        else s'.log.equivocations == s.log.equivocations && s'.members.trust == s.members.trust)
  }

  lemma AdmittedLog(s: State, m: Message, mh: Str, rk: Str, now: int, dropped: set<Str>)
    requires mh !in s.log.seen
    ensures TakenIn(s, Admitted(s, m, mh, rk, now, dropped).0, m, mh, now)
  {
  }

  /** What taking a message in does to history, evidence and trust. */
  lemma TakenLog(s: State, m: Message, mh: Str, rk: Str, now: int, dropped: set<Str>)
    requires Takes(s, AdvanceOp(m, mh, rk, now, dropped))
    ensures TakenIn(s, Advance(s, m, mh, rk, now, dropped).0, m, mh, now)
  {
    AdmittedLog(Swept(s, m.sender, now), m, mh, rk, now, dropped);
  }

  /** Any other call leaves the evidence alone and the history no larger. */
  lemma OtherLog(s: State, op: Op)
    requires !Takes(s, op)
    ensures Step(s, op).log.equivocations == s.log.equivocations
    ensures forall id :: id in Step(s, op).log.history ==> id in s.log.history && Step(s, op).log.history[id] == s.log.history[id]
  {
    match op
    case AdvanceOp(m, mh, rk, now, dropped) =>
      if PassesLimiter(s, m, now) {
        SeenIsIdle(s, m, mh, rk, now, dropped);
      } else if m.sender in s.members.keys && m.sender !in s.members.banned {
        FailureNothingMore(Swept(s, m.sender, now), m.sender, now);
      }
    case VerifyOp(m, now) => FailureNothingMore(s, m.sender, now);
    case _ =>
  }

  lemma NewestKept(h: map<U64, Str>, n: U64, hash: Str)
    requires |h| < 10000 || forall k :: k in h ==> k <= n
    ensures var r := EvictOldest(h[n := hash]); n in r && r[n] == hash
  {
    var h' := h[n := hash];
    if |h| < 10000 {
      assert h'.Keys == h.Keys + {n};
      assert |h'| <= 10000;
    } else {
      LargestSurvives(h', n);
    }
    EvictOldestKeepsNewest(h');
  }

  /** The new hash is on record afterwards, if its number is the largest or the history is not full. */
  lemma TakenOnRecord(s: State, m: Message, mh: Str, rk: Str, now: int, dropped: set<Str>)
    requires Takes(s, AdvanceOp(m, mh, rk, now, dropped))
    requires var h := HistoryAt(s.log, m.sender);
             |h| < 10000 || forall k :: k in h ==> k <= m.seqNo
    ensures OnRecord(Advance(s, m, mh, rk, now, dropped).0, m.sender, m.seqNo, mh)
  {
    TakenLog(s, m, mh, rk, now, dropped);
    NewestKept(HistoryAt(s.log, m.sender), m.seqNo, mh);
  }

  /**
   Two messages of one sender with one number and different hashes, both taken in, the first still on record
   when the second comes, whatever was called in between: there is evidence naming sender, number and both
   hashes in order; the count is one higher, and the trust 0.3 lower but not below zero.
   */
  lemma {:induction false} TwiceIsEvidence(s: State, first: Op, between: seq<Op>, second: Op)
    requires Takes(s, first) && Takes(Run(Step(s, first), between), second)
    requires first.m.sender == second.m.sender && first.m.seqNo == second.m.seqNo && first.mh != second.mh
    requires OnRecord(Run(Step(s, first), between), first.m.sender, first.m.seqNo, first.mh)
    ensures var later := Run(Step(s, first), between);
            var s', id := Step(later, second), second.m.sender;
            var t, t' := TrustAt(later.members, id), TrustAt(s'.members, id);
            && id in s'.log.equivocations
            && s'.log.equivocations[id] == Equivocation(id, first.m.seqNo, second.m.view, first.mh, second.mh, second.now)
            && t'.equivocations == t.equivocations + 1 && t'.failures == t.failures + 1 && t'.lastFailure == second.now
            && t'.score == (if t.score >= 6 then t.score - 6 else 0) && t'.successes == t.successes
  {
    TakenLog(Run(Step(s, first), between), second.m, second.mh, second.rk, second.now, second.dropped);
  }

  // ---------------------------------------------------------------- and only then

  /** The i-th call of the run took its message in. */
  ghost predicate Took(s: State, ops: seq<Op>, i: nat) {
    i < |ops| && Takes(Run(s, ops[..i]), ops[i])
  }

  /** Some call took a message of this sender with this number and hash in. */
  ghost predicate TookFor(s: State, ops: seq<Op>, id: NodeId, n: U64, hash: Str) {
    exists i: nat :: Took(s, ops, i) && ops[i].m.sender == id && ops[i].m.seqNo == n && ops[i].mh == hash
  }

  lemma TookStill(s: State, ops: seq<Op>, op: Op, i: nat)
    requires Took(s, ops, i)
    ensures Took(s, ops + [op], i) && (ops + [op])[i] == ops[i]
  {
    assert (ops + [op])[..i] == ops[..i];
  }

  lemma TookLast(s: State, ops: seq<Op>, op: Op)
    requires Takes(Run(s, ops), op)
    ensures Took(s, ops + [op], |ops|) && (ops + [op])[|ops|] == op
  {
    assert (ops + [op])[..|ops|] == ops;
  }

  lemma TookForStill(s: State, ops: seq<Op>, op: Op, id: NodeId, n: U64, hash: Str)
    requires TookFor(s, ops, id, n, hash)
    ensures TookFor(s, ops + [op], id, n, hash)
  {
    var i: nat :| Took(s, ops, i) && ops[i].m.sender == id && ops[i].m.seqNo == n && ops[i].mh == hash;
    TookStill(s, ops, op, i);
  }

  ghost predicate HistoryTook(s: State, ops: seq<Op>) {
    forall id, n, hash :: OnRecord(Run(s, ops), id, n, hash) ==> TookFor(s, ops, id, n, hash)
  }

  /** Evidence that two calls bear out, the second one later. */
  ghost predicate BorneOut(s: State, ops: seq<Op>, e: Equivocation) {
    exists i: nat, j: nat ::
      && i < j && Took(s, ops, i) && Took(s, ops, j) && e.hash1 != e.hash2
      && ops[i].m.sender == e.node && ops[i].m.seqNo == e.seqNo && ops[i].mh == e.hash1
      && ops[j].m.sender == e.node && ops[j].m.seqNo == e.seqNo && ops[j].mh == e.hash2
      && ops[j].m.view == e.view && ops[j].now == e.at
  }

  ghost predicate EvidenceOk(s: State, ops: seq<Op>) {
    forall id :: id in Run(s, ops).log.equivocations ==>
      Run(s, ops).log.equivocations[id].node == id && BorneOut(s, ops, Run(s, ops).log.equivocations[id])
  }

  lemma RunLast(s: State, ops: seq<Op>, op: Op)
    ensures Run(s, ops + [op]) == Step(Run(s, ops), op)
  {
    assert (ops + [op])[..|ops|] == ops;
  }

  lemma BorneOutStill(s: State, ops: seq<Op>, op: Op, e: Equivocation)
    requires BorneOut(s, ops, e)
    ensures BorneOut(s, ops + [op], e)
  {
    var i: nat, j: nat :|
      && i < j && Took(s, ops, i) && Took(s, ops, j) && e.hash1 != e.hash2
      && ops[i].m.sender == e.node && ops[i].m.seqNo == e.seqNo && ops[i].mh == e.hash1
      && ops[j].m.sender == e.node && ops[j].m.seqNo == e.seqNo && ops[j].mh == e.hash2
      && ops[j].m.view == e.view && ops[j].now == e.at;
    TookStill(s, ops, op, i);
    TookStill(s, ops, op, j);
  }

  /** A new piece of evidence: the hash on record was taken in earlier, and the contradicting one just now. */
  lemma NewBorneOut(s: State, ops: seq<Op>, op: Op, hash: Str)
    requires Takes(Run(s, ops), op) && TookFor(s, ops, op.m.sender, op.m.seqNo, hash) && hash != op.mh
    ensures BorneOut(s, ops + [op], Equivocation(op.m.sender, op.m.seqNo, op.m.view, hash, op.mh, op.now))
  {
    var i: nat :| Took(s, ops, i) && ops[i].m.sender == op.m.sender && ops[i].m.seqNo == op.m.seqNo && ops[i].mh == hash;
    TookStill(s, ops, op, i);
    TookLast(s, ops, op);
  }

  lemma TakenInRecord(s: State, s': State, m: Message, mh: Str, now: int, id: NodeId, n: U64, hash: Str)
    requires TakenIn(s, s', m, mh, now) && OnRecord(s', id, n, hash)
    ensures OnRecord(s, id, n, hash) || (m.sender == id && m.seqNo == n && mh == hash)
  {
    EvictOldestKeepsNewest(HistoryAt(s.log, m.sender)[m.seqNo := mh]);
  }

  lemma TakenInEvidence(s: State, s': State, m: Message, mh: Str, now: int, id: NodeId) returns (hash: Str)
    requires TakenIn(s, s', m, mh, now) && id in s'.log.equivocations
    ensures || (id in s.log.equivocations && s'.log.equivocations[id] == s.log.equivocations[id])
            || (&& m.sender == id && OnRecord(s, id, m.seqNo, hash) && hash != mh
                && s'.log.equivocations[id] == Equivocation(id, m.seqNo, m.view, hash, mh, now))
  {
    var h := HistoryAt(s.log, m.sender);
    hash := if m.seqNo in h then h[m.seqNo] else [];
  }

  /** What is on record afterwards was on record, or has just been taken in. */
  lemma OnRecordAfter(s: State, op: Op, id: NodeId, n: U64, hash: Str)
    requires OnRecord(Step(s, op), id, n, hash)
    ensures OnRecord(s, id, n, hash) || (Takes(s, op) && op.m.sender == id && op.m.seqNo == n && op.mh == hash)
  {
    if Takes(s, op) {
      TakenLog(s, op.m, op.mh, op.rk, op.now, op.dropped);
      TakenInRecord(s, Step(s, op), op.m, op.mh, op.now, id, n, hash);
    } else {
      OtherLog(s, op);
    }
  }

  lemma StepHistoryTook(s: State, ops: seq<Op>, op: Op)
    requires HistoryTook(s, ops)
    ensures HistoryTook(s, ops + [op])
  {
    RunLast(s, ops, op);
    forall id, n, hash | OnRecord(Run(s, ops + [op]), id, n, hash) ensures TookFor(s, ops + [op], id, n, hash) {
      OnRecordAfter(Run(s, ops), op, id, n, hash);
      if OnRecord(Run(s, ops), id, n, hash) {
        TookForStill(s, ops, op, id, n, hash);
      } else {
        TookLast(s, ops, op);
      }
    }
  }

  /** Evidence afterwards is old, or contradicts what was on record. */
  lemma EvidenceAfter(s: State, op: Op, id: NodeId) returns (hash: Str)
    requires id in Step(s, op).log.equivocations
    ensures || (id in s.log.equivocations && Step(s, op).log.equivocations[id] == s.log.equivocations[id])
            || (&& Takes(s, op) && op.m.sender == id && OnRecord(s, id, op.m.seqNo, hash) && hash != op.mh
                && Step(s, op).log.equivocations[id] == Equivocation(id, op.m.seqNo, op.m.view, hash, op.mh, op.now))
  {
    hash := [];
    if Takes(s, op) {
      TakenLog(s, op.m, op.mh, op.rk, op.now, op.dropped);
      hash := TakenInEvidence(s, Step(s, op), op.m, op.mh, op.now, id);
    } else {
      OtherLog(s, op);
    }
  }

  lemma StepEvidenceOk(s: State, ops: seq<Op>, op: Op)
    requires HistoryTook(s, ops) && EvidenceOk(s, ops)
    ensures EvidenceOk(s, ops + [op])
  {
    var before, after := Run(s, ops).log, Run(s, ops + [op]).log;
    RunLast(s, ops, op);
    forall id | id in after.equivocations
      ensures after.equivocations[id].node == id && BorneOut(s, ops + [op], after.equivocations[id])
    {
      var hash := EvidenceAfter(Run(s, ops), op, id);
      if id in before.equivocations && after.equivocations[id] == before.equivocations[id] {
        BorneOutStill(s, ops, op, before.equivocations[id]);
      } else {
        NewBorneOut(s, ops, op, hash);
      }
    }
  }

  /**
   In every run from a state without history and evidence: all evidence about a sender names that sender and two
   different hashes that were taken in for one of its numbers, in this order.
   */
  lemma {:induction false} EvidenceIsReal(s: State, ops: seq<Op>)
    requires s.log.history == map[] && s.log.equivocations == map[]
    ensures HistoryTook(s, ops) && EvidenceOk(s, ops)
  {
    if ops != [] {
      var before, op := ops[..|ops| - 1], ops[|ops| - 1];
      EvidenceIsReal(s, before);
      assert before + [op] == ops;
      StepHistoryTook(s, before, op);
      StepEvidenceOk(s, before, op);
    }
  }
}
