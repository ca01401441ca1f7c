/** What verify_message demands of a sequence number, and how far a sender can get with it. */
module PbftSequence {
  import opened Symbolic
  import opened Pbft
  import opened PbftRegistry
  import opened PbftEquivocation
  import opened NodeSpec
  import opened NodeAnswers

  /**
   With something on record for the sender, exactly these messages verify: of a known sender that is not banned,
   signed by it over their own text, chained from the message one number before if that is on record and else
   from nothing or the genesis hash, and numbered at most a hundred above the largest number on record.
   */
  lemma VerifiesIff(s: State, m: Message, largest: U64)
    requires IsLargest(largest, HistoryAt(s.log, m.sender)) && largest + 100 < TWO_64
    ensures var h := HistoryAt(s.log, m.sender);
            Verifies(s, m) <==>
              && m.sender !in s.members.banned && m.sender in s.members.keys && s.members.keys[m.sender].PublicKey?
              && m.signature == Signed(s.members.keys[m.sender].id, Blob(m))
              && (if m.seqNo > 0 && m.seqNo - 1 in h then m.prevHash == h[m.seqNo - 1]
                  else if m.seqNo == 0 && TWO_64 - 1 in h then m.prevHash == h[TWO_64 - 1]
                  else m.prevHash == [] || m.prevHash == Genesis())
              && m.seqNo <= largest + 100
  {
    assert Predecessor(m.seqNo) == if m.seqNo > 0 then m.seqNo - 1 else TWO_64 - 1;
    forall k: U64 | IsLargest(k, HistoryAt(s.log, m.sender)) ensures k == largest {}
  }

  /** The sender has numbers up to `k` on record, or is no longer listened to. */
  ghost predicate UpTo(s: State, id: NodeId, k: int) {
    || (HistoryAt(s.log, id) != map[] && forall j :: j in HistoryAt(s.log, id) ==> j <= k)
    || id !in s.members.keys || id in s.members.banned
  }

  lemma FailureUpTo(s: State, id: NodeId, now: int, other: NodeId, k: int)
    requires UpTo(s, other, k)
    ensures UpTo(RecordFailure(s, id, now), other, k)
  {
  }

  lemma AdvanceKeys(s: State, m: Message, mh: Str, rk: Str, now: int, dropped: set<Str>)
    ensures var g := Advance(s, m, mh, rk, now, dropped).0.members;
            g.keys.Keys <= s.members.keys.Keys && s.members.banned <= g.banned
  {
    if m.sender in s.members.keys && m.sender !in s.members.banned && RateAdmits(s, m.sender, now) {
      AdmittedFrame(Swept(s, m.sender, now), m, mh, rk, now, dropped);
    }
  }

  lemma AdvanceUpTo(s: State, m: Message, mh: Str, rk: Str, now: int, dropped: set<Str>, id: NodeId, k: int)
    requires UpTo(s, id, k) && (m.sender == id ==> m.seqNo <= k)
    ensures UpTo(Advance(s, m, mh, rk, now, dropped).0, id, k)
  {
    AdvanceKeys(s, m, mh, rk, now, dropped);
    if m.sender != id {
      AdvanceRecords(s, m, mh, rk, now, dropped);
    } else if Takes(s, AdvanceOp(m, mh, rk, now, dropped)) {
      TakenLog(s, m, mh, rk, now, dropped);
      EvictOldestKeepsNewest(HistoryAt(s.log, id)[m.seqNo := mh]);
      NewHistoryBounded(HistoryAt(s.log, id), m.seqNo, mh);
    } else if m.sender in s.members.keys && m.sender !in s.members.banned {
      assert UpTo(Swept(s, id, now), id, k);
      FailureUpTo(Swept(s, id, now), id, now, id, k);
    }
  }

  lemma VerifiedUpTo(s: State, m: Message, k: U64)
    requires UpTo(s, m.sender, k) && Verifies(s, m) && k + 100 < TWO_64
    ensures m.seqNo <= k + 100
  {
    var h := HistoryAt(s.log, m.sender);
    var largest: U64 :| IsLargest(largest, h) && m.seqNo <= (largest + MAX_SEQUENCE_GAP) % TWO_64;
    VerifiesIff(s, m, largest);
  }

  /** One vote put through the engine, verified and counted as the node does it. */
  lemma CastUpTo(s: State, m: Message, tick: Tick, id: NodeId, k: U64)
    requires UpTo(s, id, k) && k + 100 < TWO_64
    ensures UpTo(CastOn(s, m, tick).0, id, k + 100)
  {
    if Verifies(s, m) {
      var s1 := Verify(s, m, tick.now);
      VerifyFrame(s, m, tick.now);
      if m.sender == id { VerifiedUpTo(s, m, k); }
      assert UpTo(s1, id, k + 100);
      AdvanceUpTo(s1, m, MessageHash(m), Rk(m), tick.now', tick.dropped, id, k + 100);
    } else {
      FailureUpTo(s, m.sender, tick.now, id, k);
    }
  }

  ghost function CastAll(s: State, votes: seq<(Message, Tick)>): State {
    if votes == [] then s else CastOn(CastAll(s, votes[..|votes| - 1]), votes[|votes| - 1].0, votes[|votes| - 1].1).0
  }

  /** However many votes come, from whomever: a sender's numbers on record grow by at most a hundred with each. */
  lemma {:induction false} NumbersGrowSlowly(s: State, votes: seq<(Message, Tick)>, id: NodeId, k: U64)
    requires UpTo(s, id, k) && k + 100 * |votes| + 100 < TWO_64
    ensures UpTo(CastAll(s, votes), id, k + 100 * |votes|)
  {
    if votes != [] {
      var front, vote := votes[..|votes| - 1], votes[|votes| - 1];
      NumbersGrowSlowly(s, front, id, k);
      CastUpTo(CastAll(s, front), vote.0, vote.1, id, k + 100 * |front|);
    }
  }
}
