/** Message histories and the node count over whole runs. */
module PbftMembership {
  import opened Symbolic
  import opened Pbft
  import opened PbftRegistry

  // ---------------------------------------------------------------- histories never lose their largest entry

  lemma RecordFailureHistory(s: State, id: NodeId, now: int)
    ensures RecordFailure(s, id, now).log.history == s.log.history
         || RecordFailure(s, id, now).log.history == s.log.history - {id}
  {
  }

  lemma AdvanceHistory(s: State, m: Message, mh: Str, rk: Str, now: int, dropped: set<Str>, id: NodeId)
    requires id in Advance(s, m, mh, rk, now, dropped).0.log.history
    ensures var h' := Advance(s, m, mh, rk, now, dropped).0.log.history[id];
            || (id in s.log.history && h' == s.log.history[id])
            || (id == m.sender && h' == EvictOldest(HistoryAt(s.log, id)[m.seqNo := mh]))
  {
    if m.sender in s.members.keys && m.sender !in s.members.banned {
      var s1 := Swept(s, m.sender, now);
      if RateAdmits(s, m.sender, now) {
        AdmittedFrame(s1, m, mh, rk, now, dropped);
      } else {
        RecordFailureHistory(s1, m.sender, now);
      }
    }
  }

  lemma AdvanceKeepsLargest(s: State, m: Message, mh: Str, rk: Str, now: int, dropped: set<Str>, id: NodeId, k: U64)
    returns (k': U64)
    requires id in s.log.history && IsLargest(k, s.log.history[id])
    requires id in Advance(s, m, mh, rk, now, dropped).0.log.history
    ensures k <= k' && IsLargest(k', Advance(s, m, mh, rk, now, dropped).0.log.history[id])
  {
    k' := k;
    AdvanceHistory(s, m, mh, rk, now, dropped, id);
    var h := s.log.history[id];
    if Advance(s, m, mh, rk, now, dropped).0.log.history[id] != h {
      k' := Max(k, m.seqNo);
      assert IsLargest(k', h[m.seqNo := mh]);
      LargestSurvives(h[m.seqNo := mh], k');
    }
  }

  lemma StepKeepsLargest(s: State, op: Op, id: NodeId, k: U64) returns (k': U64)
    requires id in s.log.history && IsLargest(k, s.log.history[id])
    requires id in Step(s, op).log.history
    ensures k <= k' && IsLargest(k', Step(s, op).log.history[id])
  {
    k' := k;
    match op
    case VerifyOp(m, now) => RecordFailureHistory(s, m.sender, now);
    case AdvanceOp(m, mh, rk, now, dropped) => k' := AdvanceKeepsLargest(s, m, mh, rk, now, dropped, id, k);
    case _ =>
  }

  /** As long as a sender is not pruned, the largest sequence number on record never drops. */
  lemma {:induction false} RunKeepsLargest(s: State, ops: seq<Op>, id: NodeId, k: U64) returns (k': U64)
    requires id in s.log.history && IsLargest(k, s.log.history[id])
    requires forall i :: 0 <= i <= |ops| ==> id in Run(s, ops[..i]).log.history
    ensures id in Run(s, ops).log.history
    ensures k <= k' && IsLargest(k', Run(s, ops).log.history[id])
  {
    k' := k;
    assert ops[..|ops|] == ops;
    if ops != [] {
      var before := ops[..|ops| - 1];
      assert forall i :: 0 <= i <= |before| ==> before[..i] == ops[..i];
      k' := RunKeepsLargest(s, before, id, k);
      k' := StepKeepsLargest(Run(s, before), ops[|ops| - 1], id, k');
    }
  }

  // ---------------------------------------------------------------- the node count

  ghost predicate CountExact(g: Members) {
    g.total == |g.registered|
  }

  /**
   prune_peer lowers the count whether or not the id was ever registered, so the count
   stays exact exactly when registration and a count above one go together.
   */
  lemma PruneCount(s: State, id: NodeId)
    requires CountExact(s.members) && s.members.total >= 1
    ensures CountExact(Prune(s, id).members)
       <==> (id in s.members.registered <==> s.members.total >= 2)
  {
    if id in s.members.registered {
      assert |s.members.registered - {id}| == |s.members.registered| - 1;
    } else {
      assert s.members.registered - {id} == s.members.registered;
    }
  }

  /** The guarded registration of MeshNode (has_peer, then register and increment) next to the plain methods. */
  datatype MemberOp = Enroll(id: NodeId, pub: PublicKey) | Plain(op: Op)

  ghost function MemberStep(s: State, o: MemberOp): State {
    match o
    case Enroll(id, key) =>
      if id in s.members.registered then s else Step(Step(s, RegisterOp(id, key)), IncrementOp)
    case Plain(op) => Step(s, op)
  }

  ghost predicate Guarded(s: State, o: MemberOp) {
    match o
    case Enroll(_, _) => true
    case Plain(op) =>
      match op
      case IncrementOp => false
      case DecrementOp => false
      case SetTotalOp(_) => false
      case RegisterOp(id, _) => id in s.members.registered
      case PruneOp(id) => id in s.members.registered
      case _ => true
  }

  ghost function MemberRun(s: State, ops: seq<MemberOp>): State {
    if ops == [] then s else MemberStep(MemberRun(s, ops[..|ops| - 1]), ops[|ops| - 1])
  }

  /** Every step is guarded where it happens and leaves somebody registered. */
  ghost predicate GuardedRun(s: State, ops: seq<MemberOp>) {
    ops == [] ||
    var before := ops[..|ops| - 1];
    && GuardedRun(s, before)
    && Guarded(MemberRun(s, before), ops[|ops| - 1])
    && MemberRun(s, ops).members.registered != {}
  }

  lemma RecordFailureCount(s: State, id: NodeId, now: int)
    requires MembersOk(s.members) && CountExact(s.members) && id in s.members.keys
    requires RecordFailure(s, id, now).members.registered != {}
    ensures CountExact(RecordFailure(s, id, now).members)
  {
    var t := FailedTrust(TrustAt(s.members, id), now);
    if t.failures >= AUTO_PRUNE_FAILURES {
      var left := s.members.registered - {id};
      assert RecordFailure(s, id, now).members.registered == left;
      assert |left| == |s.members.registered| - 1;
      assert |left| >= 1;
    }
  }

  lemma VerifyCount(s: State, id: NodeId, verifies: bool, now: int)
    requires MembersOk(s.members) && CountExact(s.members) && VerifyAs(s, id, verifies, now).members.registered != {}
    ensures CountExact(VerifyAs(s, id, verifies, now).members)
  {
    if id in s.members.keys && id !in s.members.banned && !verifies {
      RecordFailureCount(s, id, now);
    }
  }

  lemma AdvanceCount(s: State, m: Message, mh: Str, rk: Str, now: int, dropped: set<Str>)
    requires MembersOk(s.members) && CountExact(s.members) && Advance(s, m, mh, rk, now, dropped).0.members.registered != {}
    ensures CountExact(Advance(s, m, mh, rk, now, dropped).0.members)
  {
    if m.sender in s.members.keys && m.sender !in s.members.banned {
      var s1 := Swept(s, m.sender, now);
      if RateAdmits(s, m.sender, now) {
        AdmittedFrame(s1, m, mh, rk, now, dropped);
      } else {
        RecordFailureCount(s1, m.sender, now);
      }
    }
  }

  lemma PruneKeepsCount(s: State, id: NodeId)
    requires CountExact(s.members) && id in s.members.registered && Prune(s, id).members.registered != {}
    ensures CountExact(Prune(s, id).members)
  {
    var left := s.members.registered - {id};
    assert |left| == |s.members.registered| - 1 && |left| != 0;
    PruneCount(s, id);
  }

  lemma EnrollCount(s: State, id: NodeId, key: PublicKey)
    requires CountExact(s.members)
    ensures CountExact(MemberStep(s, Enroll(id, key)).members)
  {
    if id !in s.members.registered { assert |s.members.registered + {id}| == |s.members.registered| + 1; }
  }

  lemma RegisteredCount(g: Members, id: NodeId, key: PublicKey)
    requires CountExact(g) && id in g.registered
    ensures CountExact(RegisterKey(g, id, key))
  {
    assert g.registered + {id} == g.registered;
  }

  lemma TriedCount(g: Members, id: NodeId)
    requires CountExact(g)
    ensures CountExact(TryIncrement(g, id))
  {
    if id !in g.registered { assert |g.registered + {id}| == |g.registered| + 1; }
  }

  lemma PlainCount(s: State, op: Op)
    requires MembersOk(s.members) && CountExact(s.members) && Guarded(s, Plain(op)) && Step(s, op).members.registered != {}
    ensures CountExact(Step(s, op).members)
  {
    match op
    case VerifyOp(m, now) => VerifyCount(s, m.sender, Verifies(s, m), now);
    case AdvanceOp(m, mh, rk, now, dropped) => AdvanceCount(s, m, mh, rk, now, dropped);
    case RegisterOp(id, key) => RegisteredCount(s.members, id, key);
    case PruneOp(id) => PruneKeepsCount(s, id);
    case TryIncrementOp(id) => TriedCount(s.members, id);
    case _ =>
  }

  lemma MemberStepCount(s: State, o: MemberOp)
    requires Consistent(s) && CountExact(s.members) && Guarded(s, o)
    requires MemberStep(s, o).members.registered != {}
    ensures CountExact(MemberStep(s, o).members)
  {
    match o
    case Enroll(id, key) => EnrollCount(s, id, key);
    case Plain(op) => PlainCount(s, op);
  }

  lemma MemberStepConsistent(s: State, o: MemberOp)
    requires Consistent(s)
    ensures Consistent(MemberStep(s, o))
  {
    match o
    case Enroll(id, key) =>
      StepConsistent(s, RegisterOp(id, key));
      StepConsistent(Step(s, RegisterOp(id, key)), IncrementOp);
    case Plain(op) => StepConsistent(s, op);
  }

  /** Over guarded registrations, prunes of registered ids and auto-bans, n is the number of registered peers. */
  lemma {:induction false} CountStaysExact(s: State, ops: seq<MemberOp>)
    requires Consistent(s) && CountExact(s.members) && GuardedRun(s, ops)
    ensures Consistent(MemberRun(s, ops)) && CountExact(MemberRun(s, ops).members)
  {
    if ops != [] {
      var before := ops[..|ops| - 1];
      CountStaysExact(s, before);
      MemberStepConsistent(MemberRun(s, before), ops[|ops| - 1]);
      MemberStepCount(MemberRun(s, before), ops[|ops| - 1]);
    }
  }
}
