/** The engine as the object it is: fields updated in place, each method proved to compute its function in Pbft. */
module PbftEngine {
  import opened Wrappers
  import opened Symbolic
  import opened RateLimit
  import opened Pbft

  class PBFTConsensus {
    var total: int
    var view: int
    var rateWindow: int
    var rateMax: int
    var me: NodeId
    var signingKey: Option<nat>
    var votes: map<Str, StageVotes>
    var keys: map<NodeId, PublicKey>
    var rounds: map<Str, Round>
    var trust: map<NodeId, Trust>
    var history: map<NodeId, map<U64, Str>>
    var equivocations: map<NodeId, Equivocation>
    var rateLimits: map<NodeId, seq<int>>
    var seen: set<Str>
    var registered: set<NodeId>
    var banned: set<NodeId>
    var recentBans: set<NodeId>

    ghost function Abs(): State
      reads this
    {
      State(me, signingKey, view, rateWindow, rateMax,
            Members(total, keys, trust, registered, banned, recentBans),
            Ballots(votes, rounds),
            Log(history, equivocations, rateLimits, seen))
    }

    constructor (totalNodes: int, window: int, max: int)
      ensures Abs() == InitialState(totalNodes, window, max)
    {
      total, view, rateWindow, rateMax := totalNodes, 0, window, max;
      me, signingKey := "", None;
      votes, keys, rounds, trust := map[], map[], map[], map[];
      history, equivocations, rateLimits := map[], map[], map[];
      seen, registered, banned, recentBans := {}, {}, {}, {};
    }

    // ---------------------------------------------------------------- membership

    method RegisterPeerKey(id: NodeId, key: PublicKey)
      modifies this
      ensures Abs() == Step(old(Abs()), RegisterOp(id, key))
    {
      keys := keys[id := key];
      trust := trust[id := FRESH_TRUST];
      registered := registered + {id};
    }

    method SetIdentity(id: NodeId, key: Option<nat>)
      modifies this
      ensures Abs() == Step(old(Abs()), IdentityOp(id, key))
    {
      me, signingKey := id, key;
    }

    method IncrementPeers()
      modifies this
      ensures Abs() == Step(old(Abs()), IncrementOp)
    {
      total := total + 1;
    }

    method DecrementPeers()
      modifies this
      ensures Abs() == Step(old(Abs()), DecrementOp)
    {
      total := Max(1, total - 1);
    }

    method SetPeerCount(n: int)
      modifies this
      ensures Abs() == Step(old(Abs()), SetTotalOp(n))
    {
      total := Max(1, n);
    }

    method TryIncrementPeers(id: NodeId) returns (added: bool)
      modifies this
      ensures Abs() == Step(old(Abs()), TryIncrementOp(id))
      ensures added <==> id !in old(registered)
    {
      added := id !in registered;
      if added {
        registered := registered + {id};
        total := total + 1;
      }
    }

    method AdvanceView()
      modifies this
      ensures Abs() == Step(old(Abs()), NextViewOp)
    {
      view := view + 1;
    }

    /** The inner loop of prune_peer_locked. */
    static method EraseFromStages(stages: StageVotes, id: NodeId) returns (r: StageVotes)
      ensures r == EraseFrom(stages, id)
    {
      r := stages;
      var todo := stages.Keys;
      while todo != {}
        invariant todo <= stages.Keys && r.Keys == stages.Keys
        invariant forall stage :: stage in stages ==>
                    r[stage] == if stage in todo then stages[stage] else stages[stage] - {id}
        decreases |todo|
      {
        var stage :| stage in todo;
        r := r[stage := r[stage] - {id}];
        todo := todo - {stage};
      }
    }

    /** The outer loop. */
    static method EraseFromRegistry(registry: map<Str, StageVotes>, id: NodeId) returns (r: map<Str, StageVotes>)
      ensures r == EraseVoter(registry, id)
    {
      r := registry;
      var todo := registry.Keys;
      while todo != {}
        invariant todo <= registry.Keys && r.Keys == registry.Keys
        invariant forall rk :: rk in registry ==>
                    r[rk] == if rk in todo then registry[rk] else EraseFrom(registry[rk], id)
        decreases |todo|
      {
        var rk :| rk in todo;
        var erased := EraseFromStages(registry[rk], id);
        r := r[rk := erased];
        todo := todo - {rk};
      }
    }

    method ForgetMember(id: NodeId)
      modifies this`keys, this`trust, this`registered, this`total
      ensures Abs() == old(Abs()).(members := Forget(old(Abs()).members, id))
    {
      keys := keys - {id};
      trust := trust - {id};
      registered := registered - {id};
      total := Max(1, total - 1);
    }

    method PrunePeer(id: NodeId)
      modifies this
      ensures Abs() == Prune(old(Abs()), id)
    {
      ForgetMember(id);
      history := history - {id};
      votes := EraseFromRegistry(votes, id);
    }

    // ---------------------------------------------------------------- bans

    method BanPeerLocal(id: NodeId)
      modifies this
      ensures Abs() == Step(old(Abs()), BanOp(id))
    {
      banned := banned + {id};
    }

    method ProposeBan(target: NodeId) returns (started: bool)
      modifies this
      ensures Abs() == Step(old(Abs()), ProposeBanOp(target))
      ensures started <==> BanProposable(old(Abs()), target)
    {
      if target == "" || target == me { return false; }
      if target in banned { return false; }
      BanPeerLocal(target);
      return true;
    }

    method DrainRecentBans() returns (bans: set<NodeId>)
      modifies this
      ensures Abs() == Step(old(Abs()), DrainBansOp)
      ensures bans == old(recentBans)
    {
      bans := recentBans;
      recentBans := {};
    }

    // ---------------------------------------------------------------- trust

    method RecordFailure(id: NodeId, now: int)
      modifies this
      ensures Abs() == Pbft.RecordFailure(old(Abs()), id, now)
    {
      var t := if id in trust then trust[id] else FRESH_TRUST;
      t := t.(failures := t.failures + 1, score := Max(0, t.score - TRUST_FAILURE), lastFailure := now);
      trust := trust[id := t];
      if t.failures >= AUTO_PRUNE_FAILURES {
        banned := banned + {id};
        recentBans := recentBans + {id};
        PrunePeer(id);
      }
    }

    method RecordSuccess(id: NodeId)
      modifies this
      ensures Abs() == old(Abs()).(members := SetTrust(old(Abs()).members, id, SucceededTrust(TrustAt(old(Abs()).members, id))))
    {
      var t := if id in trust then trust[id] else FRESH_TRUST;
      if t.failures > 0 { t := t.(failures := 0); }
      trust := trust[id := t.(successes := t.successes + 1, score := Min(TRUST_FULL, t.score + TRUST_SUCCESS))];
    }

    method RecordEquivocation(id: NodeId, now: int)
      modifies this
      ensures Abs() == old(Abs()).(members := SetTrust(old(Abs()).members, id, EquivocatedTrust(TrustAt(old(Abs()).members, id), now)))
    {
      var t := if id in trust then trust[id] else FRESH_TRUST;
      trust := trust[id := t.(equivocations := t.equivocations + 1, failures := t.failures + 1,
                              score := Max(0, t.score - TRUST_EQUIVOCATION), lastFailure := now)];
    }

    // ---------------------------------------------------------------- verify_message

    /** The loop for the largest sequence number on record. */
    static method LargestSequence(h: map<U64, Str>) returns (largest: U64)
      ensures h != map[] ==> IsLargest(largest, h)
    {
      largest := 0;
      var todo := h.Keys;
      while todo != {}
        invariant todo <= h.Keys
        invariant forall k :: k in h && k !in todo ==> k <= largest
        invariant todo != h.Keys ==> largest in h
        invariant todo == h.Keys ==> largest == 0
        decreases |todo|
      {
        var k :| k in todo;
        if largest < k || todo == h.Keys { largest := k; }
        todo := todo - {k};
      }
    }

    method VerifySequenceContinuity(m: Message) returns (ok: bool)
      ensures ok <==> Continues(Abs().log, m)
    {
      if m.sender !in history || history[m.sender] == map[] { return true; }
      var h := history[m.sender];
      var largest := LargestSequence(h);
      assert forall k: U64 :: IsLargest(k, h) ==> k == largest;
      return m.seqNo <= (largest + MAX_SEQUENCE_GAP) % TWO_64;
    }

    method VerifyMessage(m: Message, now: int) returns (ok: bool)
      modifies this
      ensures ok <==> Verifies(old(Abs()), m)
      ensures Abs() == Step(old(Abs()), VerifyOp(m, now))
    {
      if m.sender in banned { return false; }
      if m.sender !in keys { return false; }
      if !SignatureVerifies(keys[m.sender], Blob(m), m.signature) {
        RecordFailure(m.sender, now);
        return false;
      }
      if !Chains(Log(history, equivocations, rateLimits, seen), m) {
        RecordFailure(m.sender, now);
        return false;
      }
      var continues := VerifySequenceContinuity(m);
      if !continues {
        RecordFailure(m.sender, now);
        return false;
      }
      RecordSuccess(m.sender);
      return true;
    }

    // ---------------------------------------------------------------- advance_state

    /** The erase loop over all rounds. */
    static method EraseStale(b: Ballots, now: int) returns (r: Ballots)
      ensures r == Cleanup(b, now)
    {
      r := b;
      var todo := b.rounds.Keys;
      ghost var gone: set<Str> := {};
      while todo != {}
        invariant todo <= b.rounds.Keys
        invariant forall rk :: rk in gone <==> rk in b.rounds && rk !in todo && Stale(b.rounds[rk], now)
        invariant r.votes == b.votes - gone && r.rounds == b.rounds - gone
        decreases |todo|
      {
        var rk :| rk in todo;
        if Stale(r.rounds[rk], now) {
          r := Ballots(r.votes - {rk}, r.rounds - {rk});
          gone := gone + {rk};
        }
        todo := todo - {rk};
      }
      assert gone == StaleKeys(b, now);
    }

    method CleanupStaleRounds(now: int)
      modifies this
      ensures Abs() == old(Abs()).(ballots := Cleanup(old(Abs()).ballots, now))
    {
      var kept := EraseStale(Ballots(votes, rounds), now);
      votes, rounds := kept.votes, kept.rounds;
    }

    /** remove_if over the timestamps, then the bound. */
    method CheckRateLimit(id: NodeId, now: int) returns (ok: bool)
      modifies this
      ensures ok <==> RateAdmits(old(Abs()), id, now)
      ensures Abs() == old(Abs()).(log := CheckRate(old(Abs()), id, now))
    {
      var timestamps := if id in rateLimits then rateLimits[id] else [];
      var kept: seq<int> := [];
      var i := 0;
      while i < |timestamps|
        invariant 0 <= i <= |timestamps|
        invariant kept == Keep(timestamps[..i], now, rateWindow)
      {
        assert timestamps[..i + 1][..i] == timestamps[..i];
        if Seconds(now - timestamps[i]) < rateWindow { kept := kept + [timestamps[i]]; }
        i := i + 1;
      }
      assert timestamps[..i] == timestamps;
      ok := |kept| < rateMax;
      if ok { kept := kept + [now]; }
      rateLimits := rateLimits[id := kept];
    }

    /** Past the cap, half of the set goes, in whatever order the container yields. */
    static method DropHalf(s: set<Str>) returns (kept: set<Str>, ghost dropped: set<Str>)
      ensures kept == EvictSeen(s, dropped) && dropped <= s
      ensures |s| > MAX_SEEN_MESSAGES ==> |kept| == |s| - |s| / 2
    {
      kept, dropped := s, {};
      if |s| > MAX_SEEN_MESSAGES {
        var n := |s| / 2;
        while n > 0
          invariant 0 <= n <= |s| / 2 && kept == s - dropped && dropped <= s && |kept| == |s| - |s| / 2 + n
        {
          var h :| h in kept;
          kept := kept - {h};
          dropped := dropped + {h};
          n := n - 1;
        }
      }
    }

    static method FirstKey(h: map<U64, Str>) returns (first: U64)
      requires h != map[]
      ensures IsSmallest(first, h)
    {
      var todo := h.Keys;
      assert todo != {};
      first :| first in todo;
      todo := todo - {first};
      while todo != {}
        invariant todo <= h.Keys && first in h
        invariant forall k :: k in h && k !in todo ==> first <= k
        decreases |todo|
      {
        var k :| k in todo;
        if k < first { first := k; }
        todo := todo - {k};
      }
    }

    /** Erase from the front of the ordered map until the cap is met. */
    static method Evict(h: map<U64, Str>) returns (r: map<U64, Str>)
      ensures r == EvictOldest(h)
    {
      r := h;
      while |r| > MAX_MSG_HISTORY_PER_SENDER
        invariant EvictOldest(r) == EvictOldest(h)
        decreases |r|
      {
        var first := FirstKey(r);
        assert first == SmallestKey(r);
        RemoveKeySize(r, first);
        r := r - {first};
      }
    }

    method DetectEquivocation(m: Message, mh: Str, now: int)
      modifies this
      ensures Abs() == Pbft.DetectEquivocation(old(Abs()), m, mh, now)
    {
      var h := if m.sender in history then history[m.sender] else map[];
      if m.seqNo in h && h[m.seqNo] != mh {
        equivocations := equivocations[m.sender := Equivocation(m.sender, m.seqNo, m.view, h[m.seqNo], mh, now)];
        RecordEquivocation(m.sender, now);
      }
      var kept := Evict(h[m.seqNo := mh]);
      history := history[m.sender := kept];
    }

    /** The vote goes in and its round is opened before the view is compared. */
    method InsertVote(m: Message, mh: Str, rk: Str, now: int) returns (sameView: bool)
      modifies this
      ensures var b := Insert(old(Abs()).ballots, m, mh, rk, now);
              Abs() == old(Abs()).(ballots := b) && (sameView <==> RoundAt(b, rk).view == m.view)
    {
      var stages := if rk in votes then votes[rk] else map[];
      var stageVoters := if m.stage in stages then stages[m.stage] else {};
      votes := votes[rk := stages[m.stage := stageVoters + {m.sender}]];
      var r := if rk in rounds then rounds[rk] else FRESH_ROUND;
      if r.state == Idle {
        r := r.(startedAt := now, view := m.view, prePrepareHash := mh, evidenceKey := rk);
      }
      sameView := r.view == m.view;
      if sameView { r := r.(lastActivity := now); }
      rounds := rounds[rk := r];
    }

    /** The state change a counted vote causes; a COMMIT without the intersection is taken back. */
    method MoveRound(m: Message, rk: Str) returns (stage: Stage)
      requires rk in rounds && rk in votes && m.stage in votes[rk]
      modifies this
      ensures Abs() == old(Abs()).(ballots := Transition(old(Abs()).ballots, Quorum(old(total)), m, rk))
      ensures stage == NextStage(old(Abs()).ballots, Quorum(old(total)), m.stage, rk)
    {
      var quorum := Quorum(total);
      var currentVotes := |votes[rk][m.stage]|;
      var r := rounds[rk];
      stage := Idle;
      if (m.stage == "PRE_PREPARE" || m.stage == "BAN_PEER") && r.state == Idle {
        stage := Prepare;
      } else if m.stage == "PREPARE" && currentVotes >= quorum && r.state == Prepare {
        stage := Commit;
      } else if m.stage == "COMMIT" && currentVotes >= quorum && r.state == Commit {
        if !QuorumsIntersect(Ballots(votes, rounds), quorum, rk) {
          votes := votes[rk := votes[rk][m.stage := votes[rk][m.stage] - {m.sender}]];
          return Idle;
        }
        stage := Executed;
      }
      if stage != Idle { rounds := rounds[rk := r.(state := stage)]; }
    }

    method CountVote(m: Message, mh: Str, rk: Str, now: int) returns (stage: Stage)
      modifies this
      ensures var c := Pbft.CountVote(old(Abs()).ballots, Quorum(old(total)), m, mh, rk, now);
              Abs() == old(Abs()).(ballots := c.0) && stage == c.1
    {
      if rk in votes && m.stage in votes[rk] && m.sender in votes[rk][m.stage] { return Idle; }
      var sameView := InsertVote(m, mh, rk, now);
      if !sameView { return Idle; }
      stage := MoveRound(m, rk);
    }

    method AdvanceState(m: Message, now: int) returns (stage: Stage, ghost dropped: set<Str>)
      modifies this
      ensures (Abs(), stage) == Advance(old(Abs()), m, MessageHash(m), RoundKey(m.evidence, m.target), now, dropped)
      ensures |seen| <= Max(|old(seen)|, 100000)
    {
      dropped := {};
      if m.sender in banned { return Idle, dropped; }
      if m.sender !in keys { return Idle, dropped; }
      CleanupStaleRounds(now);
      var admitted := CheckRateLimit(m.sender, now);
      assert Abs() == Swept(old(Abs()), m.sender, now);
      if !admitted {
        RecordFailure(m.sender, now);
        return Idle, dropped;
      }
      var mh := MessageHash(m);
      var rk := RoundKey(m.evidence, m.target);
      stage, dropped := CountMessage(m, mh, rk, now);
    }

    /** What advance_state does with a message that passed the limiter. */
    method CountMessage(m: Message, mh: Str, rk: Str, now: int) returns (stage: Stage, ghost dropped: set<Str>)
      modifies this
      ensures (Abs(), stage) == Admitted(old(Abs()), m, mh, rk, now, dropped)
      ensures |seen| <= Max(|old(seen)|, 100000)
    {
      dropped := {};
      if mh in seen { return Idle, dropped; }
      seen, dropped := DropHalf(seen + {mh});
      DetectEquivocation(m, mh, now);
      stage := CountVote(m, mh, rk, now);
    }

    method SetRoundCommitSig(rk: Str, sig: Signature)
      modifies this
      ensures Abs() == Step(old(Abs()), CommitSigOp(rk, sig))
    {
      var r := if rk in rounds then rounds[rk] else FRESH_ROUND;
      rounds := rounds[rk := r.(commitSignature := sig)];
    }

    method GetRoundCommitSig(rk: Str) returns (sig: Signature)
      ensures sig == RoundAt(Abs().ballots, rk).commitSignature
    {
      sig := if rk in rounds then rounds[rk].commitSignature else NoSignature;
    }

    /** The hash the next message of `sender` chains from: that of its largest sequence number, or the genesis hash. */
    method GetLastSentHash(sender: NodeId) returns (hash: Str)
      ensures IsLastHash(Abs().log, sender, hash)
    {
      if sender !in history || history[sender] == map[] { return Genesis(); }
      var k := LargestSequence(history[sender]);
      return history[sender][k];
    }

    method SignMessage(m: Message) returns (sig: Signature)
      ensures sig == Sign(Abs(), m)
    {
      match signingKey
      case None => return NoSignature;
      case Some(k) => return Signed(k, Blob(m));
    }
  }
}
