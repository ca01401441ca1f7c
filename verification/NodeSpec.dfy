/** What the node's calls compute, as functions of its state and of what the clock and the containers contribute. */
module NodeSpec {
  import opened Symbolic
  import opened Pbft
  import opened CommitSigs
  import ProofChain

  /** What one vote meets on its way: the clock at verify_message, at advance_state and at the proof chain, and what is evicted. */
  datatype Tick = Tick(now: int, now': int, dropped: set<Str>, at: int)

  /** One tick for each nested vote. */
  datatype Env = Calm | Env(tick: Tick, rest: Env)

  function TickOf(env: Env): Tick { if env.Env? then env.tick else Tick(0, 0, {}, 0) }
  function RestOf(env: Env): Env { if env.Env? then env.rest else Calm }

  /** The node: its engine, its counter, the size of its peer registry, and what it sent, journalled and recorded. */
  datatype Desk = Desk(
    id: NodeId, pbft: State, lastSeq: U64, peers: nat,
    sent: seq<Message>, journal: seq<(string, NodeId, string)>, entries: seq<ProofChain.Entry>)

  predicate Contains(s: string, pattern: string) {
    |pattern| <= |s| && (s[..|pattern|] == pattern || (s != "" && Contains(s[1..], pattern)))
  }

  const BAN_MARK: string := "\"action\":\"ban\""

  function BanEvidence(reason: string): string {
    "{" + BAN_MARK + ",\"reason\":\"" + reason + "\"}"
  }

  /** The nested calls a stage can lead to, itself included. */
  function CallsLeft(stage: string): nat {
    if stage == "PRE_PREPARE" || stage == "BAN_PEER" then 3 else if stage == "PREPARE" then 2 else 1
  }

  function StageAfter(stage: string): string {
    if stage == "PRE_PREPARE" || stage == "BAN_PEER" then "PREPARE" else "COMMIT"
  }

  // ---------------------------------------------------------------- one vote

  lemma {:induction false} LargestExists(keys: set<U64>) returns (k: U64)
    requires keys != {}
    ensures k in keys && forall j :: j in keys ==> j <= k
    decreases keys
  {
    k :| k in keys;
    var rest := keys - {k};
    assert forall j :: j in keys ==> j == k || j in rest;
    if rest != {} {
      var k' := LargestExists(rest);
      if k' > k { k := k'; }
    }
  }

  ghost function LargestKey(h: map<U64, Str>): (k: U64)
    requires h != map[]
    ensures IsLargest(k, h)
  {
    assert exists k :: IsLargest(k, h) by { var k := LargestExists(h.Keys); assert IsLargest(k, h); }
    var k :| IsLargest(k, h); k
  }

  /** What the next message of `id` chains from. */
  ghost function LastHash(l: Log, id: NodeId): Str {
    var h := HistoryAt(l, id);
    if h == map[] then Genesis() else h[LargestKey(h)]
  }

  lemma LastHashIs(l: Log, id: NodeId, hash: Str)
    ensures IsLastHash(l, id, hash) <==> hash == LastHash(l, id)
  {
    var h := HistoryAt(l, id);
    if h != map[] {
      forall k: U64 | IsLargest(k, h) ensures k == LargestKey(h) {}
    }
  }

  /** The vote that the node signs next. */
  ghost function NextOwn(d: Desk, stage: string, target: NodeId, evidence: string): Message {
    OwnVote(d.id, d.pbft.signingKey, stage, target, evidence, LastHash(d.pbft.log, d.id), (d.lastSeq + 1) % TWO_64, d.pbft.view)
  }

  ghost function SendOn(d: Desk, stage: string, target: NodeId, evidence: string): Desk {
    var m := NextOwn(d, stage, target, evidence);
    d.(lastSeq := m.seqNo, sent := d.sent + [m],
       pbft := if stage == "COMMIT" then Step(d.pbft, CommitSigOp(RoundKey(evidence, target), m.signature)) else d.pbft)
  }

  /** verify_message and, if it holds, advance_state. */
  ghost function CastOn(s: State, m: Message, tick: Tick): (State, Stage) {
    var s1 := Verify(s, m, tick.now);
    if Verifies(s, m) then Advance(s1, m, MessageHash(m), RoundKey(m.evidence, m.target), tick.now', tick.dropped)
    else (s1, Idle)
  }

  /** How a message is put through an engine. */
  type Casting = (State, Message, Tick) -> (State, Stage)

  /** The reported stage comes after that of the message. */
  ghost predicate CastingOk(cast: Casting) {
    forall s: State, m: Message, tick: Tick :: Follows(m.stage, cast(s, m, tick).1)
  }

  /** As this engine does it. */
  ghost function Engine(): (cast: Casting)
    ensures CastingOk(cast)
  {
    assert forall s: State, m: Message, tick: Tick :: Follows(m.stage, CastOn(s, m, tick).1) by {
      forall s: State, m: Message, tick: Tick ensures Follows(m.stage, CastOn(s, m, tick).1) { CastFollows(s, m, tick); }
    }
    (s, m, tick) => CastOn(s, m, tick)
  }

  lemma CastFollows(s: State, m: Message, tick: Tick)
    ensures Follows(m.stage, CastOn(s, m, tick).1)
  {
    AdvanceFollows(Verify(s, m, tick.now), m, MessageHash(m), RoundKey(m.evidence, m.target), tick.now', tick.dropped);
  }

  // ---------------------------------------------------------------- what follows a reported stage

  function BanOn(d: Desk, target: NodeId, stage: string, evidence: string): Desk {
    d.(pbft := d.pbft.(members := Ban(d.pbft.members, target)), journal := d.journal + [(stage, target, evidence)])
  }

  /** A ban round bans; any other one is journalled and recorded if there is an external peer. */
  function ExecuteOn(d: Desk, stage: string, target: NodeId, evidence: string, sig: Signature, at: int): Desk {
    if Contains(evidence, BAN_MARK) || stage == "BAN_PEER" then BanOn(d, target, "BAN_PEER_EXECUTED", evidence)
    else if d.peers < 1 then d
    else d.(journal := d.journal + [("EXECUTED", target, evidence)],
            entries := d.entries + [ProofChain.Entry(ProofChain.ConsensusReached, target, evidence, sig, at)])
  }

  ghost function ReactOn(cast: Casting, d: Desk, next: Stage, stage: string, target: NodeId, evidence: string, sig: Signature, at: int, env: Env): Desk
    requires CastingOk(cast) && Follows(stage, next)
    decreases CallsLeft(stage), 0
  {
    match next
    case Prepare => BroadcastOn(cast, d, "PREPARE", target, evidence, env)
    case Commit => BroadcastOn(cast, d.(journal := d.journal + [("COMMIT", target, evidence)]), "COMMIT", target, evidence, env)
    case Executed => ExecuteOn(d, stage, target, evidence, sig, at)
    case _ => d
  }

  /** broadcast_pbft_stage: the vote is sent, cast like any other, and followed up. */
  ghost function BroadcastOn(cast: Casting, d: Desk, stage: string, target: NodeId, evidence: string, env: Env): Desk
    requires CastingOk(cast)
    decreases CallsLeft(stage), 1
  {
    var m := NextOwn(d, stage, target, evidence);
    var d1 := SendOn(d, stage, target, evidence);
    var c := cast(d1.pbft, m, TickOf(env));
    ReactOn(cast, d1.(pbft := c.0), c.1, stage, target, evidence, m.signature, TickOf(env).at, RestOf(env))
  }

  lemma BroadcastIs(cast: Casting, d: Desk, stage: string, target: NodeId, evidence: string, tick: Tick, at: int, rest: Env,
                    m: Message, s: State, next: Stage)
    requires CastingOk(cast) && m == NextOwn(d, stage, target, evidence)
    requires (s, next) == cast(SendOn(d, stage, target, evidence).pbft, m, tick.(at := at))
    ensures Follows(stage, next)
    ensures BroadcastOn(cast, d, stage, target, evidence, Env(tick.(at := at), rest))
         == ReactOn(cast, SendOn(d, stage, target, evidence).(pbft := s), next, stage, target, evidence, m.signature, at, rest)
  {
    assert m.stage == stage;
  }

  /** The VOTE branch of process_message, for a decoded vote. */
  ghost function ProcessOn(cast: Casting, d: Desk, m: Message, env: Env): Desk
    requires CastingOk(cast)
  {
    if m.sender == d.id then d
    else
      var c := cast(d.pbft, m, TickOf(env));
      var sig := RoundAt(c.0.ballots, RoundKey(m.evidence, m.target)).commitSignature;
      ReactOn(cast, d.(pbft := c.0), c.1, m.stage, m.target, m.evidence, sig, TickOf(env).at, RestOf(env))
  }

  ghost function ProposeBanOn(cast: Casting, d: Desk, target: NodeId, reason: string, env: Env): Desk
    requires CastingOk(cast)
  {
    if target == "" || target == d.id then d
    else
      var d1 := BroadcastOn(cast, d, "PRE_PREPARE", target, BanEvidence(reason), env);
      if target in d1.pbft.members.banned then d1 else BanOn(d1, target, "BAN_PEER_LOCAL", reason)
  }
}
