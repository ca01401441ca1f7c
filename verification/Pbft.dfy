/**
 The PBFT vote engine of one node (consensus/PBFT.hpp) as functions on its state.
 The class in PbftEngine is proved to compute exactly these functions.
 */
module Pbft {
  import opened Wrappers
  import opened Decimal
  import opened Symbolic
  import opened RateLimit

  const ROUND_TTL_SEC: int := 120
  const MAX_SEQUENCE_GAP: int := 100
  const MAX_MSG_HISTORY_PER_SENDER: int := 10000
  const MAX_SEEN_MESSAGES: int := 100000
  const AUTO_PRUNE_FAILURES: int := 100

  // Trust scores in units of 0.05.
  const TRUST_FULL: int := 20
  const TRUST_FAILURE: int := 2
  const TRUST_EQUIVOCATION: int := 6
  const TRUST_SUCCESS: int := 1

  type NodeId = string

  datatype Stage = Idle | PrePrepare | Prepare | Commit | Executed | BanPeer

  datatype Message = Message(
    stage: string, sender: NodeId, target: NodeId, evidence: string,
    signature: Signature, prevHash: Str, seqNo: U64, view: int)

  datatype Round = Round(
    state: Stage, view: int, prePrepareHash: Str, evidenceKey: Str,
    commitSignature: Signature, startedAt: int, lastActivity: int)

  datatype Trust = Trust(equivocations: nat, failures: nat, successes: nat, lastFailure: int, score: int)

  datatype Equivocation = Equivocation(node: NodeId, seqNo: U64, view: int, hash1: Str, hash2: Str, at: int)

  type StageVotes = map<string, set<NodeId>>

  /** Who takes part: the node count, the keys, the trust kept for each key and the bans. */
  datatype Members = Members(
    total: int,
    keys: map<NodeId, PublicKey>,
    trust: map<NodeId, Trust>,
    registered: set<NodeId>,
    banned: set<NodeId>,
    recentBans: set<NodeId>)

  /** The vote registry and the rounds, both by round key. */
  datatype Ballots = Ballots(votes: map<Str, StageVotes>, rounds: map<Str, Round>)

  /** What is remembered about each sender's messages. */
  datatype Log = Log(
    history: map<NodeId, map<U64, Str>>,
    equivocations: map<NodeId, Equivocation>,
    rateLimits: map<NodeId, seq<int>>,
    seen: set<Str>)

  datatype State = State(
    me: NodeId, signingKey: Option<nat>, view: int, rateWindow: int, rateMax: int,
    members: Members, ballots: Ballots, log: Log)

  const FRESH_ROUND: Round := Round(Idle, 0, [], [], NoSignature, 0, 0)
  const FRESH_TRUST: Trust := Trust(0, 0, 0, 0, TRUST_FULL)

  function InitialState(total: int, rateWindow: int, rateMax: int): State {
    State("", None, 0, rateWindow, rateMax,
          Members(total, map[], map[], {}, {}, {}), Ballots(map[], map[]), Log(map[], map[], map[], {}))
  }

  // ---------------------------------------------------------------- hashes and signatures

  function Genesis(): Str { Sha(Lift("GENESIS")) }

  function HashInput(m: Message): Str {
    Lift(m.stage) + [BAR] + (Lift(m.sender) + [BAR] + (Lift(m.target) + [BAR] + (Lift(m.evidence) + [BAR] +
    (m.prevHash + [BAR] + (Lift(Print(m.seqNo)) + [BAR] + Lift(PrintInt(m.view)))))))
  }

  function MessageHash(m: Message): Str { Sha(HashInput(m)) }

  function RoundKey(evidence: string, target: NodeId): Str { Sha(Lift(evidence) + [BAR] + Lift(target)) }

  function SigningBlob(stage: string, target: NodeId, evidence: string, seqNo: U64, view: int, prevHash: Str): Str {
    Lift(stage) + [BAR] + (Lift(target) + [BAR] + (Lift(evidence) + [BAR] +
    (Lift(Print(seqNo)) + [BAR] + (Lift(PrintInt(view)) + [BAR] + prevHash))))
  }

  function Blob(m: Message): Str { SigningBlob(m.stage, m.target, m.evidence, m.seqNo, m.view, m.prevHash) }

  function Sign(s: State, m: Message): Signature {
    match s.signingKey
    case None => NoSignature
    case Some(k) => Signed(k, Blob(m))
  }

  // ---------------------------------------------------------------- small readers

  function Max(a: int, b: int): int { if a >= b then a else b }
  function Min(a: int, b: int): int { if a <= b then a else b }

  function Quorum(total: int): (q: int)
    ensures q >= 1
  {
    2 * ((Max(1, total) - 1) / 3) + 1
  }

  function VotesAt(b: Ballots, rk: Str): StageVotes {
    if rk in b.votes then b.votes[rk] else map[]
  }

  function Voters(b: Ballots, rk: Str, stage: string): set<NodeId> {
    if stage in VotesAt(b, rk) then VotesAt(b, rk)[stage] else {}
  }

  function RoundAt(b: Ballots, rk: Str): Round {
    if rk in b.rounds then b.rounds[rk] else FRESH_ROUND
  }

  function TrustAt(g: Members, id: NodeId): Trust {
    if id in g.trust then g.trust[id] else FRESH_TRUST
  }

  function HistoryAt(l: Log, id: NodeId): map<U64, Str> {
    if id in l.history then l.history[id] else map[]
  }

  function RateAt(l: Log, id: NodeId): seq<int> {
    if id in l.rateLimits then l.rateLimits[id] else []
  }

  // ---------------------------------------------------------------- membership and bans

  function RegisterKey(g: Members, id: NodeId, key: PublicKey): Members {
    g.(keys := g.keys[id := key], trust := g.trust[id := FRESH_TRUST], registered := g.registered + {id})
  }

  function Forget(g: Members, id: NodeId): Members {
    g.(keys := g.keys - {id}, trust := g.trust - {id}, registered := g.registered - {id}, total := Max(1, g.total - 1))
  }

  function EraseFrom(stages: StageVotes, id: NodeId): StageVotes {
    map stage | stage in stages :: stages[stage] - {id}
  }

  function EraseVoter(votes: map<Str, StageVotes>, id: NodeId): map<Str, StageVotes> {
    map rk | rk in votes :: EraseFrom(votes[rk], id)
  }

  function Prune(s: State, id: NodeId): State {
    s.(members := Forget(s.members, id), ballots := s.ballots.(votes := EraseVoter(s.ballots.votes, id)),
       log := s.log.(history := s.log.history - {id}))
  }

  function Ban(g: Members, id: NodeId): Members {
    g.(banned := g.banned + {id})
  }

  predicate BanProposable(s: State, target: NodeId) {
    target != "" && target != s.me && target !in s.members.banned
  }

  function TryIncrement(g: Members, id: NodeId): Members {
    if id in g.registered then g else g.(registered := g.registered + {id}, total := g.total + 1)
  }

  // ---------------------------------------------------------------- trust

  function FailedTrust(t: Trust, now: int): Trust {
    t.(failures := t.failures + 1, score := Max(0, t.score - TRUST_FAILURE), lastFailure := now)
  }

  function SucceededTrust(t: Trust): Trust {
    t.(failures := 0, successes := t.successes + 1, score := Min(TRUST_FULL, t.score + TRUST_SUCCESS))
  }

  function EquivocatedTrust(t: Trust, now: int): Trust {
    t.(equivocations := t.equivocations + 1, failures := t.failures + 1,
       score := Max(0, t.score - TRUST_EQUIVOCATION), lastFailure := now)
  }

  function SetTrust(g: Members, id: NodeId, t: Trust): Members {
    g.(trust := g.trust[id := t])
  }

  function AutoBan(s: State, id: NodeId): State {
    Prune(s.(members := s.members.(banned := s.members.banned + {id}, recentBans := s.members.recentBans + {id})), id)
  }

  function RecordFailure(s: State, id: NodeId, now: int): State {
    var t := FailedTrust(TrustAt(s.members, id), now);
    var s1 := s.(members := SetTrust(s.members, id, t));
    if t.failures >= AUTO_PRUNE_FAILURES then AutoBan(s1, id) else s1
  }

  // ---------------------------------------------------------------- verify_message

  function Predecessor(seqNo: U64): U64 { (seqNo + TWO_64 - 1) % TWO_64 }

  predicate Chains(l: Log, m: Message) {
    var h := HistoryAt(l, m.sender);
    if h == map[] then true
    else if Predecessor(m.seqNo) !in h then m.prevHash == [] || m.prevHash == Genesis()
    else h[Predecessor(m.seqNo)] == m.prevHash
  }

  ghost predicate IsLargest(k: U64, h: map<U64, Str>) {
    k in h && forall j :: j in h ==> j <= k
  }

  /** get_last_sent_hash. */
  ghost predicate IsLastHash(l: Log, id: NodeId, hash: Str) {
    var h := HistoryAt(l, id);
    if h == map[] then hash == Genesis() else exists k: U64 :: IsLargest(k, h) && hash == h[k]
  }

  /** The comparison with the largest known sequence number wraps at 64 bits. */
  ghost predicate Continues(l: Log, m: Message) {
    var h := HistoryAt(l, m.sender);
    h == map[] || exists k: U64 :: IsLargest(k, h) && m.seqNo <= (k + MAX_SEQUENCE_GAP) % TWO_64
  }

  /** verify_message answers true for exactly these messages. */
  ghost predicate Verifies(s: State, m: Message) {
    && m.sender !in s.members.banned
    && m.sender in s.members.keys
    && SignatureVerifies(s.members.keys[m.sender], Blob(m), m.signature)
    && Chains(s.log, m)
    && Continues(s.log, m)
  }

  ghost function VerifyAs(s: State, id: NodeId, verifies: bool, now: int): State {
    if id in s.members.banned || id !in s.members.keys then s
    else if verifies then s.(members := SetTrust(s.members, id, SucceededTrust(TrustAt(s.members, id))))
    else RecordFailure(s, id, now)
  }

  ghost function Verify(s: State, m: Message, now: int): State {
    VerifyAs(s, m.sender, Verifies(s, m), now)
  }

  // ---------------------------------------------------------------- advance_state

  predicate Stale(r: Round, now: int) {
    Seconds(now - r.lastActivity) > ROUND_TTL_SEC
  }

  function StaleKeys(b: Ballots, now: int): set<Str> {
    set rk | rk in b.rounds && Stale(b.rounds[rk], now)
  }

  function Cleanup(b: Ballots, now: int): Ballots {
    Ballots(b.votes - StaleKeys(b, now), b.rounds - StaleKeys(b, now))
  }

  function CheckRate(s: State, id: NodeId, now: int): Log {
    s.log.(rateLimits := s.log.rateLimits[id := AfterCheck(RateAt(s.log, id), now, s.rateWindow, s.rateMax)])
  }

  predicate RateAdmits(s: State, id: NodeId, now: int) {
    Admits(RateAt(s.log, id), now, s.rateWindow, s.rateMax)
  }

  /** Past the cap, half of the hash set goes; which half depends on the container's order. */
  function EvictSeen(seen: set<Str>, dropped: set<Str>): set<Str> {
    if |seen| > MAX_SEEN_MESSAGES then seen - dropped else seen
  }

  ghost predicate IsSmallest(k: U64, h: map<U64, Str>) {
    k in h && forall j :: j in h ==> k <= j
  }

  lemma {:induction false} SmallestExists(keys: set<U64>) returns (k: U64)
    requires keys != {}
    ensures k in keys && forall j :: j in keys ==> k <= j
    decreases keys
  {
    k :| k in keys;
    var rest := keys - {k};
    assert forall j :: j in keys ==> j == k || j in rest;
    if rest != {} {
      var k' := SmallestExists(rest);
      if k' < k { k := k'; }
    }
  }

  ghost function SmallestKey(h: map<U64, Str>): (k: U64)
    requires h != map[]
    ensures IsSmallest(k, h)
  {
    assert exists k :: IsSmallest(k, h) by { var k := SmallestExists(h.Keys); assert IsSmallest(k, h); }
    var k :| IsSmallest(k, h); k
  }

  lemma RemoveKeySize(h: map<U64, Str>, k: U64)
    requires k in h
    ensures |h - {k}| == |h| - 1
  {
    assert (h - {k}).Keys == h.Keys - {k};
  }

  /** Erase the smallest sequence numbers until the cap is met. */
  ghost function EvictOldest(h: map<U64, Str>): (r: map<U64, Str>)
    decreases |h|
  {
    if |h| <= MAX_MSG_HISTORY_PER_SENDER then h
    else
      RemoveKeySize(h, SmallestKey(h));
      EvictOldest(h - {SmallestKey(h)})
  }

  predicate Equivocates(l: Log, m: Message, mh: Str) {
    var h := HistoryAt(l, m.sender);
    m.seqNo in h && h[m.seqNo] != mh
  }

  ghost function Remember(l: Log, m: Message, mh: Str, now: int): Log {
    var h := HistoryAt(l, m.sender);
    l.(equivocations :=
         if Equivocates(l, m, mh)
         then l.equivocations[m.sender := Equivocation(m.sender, m.seqNo, m.view, h[m.seqNo], mh, now)]
         else l.equivocations,
       history := l.history[m.sender := EvictOldest(h[m.seqNo := mh])])
  }

  ghost function DetectEquivocation(s: State, m: Message, mh: Str, now: int): State {
    s.(log := Remember(s.log, m, mh, now),
       members := if Equivocates(s.log, m, mh)
                  then SetTrust(s.members, m.sender, EquivocatedTrust(TrustAt(s.members, m.sender), now))
                  else s.members)
  }

  /** verify_quorum_intersection: true also when the PREPARE voters are fewer than a quorum. */
  predicate QuorumsIntersect(b: Ballots, quorum: int, rk: Str) {
    var v := VotesAt(b, rk);
    if "PREPARE" !in v || |v["PREPARE"]| < quorum || "COMMIT" !in v then true
    else |v["PREPARE"] * v["COMMIT"]| >= quorum
  }

  function SetRound(b: Ballots, rk: Str, r: Round): Ballots {
    b.(rounds := b.rounds[rk := r])
  }

  function SetVoters(b: Ballots, rk: Str, stage: string, voters: set<NodeId>): Ballots {
    b.(votes := b.votes[rk := VotesAt(b, rk)[stage := voters]])
  }

  /** The stage a counted vote moves its round to, or Idle when it does not move. */
  function NextStage(b: Ballots, quorum: int, stage: string, rk: Str): Stage {
    var state := RoundAt(b, rk).state;
    var enough := |Voters(b, rk, stage)| >= quorum;
    if (stage == "PRE_PREPARE" || stage == "BAN_PEER") && state == Idle then Prepare
    else if stage == "PREPARE" && enough && state == Prepare then Commit
    else if stage == "COMMIT" && enough && state == Commit && QuorumsIntersect(b, quorum, rk) then Executed
    else Idle
  }

  /** A COMMIT vote that would execute without the intersection is taken back out. */
  predicate RollsBack(b: Ballots, quorum: int, stage: string, rk: Str) {
    && stage == "COMMIT" && |Voters(b, rk, stage)| >= quorum && RoundAt(b, rk).state == Commit
    && !QuorumsIntersect(b, quorum, rk)
  }

  function Transition(b: Ballots, quorum: int, m: Message, rk: Str): Ballots {
    var next := NextStage(b, quorum, m.stage, rk);
    if next != Idle then SetRound(b, rk, RoundAt(b, rk).(state := next))
    else if RollsBack(b, quorum, m.stage, rk) then SetVoters(b, rk, m.stage, Voters(b, rk, m.stage) - {m.sender})
    else b
  }

  function OpenRound(r: Round, m: Message, mh: Str, rk: Str, now: int): Round {
    if r.state == Idle then r.(startedAt := now, view := m.view, prePrepareHash := mh, evidenceKey := rk) else r
  }

  /** The ballots with the vote inserted and its round opened, before any transition. */
  function Insert(b: Ballots, m: Message, mh: Str, rk: Str, now: int): Ballots {
    var r := OpenRound(RoundAt(b, rk), m, mh, rk, now);
    SetRound(SetVoters(b, rk, m.stage, Voters(b, rk, m.stage) + {m.sender}), rk,
             if r.view != m.view then r else r.(lastActivity := now))
  }

  function CountVote(b: Ballots, quorum: int, m: Message, mh: Str, rk: Str, now: int): (Ballots, Stage) {
    if m.sender in Voters(b, rk, m.stage) then (b, Idle)
    else
      var b1 := Insert(b, m, mh, rk, now);
      if RoundAt(b1, rk).view != m.view then (b1, Idle)
      else (Transition(b1, quorum, m, rk), NextStage(b1, quorum, m.stage, rk))
  }

  ghost function Admitted(s: State, m: Message, mh: Str, rk: Str, now: int, dropped: set<Str>): (State, Stage) {
    if mh in s.log.seen then (s, Idle)
    else
      var s1 := s.(log := s.log.(seen := EvictSeen(s.log.seen + {mh}, dropped)));
      var s2 := DetectEquivocation(s1, m, mh, now);
      var c := CountVote(s2.ballots, Quorum(s2.members.total), m, mh, rk, now);
      (s2.(ballots := c.0), c.1)
  }

  /** The stale rounds cleared and the sender's timestamps updated. */
  function Swept(s: State, id: NodeId, now: int): State {
    s.(ballots := Cleanup(s.ballots, now), log := CheckRate(s, id, now))
  }

  /**
   advance_state, with the message hash and the round key it computes as inputs: what is
   proved of it then holds whatever the hash function does.
   */
  ghost function Advance(s: State, m: Message, mh: Str, rk: Str, now: int, dropped: set<Str>): (State, Stage) {
    if m.sender in s.members.banned || m.sender !in s.members.keys then (s, Idle)
    else if !RateAdmits(s, m.sender, now) then (RecordFailure(Swept(s, m.sender, now), m.sender, now), Idle)
    else Admitted(Swept(s, m.sender, now), m, mh, rk, now, dropped)
  }

  function SetCommitSig(b: Ballots, rk: Str, sig: Signature): Ballots {
    SetRound(b, rk, RoundAt(b, rk).(commitSignature := sig))
  }

  // ---------------------------------------------------------------- every locked method as one step

  datatype Op =
    | RegisterOp(id: NodeId, pub: PublicKey)
    | IdentityOp(id: NodeId, priv: Option<nat>)
    | SetTotalOp(n: int)
    | IncrementOp
    | DecrementOp
    | TryIncrementOp(id: NodeId)
    | PruneOp(id: NodeId)
    | BanOp(id: NodeId)
    | ProposeBanOp(id: NodeId)
    | DrainBansOp
    | CommitSigOp(rk: Str, sig: Signature)
    | NextViewOp
    | VerifyOp(m: Message, now: int)
    | AdvanceOp(m: Message, mh: Str, rk: Str, now: int, dropped: set<Str>)

  ghost function Step(s: State, op: Op): State {
    match op
    case RegisterOp(id, key) => s.(members := RegisterKey(s.members, id, key))
    case IdentityOp(id, key) => s.(me := id, signingKey := key)
    case SetTotalOp(n) => s.(members := s.members.(total := Max(1, n)))
    case IncrementOp => s.(members := s.members.(total := s.members.total + 1))
    case DecrementOp => s.(members := s.members.(total := Max(1, s.members.total - 1)))
    case TryIncrementOp(id) => s.(members := TryIncrement(s.members, id))
    case PruneOp(id) => Prune(s, id)
    case BanOp(id) => s.(members := Ban(s.members, id))
    case ProposeBanOp(id) => if BanProposable(s, id) then s.(members := Ban(s.members, id)) else s
    case DrainBansOp => s.(members := s.members.(recentBans := {}))
    case CommitSigOp(rk, sig) => s.(ballots := SetCommitSig(s.ballots, rk, sig))
    case NextViewOp => s.(view := s.view + 1)
    case VerifyOp(m, now) => Verify(s, m, now)
    case AdvanceOp(m, mh, rk, now, dropped) => Advance(s, m, mh, rk, now, dropped).0
  }

  ghost function Run(s: State, ops: seq<Op>): State {
    if ops == [] then s else Step(Run(s, ops[..|ops| - 1]), ops[|ops| - 1])
  }
}
