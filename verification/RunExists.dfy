/**
 Every properly set up network can execute: whoever the faulty nodes are, as many voters as a quorum needs
 take a round through all stages at every node that receives their votes. So the safety theorems are about
 something, and a run in which a proposal is misread can be taken to its end.
 */
module RunExists {
  import opened Wrappers
  import opened Delimited
  import opened Symbolic
  import opened RateLimit
  import opened Pbft
  import opened PbftRegistry
  import opened PbftRounds
  import opened PbftText
  import opened PbftQuorum
  import opened Quorums
  import opened Network
  import opened Paths

  /** What the votes are about. */
  datatype Topic = Topic(evidence: string, target: NodeId)

  /** What the receiving nodes, which see the same messages in the same order, have in common. All clocks read 0. */
  datatype Memory = Memory(b: Ballots, h: map<NodeId, map<U64, Str>>, seen: set<Str>, times: map<NodeId, seq<int>>)

  function H(k: Memory, p: NodeId): map<U64, Str> { if p in k.h then k.h[p] else map[] }
  function T(k: Memory, p: NodeId): seq<int> { if p in k.times then k.times[p] else [] }

  /**
   What a run is about, the honest nodes that receive its messages, and what the proposer signed, which
   the receivers take for a proposal about the topic.
   */
  datatype Scene = Scene(u: Setup, v: Topic, rs: set<NodeId>, proposal: Vote)

  /** Ids as a VOTE can carry them. */
  ghost predicate IdsOk(u: Setup) {
    forall p :: p in u.ids ==> BarFree(p) && 0 < |p| <= Wire.MAX_ID
  }

  ghost predicate SceneOk(c: Scene) {
    SetupOk(c.u) && IdsOk(c.u) && c.rs <= Honest(c.u) && Receivable(c.v.target, c.v.evidence)
  }

  function Rk(v: Topic): Str { RoundKey(v.evidence, v.target) }

  function KeysOf(u: Setup): map<NodeId, PublicKey>
    requires u.keyOf.Keys == u.ids
  {
    map p | p in u.ids :: PublicKey(u.keyOf[p])
  }

  ghost predicate Tracks(u: Setup, s: State, k: Memory) {
    && u.keyOf.Keys == u.ids
    && s.members.total == |u.ids| && s.members.keys == KeysOf(u) && s.members.banned == {}
    && s.rateWindow == 10 && s.rateMax == 5
    && s.ballots == k.b && s.log.history == k.h && s.log.seen == k.seen && s.log.rateLimits == k.times
  }

  // ---------------------------------------------------------------- one message through one engine

  lemma VerifiesTracked(u: Setup, s: State, k: Memory, m: Message)
    requires Tracks(u, s, k) && Proper(u, k, m)
    ensures Verifies(s, m) && Tracks(u, Verify(s, m, 0), k)
  {
    assert SignatureVerifies(s.members.keys[m.sender], Blob(m), m.signature);
    assert H(k, m.sender) == HistoryAt(s.log, m.sender);
    assert H(k, m.sender) != map[] ==> Predecessor(m.seqNo) == m.seqNo - 1 && Continues(s.log, m);
  }

  ghost predicate Zeros(times: seq<int>) {
    forall i :: 0 <= i < |times| ==> times[i] == 0
  }

  lemma {:induction false} ZerosKept(times: seq<int>)
    requires Zeros(times)
    ensures Keep(times, 0, 10) == times
  {
    if times != [] { ZerosKept(times[..|times| - 1]); }
  }

  /** Every round was active just now. */
  ghost predicate Lively(b: Ballots) {
    forall rk :: rk in b.rounds ==> b.rounds[rk].lastActivity == 0
  }

  lemma SweptTracked(u: Setup, s: State, k: Memory, p: NodeId)
    requires Tracks(u, s, k) && Lively(k.b) && Zeros(T(k, p)) && |T(k, p)| < 5
    ensures RateAdmits(s, p, 0) && Tracks(u, Swept(s, p, 0), k.(times := k.times[p := T(k, p) + [0]]))
  {
    assert StaleKeys(k.b, 0) == {};
    ZerosKept(T(k, p));
  }

  lemma MapGrows(h: map<U64, Str>, n: U64, x: Str)
    ensures |h[n := x]| <= |h| + 1
  {
    assert h[n := x].Keys == h.Keys + {n};
    assert |h.Keys + {n}| <= |h.Keys| + 1;
  }

  lemma DetectTracked(u: Setup, s: State, k: Memory, m: Message, mh: Str)
    requires Tracks(u, s, k) && |H(k, m.sender)| < 10
    ensures Tracks(u, DetectEquivocation(s, m, mh, 0), k.(h := k.h[m.sender := H(k, m.sender)[m.seqNo := mh]]))
  {
    var h := H(k, m.sender);
    MapGrows(h, m.seqNo, mh);
    assert EvictOldest(h[m.seqNo := mh]) == h[m.seqNo := mh];
  }

  lemma SeenTracked(u: Setup, s: State, k: Memory, mh: Str)
    requires Tracks(u, s, k)
    ensures Tracks(u, s.(log := s.log.(seen := EvictSeen(s.log.seen + {mh}, {}))), k.(seen := k.seen + {mh}))
  {
  }

  lemma BallotsTracked(u: Setup, s: State, k: Memory, b: Ballots)
    requires Tracks(u, s, k)
    ensures Tracks(u, s.(ballots := b), k.(b := b))
  {
  }

  /** The memory after one more message, counted into the ballots `b`. */
  function Next1(k: Memory, m: Message, mh: Str, b: Ballots): Memory {
    Memory(b, k.h[m.sender := H(k, m.sender)[m.seqNo := mh]], k.seen + {mh}, k.times[m.sender := T(k, m.sender) + [0]])
  }

  lemma AdmitTracked(u: Setup, s: State, k: Memory, m: Message, mh: Str, rk: Str, b: Ballots, stage: Stage)
    requires Tracks(u, s, k) && mh !in k.seen && |H(k, m.sender)| < 10
    requires CountVote(k.b, Quorum(|u.ids|), m, mh, rk, 0) == (b, stage)
    ensures var (s', stage') := Admitted(s, m, mh, rk, 0, {});
            && stage' == stage
            && Tracks(u, s', Memory(b, k.h[m.sender := H(k, m.sender)[m.seqNo := mh]], k.seen + {mh}, k.times))
  {
    var k1 := k.(seen := k.seen + {mh});
    var s1 := s.(log := s.log.(seen := EvictSeen(s.log.seen + {mh}, {})));
    SeenTracked(u, s, k, mh);
    DetectTracked(u, s1, k1, m, mh);
    var s2 := DetectEquivocation(s1, m, mh, 0);
    BallotsTracked(u, s2, k1.(h := k.h[m.sender := H(k, m.sender)[m.seqNo := mh]]), b);
    assert s2.members.total == |u.ids| && s2.ballots == k.b;
  }

  lemma AdvanceTracked(u: Setup, s: State, k: Memory, m: Message, mh: Str, rk: Str, b: Ballots, stage: Stage)
    requires Tracks(u, s, k) && m.sender in u.ids && mh !in k.seen && Lively(k.b)
    requires Zeros(T(k, m.sender)) && |T(k, m.sender)| < 5 && |H(k, m.sender)| < 10
    requires CountVote(k.b, Quorum(|u.ids|), m, mh, rk, 0) == (b, stage)
    ensures Advance(s, m, mh, rk, 0, {}).1 == stage && Tracks(u, Advance(s, m, mh, rk, 0, {}).0, Next1(k, m, mh, b))
  {
    SweptTracked(u, s, k, m.sender);
    var k1 := k.(times := k.times[m.sender := T(k, m.sender) + [0]]);
    AdmitTracked(u, Swept(s, m.sender, 0), k1, m, mh, rk, b, stage);
  }

  // ---------------------------------------------------------------- the vote counted

  type Tally = map<string, set<NodeId>>

  function Of(w: Tally, stage: string): set<NodeId> { if stage in w then w[stage] else {} }

  /** The round after some votes: its stage, and whom each stage has. */
  ghost predicate At(b: Ballots, rk: Str, state: Stage, w: Tally) {
    && Lively(b) && RoundAt(b, rk).state == state && (state != Idle ==> RoundAt(b, rk).view == 0)
    && forall stage :: Voters(b, rk, stage) == Of(w, stage)
  }

  /** The stage a vote moves the round to, or Idle. */
  function Moved(state: Stage, w: Tally, stage: string, quorum: int): Stage {
    var enough := |Of(w, stage)| >= quorum;
    if stage == "PRE_PREPARE" && state == Idle then Prepare
    else if stage == "PREPARE" && enough && state == Prepare then Commit
    else if stage == "COMMIT" && enough && state == Commit then Executed
    else Idle
  }

  lemma InsertAt(b: Ballots, rk: Str, state: Stage, w: Tally, m: Message, mh: Str)
    requires At(b, rk, state, w) && m.view == 0
    ensures At(Insert(b, m, mh, rk, 0), rk, state, w[m.stage := Of(w, m.stage) + {m.sender}])
    ensures RoundAt(Insert(b, m, mh, rk, 0), rk).view == 0
  {
    var b1, w1 := Insert(b, m, mh, rk, 0), w[m.stage := Of(w, m.stage) + {m.sender}];
    InsertRound(b, m, mh, rk, 0, rk);
    forall stage ensures Voters(b1, rk, stage) == Of(w1, stage) {
      InsertVoters(b, m, mh, rk, 0, rk, stage);
    }
  }

  /** When all who committed had prepared, the intersection holds. */
  lemma MoveAt(b: Ballots, rk: Str, state: Stage, w: Tally, m: Message, quorum: int)
    requires At(b, rk, state, w) && RoundAt(b, rk).view == 0 && quorum >= 1
    requires m.stage in {"PRE_PREPARE", "PREPARE", "COMMIT"} && (m.stage == "PRE_PREPARE" ==> state == Idle)
    requires m.stage == "COMMIT" && |Of(w, "COMMIT")| >= quorum ==> Of(w, "COMMIT") <= Of(w, "PREPARE")
    ensures var next := Moved(state, w, m.stage, quorum);
            && NextStage(b, quorum, m.stage, rk) == next && !RollsBack(b, quorum, m.stage, rk)
            && At(Transition(b, quorum, m, rk), rk, if next == Idle then state else next, w)
  {
    assert Voters(b, rk, m.stage) == Of(w, m.stage);
    assert Voters(b, rk, "PREPARE") == Of(w, "PREPARE") && Voters(b, rk, "COMMIT") == Of(w, "COMMIT");
    var v := VotesAt(b, rk);
    if "PREPARE" in v && "COMMIT" in v && Of(w, "COMMIT") <= Of(w, "PREPARE") {
      assert v["PREPARE"] * v["COMMIT"] == Of(w, "COMMIT");
    }
    forall stage ensures Voters(Transition(b, quorum, m, rk), rk, stage) == Voters(b, rk, stage) {
    }
  }

  lemma CountAt(b: Ballots, rk: Str, state: Stage, w: Tally, m: Message, mh: Str, quorum: int)
    requires At(b, rk, state, w) && quorum >= 1 && m.view == 0 && m.sender !in Of(w, m.stage)
    requires m.stage in {"PRE_PREPARE", "PREPARE", "COMMIT"} && (m.stage == "PRE_PREPARE" ==> state == Idle)
    requires m.stage == "COMMIT" && |Of(w, "COMMIT") + {m.sender}| >= quorum ==>
               Of(w, "COMMIT") + {m.sender} <= Of(w, "PREPARE")
    ensures var w' := w[m.stage := Of(w, m.stage) + {m.sender}];
            var next := Moved(state, w', m.stage, quorum);
            var c := CountVote(b, quorum, m, mh, rk, 0);
            c.1 == next && At(c.0, rk, if next == Idle then state else next, w')
  {
    var w' := w[m.stage := Of(w, m.stage) + {m.sender}];
    InsertAt(b, rk, state, w, m, mh);
    MoveAt(Insert(b, m, mh, rk, 0), rk, state, w', m, quorum);
    assert Voters(b, rk, m.stage) == Of(w, m.stage);
  }

  // ---------------------------------------------------------------- one vote delivered to one node

  function VoteFor(v: Topic, p: NodeId, stage: string, prev: Str, seqNo: U64): Vote {
    Vote(p, stage, v.target, v.evidence, seqNo, 0, prev, Rk(v))
  }

  function KeyOf(u: Setup, p: NodeId): nat { if p in u.keyOf then u.keyOf[p] else 0 }

  function MessageFor(u: Setup, v: Topic, p: NodeId, stage: string, prev: Str, seqNo: U64): Message {
    Message(stage, p, v.target, v.evidence, Signed(KeyOf(u, p), SigningBlob(stage, v.target, v.evidence, seqNo, 0, prev)),
            prev, seqNo, 0)
  }

  function Mh(u: Setup, v: Topic, p: NodeId, stage: string, prev: Str, seqNo: U64): Str {
    MessageHash(MessageFor(u, v, p, stage, prev, seqNo))
  }

  function BallotFor(u: Setup, v: Topic, p: NodeId, stage: string, prev: Str, seqNo: U64): Ballot {
    Ballot(MessageFor(u, v, p, stage, prev, seqNo), Mh(u, v, p, stage, prev, seqNo), Rk(v))
  }

  lemma TracksMember(u: Setup, s: State, k: Memory)
    requires Tracks(u, s, k)
    ensures Member(u, s)
  {
  }

  /** Nothing in the memory keeps the ballot from being counted. */
  ghost predicate Fits(u: Setup, k: Memory, ballot: Ballot) {
    var p := ballot.m.sender;
    p in u.ids && ballot.mh !in k.seen && Lively(k.b) && Zeros(T(k, p)) && |T(k, p)| < 5 && |H(k, p)| < 10
  }

  /** The message is the sender's next one, and signed. */
  ghost predicate Proper(u: Setup, k: Memory, m: Message) {
    && m.sender in u.ids && m.sender in u.keyOf && m.signature == Signed(u.keyOf[m.sender], Blob(m)) && 1 <= m.seqNo < 10
    && (H(k, m.sender) == map[] || (IsLargest(m.seqNo - 1, H(k, m.sender)) && H(k, m.sender)[m.seqNo - 1] == m.prevHash))
  }

  /** Sent over the wire; and to its sender, if that is one of the receivers, by itself. */
  ghost predicate Sent(u: Setup, rs: set<NodeId>, signed: set<Vote>, m: Message) {
    Unforged(u, signed, m) && (m.sender in rs ==> HandedBack(signed, m.sender, m))
  }

  ghost predicate Deliverable(u: Setup, rs: set<NodeId>, signed: set<Vote>, k: Memory, ballot: Ballot) {
    && Proper(u, k, ballot.m) && Fits(u, k, ballot)
    && BallotText(ballot) && Acceptable(ballot.m) && Sent(u, rs, signed, ballot.m)
  }

  /** Some actions lead from one net to the other. */
  ghost predicate Runs(u: Setup, net: Net, net': Net) {
    exists actions :: Reaches(u, net, actions, net')
  }

  lemma RunsStay(u: Setup, net: Net)
    ensures Runs(u, net, net)
  {
    assert Path(Steps(u), net, [], net);
    assert Reaches(u, net, [], net);
  }

  lemma RunsStep(u: Setup, net: Net, a: Action, net': Net)
    requires StepTo(u, net, a, net')
    ensures Runs(u, net, net')
  {
    PathOne(Steps(u), net, a, net');
    assert Reaches(u, net, [a], net');
  }

  lemma RunsOn(u: Setup, net: Net, mid: Net, last: Net)
    requires Runs(u, net, mid) && Runs(u, mid, last)
    ensures Runs(u, net, last)
  {
    var first :| Reaches(u, net, first, mid);
    var second :| Reaches(u, mid, second, last);
    PathConcat(Steps(u), net, first, mid, second, last);
    assert Reaches(u, net, first + second, last);
  }

  /** One node changed: it now tracks `k` and has these permits more. */
  ghost predicate Changed(u: Setup, net: Net, net': Net, p: NodeId, k: Memory, more: set<Permit>) {
    && p in net.nodes && p in net'.nodes && net'.nodes == net.nodes[p := net'.nodes[p]] && net'.signed == net.signed
    && Tracks(u, net'.nodes[p].pbft, k) && net'.nodes[p].permits == net.nodes[p].permits + more
  }

  lemma ReceiveProper(u: Setup, net: Net, p: NodeId, k: Memory, ballot: Ballot) returns (net': Net)
    requires p in net.nodes && Tracks(u, net.nodes[p].pbft, k) && Proper(u, k, ballot.m) && BallotText(ballot)
    requires FromWire(u, net.signed, p, ballot.m) || HandedBack(net.signed, p, ballot.m)
    ensures Runs(u, net, net') && Changed(u, net, net', p, k, {}) && ballot in net'.nodes[p].verified
  {
    VerifiesTracked(u, net.nodes[p].pbft, k, ballot.m);
    TracksMember(u, Verify(net.nodes[p].pbft, ballot.m, 0), k);
    var a := Receive(p, ballot, 0);
    net' := Next(net, a);
    RunsStep(u, net, a, net');
  }

  lemma ReceiveTracked(u: Setup, rs: set<NodeId>, net: Net, p: NodeId, k: Memory, ballot: Ballot) returns (net': Net)
    requires p in rs && p in net.nodes && Tracks(u, net.nodes[p].pbft, k) && Deliverable(u, rs, net.signed, k, ballot)
    ensures Runs(u, net, net') && Changed(u, net, net', p, k, {}) && ballot in net'.nodes[p].verified
  {
    net' := ReceiveProper(u, net, p, k, ballot);
  }

  lemma TakeTracked(u: Setup, net: Net, p: NodeId, ballot: Ballot, s: State, stage: Stage, k: Memory) returns (net': Net)
    requires p in net.nodes && ballot in net.nodes[p].verified && Tracks(u, s, k)
    requires BallotAdvance(net.nodes[p].pbft, ballot, 0, {}) == (s, stage)
    ensures Runs(u, net, net') && Changed(u, net, net', p, k, Permits(ballot, stage, k.b))
  {
    TracksMember(u, s, k);
    var a := Count(p, ballot, 0, {});
    net' := Next(net, a);
    RunsStep(u, net, a, net');
  }

  lemma CountTracked(u: Setup, net: Net, p: NodeId, k: Memory, ballot: Ballot, b: Ballots, stage: Stage) returns (net': Net)
    requires p in net.nodes && ballot in net.nodes[p].verified && Tracks(u, net.nodes[p].pbft, k) && Fits(u, k, ballot)
    requires CountVote(k.b, Quorum(|u.ids|), ballot.m, ballot.mh, ballot.rk, 0) == (b, stage)
    ensures Runs(u, net, net') && Changed(u, net, net', p, Next1(k, ballot.m, ballot.mh, b), Permits(ballot, stage, b))
  {
    var s := net.nodes[p].pbft;
    AdvanceTracked(u, s, k, ballot.m, ballot.mh, ballot.rk, b, stage);
    net' := TakeTracked(u, net, p, ballot, BallotAdvance(s, ballot, 0, {}).0, stage, Next1(k, ballot.m, ballot.mh, b));
  }

  lemma ChangedOn(u: Setup, net: Net, mid: Net, last: Net, p: NodeId, k: Memory, k': Memory, more: set<Permit>)
    requires Changed(u, net, mid, p, k, {}) && Changed(u, mid, last, p, k', more)
    ensures Changed(u, net, last, p, k', more)
  {
  }

  /** A vote received and counted by one node. */
  lemma Deliver(u: Setup, rs: set<NodeId>, net: Net, p: NodeId, k: Memory, ballot: Ballot, b: Ballots, stage: Stage)
    returns (net': Net)
    requires p in rs && p in net.nodes && Tracks(u, net.nodes[p].pbft, k) && Deliverable(u, rs, net.signed, k, ballot)
    requires CountVote(k.b, Quorum(|u.ids|), ballot.m, ballot.mh, ballot.rk, 0) == (b, stage)
    ensures Runs(u, net, net') && Changed(u, net, net', p, Next1(k, ballot.m, ballot.mh, b), Permits(ballot, stage, b))
  {
    var mid := ReceiveTracked(u, rs, net, p, k, ballot);
    net' := CountTracked(u, mid, p, k, ballot, b, stage);
    RunsOn(u, net, mid, net');
    ChangedOn(u, net, mid, net', p, k, Next1(k, ballot.m, ballot.mh, b), Permits(ballot, stage, b));
  }

  // ---------------------------------------------------------------- one vote delivered to all

  ghost predicate AllAt(net: Net, ps: set<NodeId>, ok: State -> bool) {
    forall p :: p in ps ==> p in net.nodes && ok(net.nodes[p].pbft)
  }

  /** One node changed: its engine is now `ok`, and it has these permits more. */
  ghost predicate ChangedTo(net: Net, net': Net, p: NodeId, ok: State -> bool, more: set<Permit>) {
    && p in net.nodes && p in net'.nodes && net'.nodes == net.nodes[p := net'.nodes[p]] && net'.signed == net.signed
    && ok(net'.nodes[p].pbft) && net'.nodes[p].permits == net.nodes[p].permits + more
  }

  ghost predicate Hops(u: Setup, net: Net, p: NodeId, ok: State -> bool, more: set<Permit>) {
    exists net' :: Runs(u, net, net') && ChangedTo(net, net', p, ok, more)
  }

  /** Whatever the other nodes are doing, any one receiver can go from `before` to `after`. */
  ghost predicate Hop(u: Setup, rs: set<NodeId>, signed: set<Vote>, before: State -> bool, after: State -> bool, more: set<Permit>) {
    forall net: Net, p {:trigger Hops(u, net, p, after, more)} ::
      net.signed == signed && p in rs && p in net.nodes && before(net.nodes[p].pbft) ==> Hops(u, net, p, after, more)
  }

  /** These nodes have these permits, and all have the ones they had, and no others. */
  ghost predicate Permitted(net: Net, net': Net, ps: set<NodeId>, more: set<Permit>) {
    && net'.nodes.Keys == net.nodes.Keys
    && (forall p :: p in net.nodes ==> net.nodes[p].permits <= net'.nodes[p].permits <= net.nodes[p].permits + more)
    && (forall p :: p in ps && p in net.nodes ==> more <= net'.nodes[p].permits)
  }

  lemma ChangedAll(rs: set<NodeId>, net: Net, mid: Net, p: NodeId, todo: set<NodeId>,
                   before: State -> bool, after: State -> bool, more: set<Permit>)
    requires rs <= net.nodes.Keys && todo <= rs && p in todo && ChangedTo(net, mid, p, after, more)
    requires AllAt(net, todo, before) && AllAt(net, rs - todo, after)
    ensures mid.nodes.Keys == net.nodes.Keys && mid.signed == net.signed && Permitted(net, mid, {p}, more)
    ensures AllAt(mid, todo - {p}, before) && AllAt(mid, rs - (todo - {p}), after)
  {
    forall q | q in net.nodes && q != p ensures mid.nodes[q] == net.nodes[q] {}
  }

  lemma PermittedOn(net: Net, mid: Net, last: Net, ps: set<NodeId>, qs: set<NodeId>, more: set<Permit>)
    requires Permitted(net, mid, ps, more) && Permitted(mid, last, qs, more)
    ensures Permitted(net, last, ps + qs, more)
  {
  }

  lemma HopOne(u: Setup, rs: set<NodeId>, net: Net, p: NodeId, todo: set<NodeId>,
               before: State -> bool, after: State -> bool, more: set<Permit>) returns (mid: Net)
    requires rs <= net.nodes.Keys && todo <= rs && p in todo && Hop(u, rs, net.signed, before, after, more)
    requires AllAt(net, todo, before) && AllAt(net, rs - todo, after)
    ensures Runs(u, net, mid) && mid.nodes.Keys == net.nodes.Keys && mid.signed == net.signed && Permitted(net, mid, {p}, more)
    ensures AllAt(mid, todo - {p}, before) && AllAt(mid, rs - (todo - {p}), after)
  {
    assert Hops(u, net, p, after, more);
    mid :| Runs(u, net, mid) && ChangedTo(net, mid, p, after, more);
    ChangedAll(rs, net, mid, p, todo, before, after, more);
  }

  lemma {:induction false} HopAll(u: Setup, rs: set<NodeId>, net: Net, todo: set<NodeId>,
                                  before: State -> bool, after: State -> bool, more: set<Permit>) returns (net': Net)
    requires rs <= net.nodes.Keys && todo <= rs && Hop(u, rs, net.signed, before, after, more)
    requires AllAt(net, todo, before) && AllAt(net, rs - todo, after)
    ensures Runs(u, net, net') && net'.nodes.Keys == net.nodes.Keys && net'.signed == net.signed
    ensures AllAt(net', rs, after) && Permitted(net, net', todo, more)
    decreases todo
  {
    if todo == {} {
      RunsStay(u, net);
      net' := net;
      assert rs - todo == rs;
    } else {
      var p :| p in todo;
      var mid := HopOne(u, rs, net, p, todo, before, after, more);
      net' := HopAll(u, rs, mid, todo - {p}, before, after, more);
      RunsOn(u, net, mid, net');
      PermittedOn(net, mid, net', {p}, todo - {p}, more);
      assert {p} + (todo - {p}) == todo;
    }
  }

  ghost function Tracking(u: Setup, k: Memory): State -> bool { s => Tracks(u, s, k) }

  lemma DeliverHops(u: Setup, rs: set<NodeId>, net: Net, p: NodeId, k: Memory, ballot: Ballot, b: Ballots, stage: Stage)
    requires p in rs && p in net.nodes && Tracks(u, net.nodes[p].pbft, k) && Deliverable(u, rs, net.signed, k, ballot)
    requires CountVote(k.b, Quorum(|u.ids|), ballot.m, ballot.mh, ballot.rk, 0) == (b, stage)
    ensures Hops(u, net, p, Tracking(u, Next1(k, ballot.m, ballot.mh, b)), Permits(ballot, stage, b))
  {
    var net' := Deliver(u, rs, net, p, k, ballot, b, stage);
    assert ChangedTo(net, net', p, Tracking(u, Next1(k, ballot.m, ballot.mh, b)), Permits(ballot, stage, b));
  }

  lemma DeliverHop(u: Setup, rs: set<NodeId>, signed: set<Vote>, k: Memory, ballot: Ballot, b: Ballots, stage: Stage)
    requires Deliverable(u, rs, signed, k, ballot)
    requires CountVote(k.b, Quorum(|u.ids|), ballot.m, ballot.mh, ballot.rk, 0) == (b, stage)
    ensures Hop(u, rs, signed, Tracking(u, k), Tracking(u, Next1(k, ballot.m, ballot.mh, b)), Permits(ballot, stage, b))
  {
    var before, after, more := Tracking(u, k), Tracking(u, Next1(k, ballot.m, ballot.mh, b)), Permits(ballot, stage, b);
    forall n: Net, p | n.signed == signed && p in rs && p in n.nodes && before(n.nodes[p].pbft)
      ensures Hops(u, n, p, after, more)
    {
      DeliverHops(u, rs, n, p, k, ballot, b, stage);
    }
  }

  lemma HopEverywhere(u: Setup, rs: set<NodeId>, net: Net, before: State -> bool, after: State -> bool, more: set<Permit>)
    returns (net': Net)
    requires rs <= net.nodes.Keys && Hop(u, rs, net.signed, before, after, more) && AllAt(net, rs, before)
    ensures Runs(u, net, net') && net'.nodes.Keys == net.nodes.Keys && net'.signed == net.signed && AllAt(net', rs, after)
    ensures Permitted(net, net', rs, more)
  {
    assert rs - rs == {};
    net' := HopAll(u, rs, net, rs, before, after, more);
  }

  // ---------------------------------------------------------------- one vote sent

  lemma BroadcastTracked(u: Setup, net: Net, p: NodeId, vote: Vote) returns (net': Net)
    requires p in net.nodes && Member(u, net.nodes[p].pbft) && vote.signer == p && MaySend(net.nodes[p].permits, vote)
    ensures Runs(u, net, net') && net'.nodes == net.nodes && net'.signed == net.signed + {vote}
  {
    var a := Broadcast(p, vote);
    net' := Next(net, a);
    RunsStep(u, net, a, net');
  }

  /** A message with its signer's signature is sent once that signer, if honest, has signed some such text. */
  lemma SentFor(u: Setup, rs: set<NodeId>, signed: set<Vote>, m: Message, vote: Vote)
    requires SetupOk(u) && m.sender in u.ids && m.signature == Signed(u.keyOf[m.sender], Blob(m))
    requires m.sender in Honest(u) ==> vote in signed && vote.signer == m.sender && VoteBlob(vote) == Blob(m)
    requires m.sender in rs ==> m.sender in Honest(u) && SameText(m, vote)
    ensures Sent(u, rs, signed, m)
  {
    if m.sender in Honest(u) { assert Made(signed, m.sender, m.signature.blob); }
  }

  // ---------------------------------------------------------------- one vote after the other

  /** As many timestamps as messages on record, numbered from one. */
  ghost predicate Neat(h: map<U64, Str>, times: seq<int>) {
    && Zeros(times) && |h| <= |times| < 10
    && if times == [] then h == map[] else IsLargest(|times|, h) && Free(BAR, h[|times|])
  }

  ghost predicate Tidy(k: Memory, p: NodeId) {
    Neat(H(k, p), T(k, p))
  }

  ghost function Last(k: Memory, p: NodeId): Str
    requires Tidy(k, p)
  {
    if T(k, p) == [] then Genesis() else H(k, p)[|T(k, p)|]
  }

  lemma LastFree(k: Memory, p: NodeId)
    requires Tidy(k, p)
    ensures Free(BAR, Last(k, p))
  {
    assert Free(BAR, Genesis());
  }

  /** A hash of one of the messages on record. */
  ghost predicate FromVote(u: Setup, v: Topic, k: Memory, x: Str) {
    exists p, stage, prev, i: U64 ::
      x == Mh(u, v, p, stage, prev, i) && 1 <= i <= |T(k, p)| && BarFree(p) && BarFree(stage) && Free(BAR, prev)
  }

  ghost predicate Orderly(u: Setup, v: Topic, k: Memory) {
    (forall p :: Tidy(k, p)) && forall x :: x in k.seen ==> FromVote(u, v, k, x)
  }

  lemma FreshHash(u: Setup, v: Topic, k: Memory, p: NodeId, stage: string, prev: Str, seqNo: U64)
    requires BarFree(p) && BarFree(stage) && Free(BAR, prev) && seqNo > |T(k, p)|
    ensures !FromVote(u, v, k, Mh(u, v, p, stage, prev, seqNo))
  {
    forall p', stage', prev', i: U64
      | 1 <= i <= |T(k, p')| && BarFree(p') && BarFree(stage') && Free(BAR, prev')
      ensures Mh(u, v, p, stage, prev, seqNo) != Mh(u, v, p', stage', prev', i)
    {
      if Mh(u, v, p, stage, prev, seqNo) == Mh(u, v, p', stage', prev', i) {
        MessageHashBindsIff(MessageFor(u, v, p, stage, prev, seqNo), MessageFor(u, v, p', stage', prev', i));
      }
    }
  }

  lemma FromVoteGrows(u: Setup, v: Topic, k: Memory, k': Memory, x: Str)
    requires FromVote(u, v, k, x) && forall p :: |T(k, p)| <= |T(k', p)|
    ensures FromVote(u, v, k', x)
  {
  }

  lemma NeatNext(h: map<U64, Str>, times: seq<int>, mh: Str)
    requires Neat(h, times) && |times| + 1 < 10 && Free(BAR, mh)
    ensures Neat(h[|times| + 1 := mh], times + [0])
  {
    MapGrows(h, |times| + 1, mh);
    var h', times' := h[|times| + 1 := mh], times + [0];
    assert Zeros(times') && IsLargest(|times'|, h');
  }

  lemma TidyNext(k: Memory, m: Message, mh: Str, b: Ballots, p: NodeId)
    requires Tidy(k, p) && Tidy(k, m.sender) && m.seqNo == |T(k, m.sender)| + 1 && m.seqNo < 10 && Free(BAR, mh)
    ensures Tidy(Next1(k, m, mh, b), p)
  {
    NeatNext(H(k, m.sender), T(k, m.sender), mh);
  }

  lemma MhFree(u: Setup, v: Topic, p: NodeId, stage: string, prev: Str, seqNo: U64)
    ensures Free(BAR, Mh(u, v, p, stage, prev, seqNo))
  {
  }

  lemma OrderlyNext(u: Setup, v: Topic, k: Memory, p: NodeId, stage: string, b: Ballots)
    requires Orderly(u, v, k) && BarFree(p) && BarFree(stage) && |T(k, p)| < 3
    ensures var prev, n := Last(k, p), |T(k, p)| + 1;
            Orderly(u, v, Next1(k, MessageFor(u, v, p, stage, prev, n), Mh(u, v, p, stage, prev, n), b))
  {
    assert Tidy(k, p);
    var prev, n := Last(k, p), |T(k, p)| + 1;
    var m, mh := MessageFor(u, v, p, stage, prev, n), Mh(u, v, p, stage, prev, n);
    var k' := Next1(k, m, mh, b);
    MhFree(u, v, p, stage, prev, n);
    LastFree(k, p);
    forall q ensures Tidy(k', q) {
      assert Tidy(k, q);
      TidyNext(k, m, mh, b, q);
    }
    assert forall q :: |T(k, q)| <= |T(k', q)|;
    forall x | x in k'.seen ensures FromVote(u, v, k', x) {
      if x in k.seen { FromVoteGrows(u, v, k, k', x); } else { assert x == Mh(u, v, p, stage, prev, n) && n <= |T(k', p)|; }
    }
  }

  /** The ballot of p's next vote. */
  ghost function NextBallot(u: Setup, v: Topic, k: Memory, p: NodeId, stage: string): Ballot
    requires Tidy(k, p)
  {
    BallotFor(u, v, p, stage, Last(k, p), |T(k, p)| + 1)
  }

  ghost function NextVote(v: Topic, k: Memory, p: NodeId, stage: string): Vote
    requires Tidy(k, p)
  {
    VoteFor(v, p, stage, Last(k, p), |T(k, p)| + 1)
  }

  predicate StageOk(stage: string, state: Stage) {
    stage == "PREPARE" || stage == "COMMIT" || (stage == "PRE_PREPARE" && state == Idle)
  }

  lemma StageBarFree(stage: string, state: Stage)
    requires StageOk(stage, state)
    ensures BarFree(stage) && stage in {"PRE_PREPARE", "PREPARE", "COMMIT"} && Wire.StageKnown(stage)
  {
  }

  lemma NextDeliverable(c: Scene, signed: set<Vote>, k: Memory, state: Stage, p: NodeId, stage: string)
    requires SceneOk(c) && p in c.u.ids && StageOk(stage, state)
    requires Orderly(c.u, c.v, k) && Lively(k.b) && |T(k, p)| < 3 && Tidy(k, p)
    requires Sent(c.u, c.rs, signed, NextBallot(c.u, c.v, k, p, stage).m)
    ensures Deliverable(c.u, c.rs, signed, k, NextBallot(c.u, c.v, k, p, stage))
  {
    StageBarFree(stage, state);
    LastFree(k, p);
    FreshHash(c.u, c.v, k, p, stage, Last(k, p), |T(k, p)| + 1);
    var ballot := NextBallot(c.u, c.v, k, p, stage);
    assert Proper(c.u, k, ballot.m);
    assert Fits(c.u, k, ballot);
  }

  /** The vote to be counted next. */
  ghost predicate Due(c: Scene, k: Memory, state: Stage, w: Tally, p: NodeId, stage: string) {
    && p in c.u.ids && |T(k, p)| < 3 && StageOk(stage, state) && p !in Of(w, stage)
    && (stage == "COMMIT" && |Of(w, stage) + {p}| >= Quorum(|c.u.ids|) ==> Of(w, stage) + {p} <= Of(w, "PREPARE"))
    && (stage == "PRE_PREPARE" ==> p == c.proposal.signer)
    && (stage == "PREPARE" ==> c.proposal.signer in Of(w, stage) + {p})
  }

  lemma CastCounts(c: Scene, k: Memory, state: Stage, w: Tally, p: NodeId, stage: string, ballot: Ballot)
    returns (b: Ballots, next: Stage)
    requires At(k.b, Rk(c.v), state, w) && Due(c, k, state, w, p, stage)
    requires ballot.m.sender == p && ballot.m.stage == stage && ballot.m.view == 0 && ballot.rk == Rk(c.v)
    ensures CountVote(k.b, Quorum(|c.u.ids|), ballot.m, ballot.mh, ballot.rk, 0) == (b, next)
    ensures var w' := w[stage := Of(w, stage) + {p}];
            next == Moved(state, w', stage, Quorum(|c.u.ids|)) && At(b, Rk(c.v), if next == Idle then state else next, w')
  {
    StageBarFree(stage, state);
    CountAt(k.b, Rk(c.v), state, w, ballot.m, ballot.mh, Quorum(|c.u.ids|));
    var r := CountVote(k.b, Quorum(|c.u.ids|), ballot.m, ballot.mh, Rk(c.v), 0);
    b, next := r.0, r.1;
  }

  /** The permits a node gets with a vote of p that is reported as `next`. */
  ghost predicate Grants(more: set<Permit>, v: Topic, next: Stage) {
    (next == Prepare ==> HasPrepared(more, v.evidence, v.target)) && (next == Commit ==> HasCommitted(more, v.evidence, v.target))
  }

  /** The permit that the proposal gives. */
  function Opened(v: Topic, p: NodeId): Permit { MayPrepare(Rk(v), v.evidence, v.target, p, "PRE_PREPARE") }

  /** The only permits for the round: to prepare what `a` proposed, and to commit what `a`, among others, prepared. */
  ghost predicate Led(permits: set<Permit>, v: Topic, a: NodeId) {
    forall t :: t in permits && t.rk == Rk(v) ==> if t.MayPrepare? then t == Opened(v, a) else a in t.prepared
  }

  lemma PermitsGrant(c: Scene, k: Memory, p: NodeId, stage: string, next: Stage, b: Ballots, state: Stage, w: Tally)
    requires Tidy(k, p) && Due(c, k, state, w, p, stage)
    requires var w' := w[stage := Of(w, stage) + {p}];
             next == Moved(state, w', stage, Quorum(|c.u.ids|)) && forall st :: Voters(b, Rk(c.v), st) == Of(w', st)
    ensures var more := Permits(NextBallot(c.u, c.v, k, p, stage), next, b);
            Grants(more, c.v, next) && Led(more, c.v, c.proposal.signer)
  {
    var ballot := NextBallot(c.u, c.v, k, p, stage);
    var more := Permits(ballot, next, b);
    if next == Prepare {
      assert Opened(c.v, p) in more;
    } else if next == Commit {
      assert Voters(b, Rk(c.v), "PREPARE") == Of(w, "PREPARE") + {p};
      assert MayCommit(ballot.rk, c.v.evidence, c.v.target, Prepared(b, ballot.rk)) in more;
    }
  }

  lemma NextLast(k: Memory, m: Message, mh: Str, b: Ballots)
    requires m.seqNo == |T(k, m.sender)| + 1 && Tidy(Next1(k, m, mh, b), m.sender)
    ensures Last(Next1(k, m, mh, b), m.sender) == mh
  {
  }

  /** Once sent, the next vote of p can be delivered to any receiver; what it leaves behind. */
  lemma VoteOutcome(c: Scene, signed: set<Vote>, k: Memory, state: Stage, p: NodeId, stage: string, b: Ballots, next: Stage)
    returns (k': Memory)
    requires SceneOk(c) && p in c.u.ids && StageOk(stage, state)
    requires Orderly(c.u, c.v, k) && Lively(k.b) && |T(k, p)| < 3 && Tidy(k, p)
    requires Sent(c.u, c.rs, signed, NextBallot(c.u, c.v, k, p, stage).m)
    requires var ballot := NextBallot(c.u, c.v, k, p, stage);
             CountVote(k.b, Quorum(|c.u.ids|), ballot.m, ballot.mh, ballot.rk, 0) == (b, next)
    ensures Hop(c.u, c.rs, signed, Tracking(c.u, k), Tracking(c.u, k'), Permits(NextBallot(c.u, c.v, k, p, stage), next, b))
    ensures k'.b == b && Orderly(c.u, c.v, k') && |T(k', p)| == |T(k, p)| + 1 && forall q :: q != p ==> T(k', q) == T(k, q)
    ensures Tidy(k', p) && Last(k', p) == NextBallot(c.u, c.v, k, p, stage).mh
  {
    var ballot := NextBallot(c.u, c.v, k, p, stage);
    NextDeliverable(c, signed, k, state, p, stage);
    DeliverHop(c.u, c.rs, signed, k, ballot, b, next);
    k' := Next1(k, ballot.m, ballot.mh, b);
    StageBarFree(stage, state);
    OrderlyNext(c.u, c.v, k, p, stage, b);
    assert Tidy(k', p);
    NextLast(k, ballot.m, ballot.mh, b);
  }

  /** The next vote of p: how it is counted, and that it can be delivered once sent. */
  lemma PlanVote(c: Scene, signed: set<Vote>, k: Memory, state: Stage, w: Tally, p: NodeId, stage: string)
    returns (k': Memory, next: Stage, more: set<Permit>)
    requires SceneOk(c) && Orderly(c.u, c.v, k) && At(k.b, Rk(c.v), state, w) && Due(c, k, state, w, p, stage) && Tidy(k, p)
    requires Sent(c.u, c.rs, signed, NextBallot(c.u, c.v, k, p, stage).m)
    ensures Hop(c.u, c.rs, signed, Tracking(c.u, k), Tracking(c.u, k'), more)
    ensures Grants(more, c.v, next) && Led(more, c.v, c.proposal.signer)
    ensures var w' := w[stage := Of(w, stage) + {p}];
            next == Moved(state, w', stage, Quorum(|c.u.ids|)) && At(k'.b, Rk(c.v), if next == Idle then state else next, w')
    ensures Orderly(c.u, c.v, k') && |T(k', p)| == |T(k, p)| + 1 && forall q :: q != p ==> T(k', q) == T(k, q)
    ensures Tidy(k', p) && Last(k', p) == NextBallot(c.u, c.v, k, p, stage).mh
  {
    var ballot := NextBallot(c.u, c.v, k, p, stage);
    var b;
    b, next := CastCounts(c, k, state, w, p, stage, ballot);
    k' := VoteOutcome(c, signed, k, state, p, stage, b, next);
    more := Permits(ballot, next, b);
    PermitsGrant(c, k, p, stage, next, b, state, w);
  }

  /** Nothing else was proposed, no other proposal counted, and a proposer who is no receiver voted for its own round only. */
  ghost predicate Only(c: Scene, net: Net) {
    && (forall p :: p in net.nodes ==> Led(net.nodes[p].permits, c.v, c.proposal.signer))
    && (forall vote :: vote in net.signed && vote.stage == "PRE_PREPARE" ==> vote == c.proposal)
    && (c.proposal.signer !in c.rs ==>
          forall vote :: vote in net.signed && vote.signer == c.proposal.signer ==> vote.rk == c.proposal.rk)
  }

  lemma OnlyStill(c: Scene, net: Net, net': Net, ps: set<NodeId>, more: set<Permit>)
    requires Only(c, net) && Permitted(net, net', ps, more) && net'.signed == net.signed && Led(more, c.v, c.proposal.signer)
    ensures Only(c, net')
  {
    forall q | q in net'.nodes ensures Led(net'.nodes[q].permits, c.v, c.proposal.signer) {
      assert Led(net.nodes[q].permits, c.v, c.proposal.signer);
      forall t | t in net'.nodes[q].permits ensures t in net.nodes[q].permits || t in more {}
    }
  }

  /** All receivers are at the same point of the round. */
  ghost predicate Together(c: Scene, net: Net, k: Memory, state: Stage, w: Tally) {
    && SceneOk(c) && net.nodes.Keys == Honest(c.u) && AllAt(net, c.rs, Tracking(c.u, k))
    && Orderly(c.u, c.v, k) && At(k.b, Rk(c.v), state, w) && Only(c, net)
  }

  /** All receivers may sign the stage that follows. */
  ghost predicate MayFollow(c: Scene, net: Net, next: Stage) {
    forall p :: p in c.rs && p in net.nodes ==> Grants(net.nodes[p].permits, c.v, next)
  }

  ghost predicate Keeps(net: Net, net': Net) {
    net'.nodes.Keys == net.nodes.Keys && forall p :: p in net.nodes ==> net.nodes[p].permits <= net'.nodes[p].permits
  }

  lemma GrantsGrow(more: set<Permit>, all: set<Permit>, v: Topic, next: Stage)
    requires Grants(more, v, next) && more <= all
    ensures Grants(all, v, next)
  {
  }

  /** A vote that was sent, delivered to all receivers. */
  lemma SpreadAll(c: Scene, net: Net, before: State -> bool, after: State -> bool, more: set<Permit>, next: Stage)
    returns (net': Net)
    requires c.rs <= net.nodes.Keys && AllAt(net, c.rs, before) && Hop(c.u, c.rs, net.signed, before, after, more)
    requires Only(c, net) && Grants(more, c.v, next) && Led(more, c.v, c.proposal.signer)
    ensures Runs(c.u, net, net') && Keeps(net, net') && MayFollow(c, net', next) && AllAt(net', c.rs, after) && Only(c, net')
    ensures net'.signed == net.signed
  {
    net' := HopEverywhere(c.u, c.rs, net, before, after, more);
    OnlyStill(c, net, net', c.rs, more);
    forall q | q in c.rs && q in net'.nodes ensures Grants(net'.nodes[q].permits, c.v, next) {
      GrantsGrow(more, net'.nodes[q].permits, c.v, next);
    }
  }

  /** The vote was sent and is now counted by all receivers. */
  lemma CountAll(c: Scene, net: Net, k: Memory, state: Stage, w: Tally, p: NodeId, stage: string)
    returns (net': Net, k': Memory, next: Stage)
    requires Together(c, net, k, state, w) && Due(c, k, state, w, p, stage) && Tidy(k, p)
    requires Sent(c.u, c.rs, net.signed, NextBallot(c.u, c.v, k, p, stage).m)
    ensures var w' := w[stage := Of(w, stage) + {p}];
            && next == Moved(state, w', stage, Quorum(|c.u.ids|))
            && Together(c, net', k', if next == Idle then state else next, w')
    ensures MayFollow(c, net', next) && Runs(c.u, net, net') && Keeps(net, net') && net'.signed == net.signed
    ensures |T(k', p)| == |T(k, p)| + 1 && forall q :: q != p ==> T(k', q) == T(k, q)
    ensures Tidy(k', p) && Last(k', p) == NextBallot(c.u, c.v, k, p, stage).mh
  {
    var more;
    k', next, more := PlanVote(c, net.signed, k, state, w, p, stage);
    net' := SpreadAll(c, net, Tracking(c.u, k), Tracking(c.u, k'), more, next);
  }

  /** Receivers vote with their permits, faulty nodes as they like. */
  ghost predicate Voter(c: Scene, net: Net, p: NodeId, stage: string) {
    && p in c.u.ids && (p in Honest(c.u) ==> p in c.rs) && (stage == "PREPARE" || stage == "COMMIT")
    && (p in c.rs && p in net.nodes ==> MaySign(net.nodes[p].permits, stage, c.v.evidence, c.v.target))
  }

  lemma NextVoteText(u: Setup, v: Topic, k: Memory, p: NodeId, stage: string)
    requires Tidy(k, p) && BarFree(stage)
    ensures var vote, m := NextVote(v, k, p, stage), NextBallot(u, v, k, p, stage).m;
            SignedText(vote) && SameText(m, vote) && VoteBlob(vote) == Blob(m) && m.signature == Signed(KeyOf(u, p), Blob(m))
  {
    LastFree(k, p);
  }

  lemma SendReceiver(c: Scene, net: Net, k: Memory, p: NodeId, vote: Vote) returns (mid: Net)
    requires p in c.rs && p in net.nodes && Tracks(c.u, net.nodes[p].pbft, k) && Only(c, net)
    requires vote.signer == p && MaySend(net.nodes[p].permits, vote) && vote.stage != "PRE_PREPARE"
    ensures Runs(c.u, net, mid) && mid.nodes == net.nodes && Only(c, mid) && vote in mid.signed
  {
    TracksMember(c.u, net.nodes[p].pbft, k);
    mid := BroadcastTracked(c.u, net, p, vote);
  }

  lemma SendOne(c: Scene, net: Net, k: Memory, p: NodeId, stage: string) returns (mid: Net)
    requires SceneOk(c) && net.nodes.Keys == Honest(c.u) && AllAt(net, c.rs, Tracking(c.u, k)) && Only(c, net)
    requires Voter(c, net, p, stage) && Tidy(k, p)
    ensures Runs(c.u, net, mid) && mid.nodes == net.nodes && Only(c, mid)
    ensures Sent(c.u, c.rs, mid.signed, NextBallot(c.u, c.v, k, p, stage).m)
  {
    var vote := NextVote(c.v, k, p, stage);
    assert BarFree(stage);
    NextVoteText(c.u, c.v, k, p, stage);
    if p in c.rs {
      assert Tracking(c.u, k)(net.nodes[p].pbft);
      mid := SendReceiver(c, net, k, p, vote);
    } else {
      mid := net;
      RunsStay(c.u, net);
    }
    SentFor(c.u, c.rs, mid.signed, NextBallot(c.u, c.v, k, p, stage).m, vote);
  }

  /** One vote cast and counted by all receivers. */
  lemma CastAll(c: Scene, net: Net, k: Memory, state: Stage, w: Tally, p: NodeId, stage: string)
    returns (net': Net, k': Memory, next: Stage)
    requires Together(c, net, k, state, w) && Due(c, k, state, w, p, stage) && Voter(c, net, p, stage)
    ensures var w' := w[stage := Of(w, stage) + {p}];
            && next == Moved(state, w', stage, Quorum(|c.u.ids|))
            && Together(c, net', k', if next == Idle then state else next, w')
    ensures MayFollow(c, net', next) && Runs(c.u, net, net') && Keeps(net, net')
    ensures |T(k', p)| == |T(k, p)| + 1 && forall q :: q != p ==> T(k', q) == T(k, q)
  {
    assert Tidy(k, p);
    var mid := SendOne(c, net, k, p, stage);
    assert Together(c, mid, k, state, w);
    net', k', next := CountAll(c, mid, k, state, w, p, stage);
    RunsOn(c.u, net, mid, net');
  }

  // ---------------------------------------------------------------- the round in outline

  /** Where the receivers are: the round, the votes of each id, and what they may sign. */
  datatype Point = Point(state: Stage, w: Tally, turns: map<NodeId, nat>, mayPrepare: bool, mayCommit: bool)

  function Turn(a: Point, p: NodeId): nat { if p in a.turns then a.turns[p] else 0 }

  ghost predicate Reflects(c: Scene, net: Net, a: Point, k: Memory) {
    Together(c, net, k, a.state, a.w) && (forall p :: |T(k, p)| == Turn(a, p)) && May(c, net, a)
  }

  ghost predicate Is(c: Scene, net: Net, a: Point) {
    exists k :: Reflects(c, net, a, k)
  }

  predicate MayVote(a: Point, stage: string) {
    (stage == "PREPARE" && a.mayPrepare) || (stage == "COMMIT" && a.mayCommit)
  }

  /** Somebody can vote next. */
  ghost predicate CanVote(c: Scene, a: Point, p: NodeId, stage: string) {
    && p in c.u.ids && (p in Honest(c.u) ==> p in c.rs) && Turn(a, p) < 3 && p !in Of(a.w, stage) && MayVote(a, stage)
    && (stage == "COMMIT" && |Of(a.w, stage) + {p}| >= Quorum(|c.u.ids|) ==> Of(a.w, stage) + {p} <= Of(a.w, "PREPARE"))
    && (stage == "PREPARE" ==> c.proposal.signer in Of(a.w, stage) + {p})
  }

  function AfterVote(quorum: int, a: Point, p: NodeId, stage: string): Point {
    var w := a.w[stage := Of(a.w, stage) + {p}];
    var next := Moved(a.state, w, stage, quorum);
    Point(if next == Idle then a.state else next, w, a.turns[p := Turn(a, p) + 1],
          a.mayPrepare || next == Prepare, a.mayCommit || next == Commit)
  }

  lemma MayFollowKept(c: Scene, net: Net, net': Net, next: Stage)
    requires MayFollow(c, net, next) && Keeps(net, net')
    ensures MayFollow(c, net', next)
  {
    forall p | p in c.rs && p in net'.nodes ensures Grants(net'.nodes[p].permits, c.v, next) {
      assert Grants(net.nodes[p].permits, c.v, next);
      GrantsGrow(net.nodes[p].permits, net'.nodes[p].permits, c.v, next);
    }
  }

  lemma DueFrom(c: Scene, net: Net, a: Point, k: Memory, p: NodeId, stage: string)
    requires Reflects(c, net, a, k) && CanVote(c, a, p, stage)
    ensures Due(c, k, a.state, a.w, p, stage) && Voter(c, net, p, stage)
  {
    assert |T(k, p)| == Turn(a, p);
    assert stage == "PREPARE" && p in c.rs && p in net.nodes ==> Grants(net.nodes[p].permits, c.v, Prepare);
    assert stage == "COMMIT" && p in c.rs && p in net.nodes ==> Grants(net.nodes[p].permits, c.v, Commit);
  }

  /** What the receivers may sign. */
  ghost predicate May(c: Scene, net: Net, a: Point) {
    (a.mayPrepare ==> MayFollow(c, net, Prepare)) && (a.mayCommit ==> MayFollow(c, net, Commit))
  }

  lemma MayStill(c: Scene, net: Net, net': Net, a: Point)
    requires May(c, net, a) && Keeps(net, net')
    ensures May(c, net', a)
  {
    if a.mayPrepare { MayFollowKept(c, net, net', Prepare); }
    if a.mayCommit { MayFollowKept(c, net, net', Commit); }
  }

  lemma ReflectedBy(c: Scene, net: Net, a: Point, k: Memory, k': Memory, p: NodeId, stage: string, next: Stage)
    requires forall q :: |T(k, q)| == Turn(a, q)
    requires |T(k', p)| == |T(k, p)| + 1 && forall q :: q != p ==> T(k', q) == T(k, q)
    requires May(c, net, a) && MayFollow(c, net, next)
    requires var w := a.w[stage := Of(a.w, stage) + {p}];
             && next == Moved(a.state, w, stage, Quorum(|c.u.ids|))
             && Together(c, net, k', if next == Idle then a.state else next, w)
    ensures Reflects(c, net, AfterVote(Quorum(|c.u.ids|), a, p, stage), k')
  {
    var a' := AfterVote(Quorum(|c.u.ids|), a, p, stage);
    forall q ensures |T(k', q)| == Turn(a', q) {
      assert |T(k, q)| == Turn(a, q);
    }
  }

  /** Every vote of the outline can be cast in the network. */
  lemma OutlineStep(c: Scene, net: Net, a: Point, p: NodeId, stage: string) returns (net': Net)
    requires Is(c, net, a) && CanVote(c, a, p, stage)
    ensures Runs(c.u, net, net') && Is(c, net', AfterVote(Quorum(|c.u.ids|), a, p, stage))
  {
    var k :| Reflects(c, net, a, k);
    DueFrom(c, net, a, k, p, stage);
    var k', next;
    net', k', next := CastAll(c, net, k, a.state, a.w, p, stage);
    MayStill(c, net, net', a);
    ReflectedBy(c, net', a, k, k', p, stage, next);
  }

  ghost predicate OutlineTo(c: Scene, a: Point, vote: (NodeId, string), a': Point) {
    CanVote(c, a, vote.0, vote.1) && a' == AfterVote(Quorum(|c.u.ids|), a, vote.0, vote.1)
  }

  ghost function Outline(c: Scene): (Point, (NodeId, string), Point) -> bool {
    (a, vote, a') => OutlineTo(c, a, vote, a')
  }

  ghost predicate Gets(c: Scene, net: Net, a: Point) {
    exists net' :: Runs(c.u, net, net') && Is(c, net', a)
  }

  lemma GetsNext(c: Scene, net: Net, a: Point, vote: (NodeId, string), a': Point)
    requires Gets(c, net, a) && OutlineTo(c, a, vote, a')
    ensures Gets(c, net, a')
  {
    var mid :| Runs(c.u, net, mid) && Is(c, mid, a);
    var last := OutlineStep(c, mid, a, vote.0, vote.1);
    RunsOn(c.u, net, mid, last);
  }

  /** So a run of the outline is a run of the network. */
  lemma OutlineRuns(c: Scene, net: Net, a: Point, votes: seq<(NodeId, string)>, a': Point)
    requires Gets(c, net, a) && Path(Outline(c), a, votes, a')
    ensures Gets(c, net, a')
  {
    var step, inv := Outline(c), (x: Point) => Gets(c, net, x);
    forall x, vote, y | inv(x) && step(x, vote, y) ensures inv(y) {
      GetsNext(c, net, x, vote, y);
    }
    PathKeeps(step, inv, a, votes, a');
  }

  // ---------------------------------------------------------------- two phases of the outline

  lemma {:induction false} Part(s: set<NodeId>, n: nat) returns (t: set<NodeId>)
    requires n <= |s|
    ensures t <= s && |t| == n
    decreases |s|
  {
    if |s| == n {
      t := s;
    } else {
      assert s != {};
      var x :| x in s;
      t := Part(s - {x}, n);
    }
  }

  /** The stage of a round that is voted on, before and after the quorum. */
  function Standing(stage: string, voted: set<NodeId>, quorum: int): Stage {
    if stage == "PREPARE" then (if |voted| >= quorum then Commit else Prepare)
    else if |voted| >= quorum then Executed else Commit
  }

  ghost predicate Turns(a: Point, ps: set<NodeId>, todo: set<NodeId>, most: nat) {
    (forall p :: p in todo ==> Turn(a, p) <= most) && (forall p :: p in ps ==> Turn(a, p) <= most + 1)
  }

  lemma TurnsNext(quorum: int, a: Point, ps: set<NodeId>, todo: set<NodeId>, most: nat, p: NodeId, stage: string)
    requires Turns(a, ps, todo, most) && p in todo
    ensures Turns(AfterVote(quorum, a, p, stage), ps, todo - {p}, most)
  {
    var a' := AfterVote(quorum, a, p, stage);
    forall q ensures Turn(a', q) == Turn(a, q) + if q == p then 1 else 0 {}
  }

  lemma OthersKept(quorum: int, a: Point, p: NodeId, stage: string, other: string)
    requires other != stage
    ensures Of(AfterVote(quorum, a, p, stage).w, other) == Of(a.w, other)
  {
  }

  /** Receivers and faulty nodes. */
  ghost predicate Electors(c: Scene, ps: set<NodeId>) {
    ps <= c.u.ids && ps * Honest(c.u) <= c.rs
  }

  /** In the middle of a phase: all of `ps` but `todo` have voted, and the proposer has prepared. */
  ghost predicate Phase(c: Scene, a: Point, ps: set<NodeId>, todo: set<NodeId>, stage: string, most: nat) {
    && Electors(c, todo) && todo <= ps && most < 3
    && (stage == "PREPARE" || stage == "COMMIT") && MayVote(a, stage)
    && a.state == Standing(stage, ps - todo, Quorum(|c.u.ids|)) && Of(a.w, stage) == ps - todo
    && (if stage == "COMMIT" then ps <= Of(a.w, "PREPARE") else c.proposal.signer in ps - todo)
    && Turns(a, ps, todo, most)
    && (stage == "PREPARE" && |ps - todo| >= Quorum(|c.u.ids|) ==> a.mayCommit)
  }

  lemma PhaseCan(c: Scene, a: Point, ps: set<NodeId>, todo: set<NodeId>, stage: string, most: nat, p: NodeId)
    requires Phase(c, a, ps, todo, stage, most) && p in todo
    ensures CanVote(c, a, p, stage)
  {
    assert p in Honest(c.u) ==> p in todo * Honest(c.u);
  }

  lemma PhaseMoves(c: Scene, a: Point, ps: set<NodeId>, todo: set<NodeId>, stage: string, most: nat, p: NodeId)
    requires Phase(c, a, ps, todo, stage, most) && p in todo
    ensures var a' := AfterVote(Quorum(|c.u.ids|), a, p, stage);
            && Of(a'.w, stage) == ps - (todo - {p})
            && a'.state == Standing(stage, ps - (todo - {p}), Quorum(|c.u.ids|))
            && (stage == "PREPARE" && |ps - (todo - {p})| >= Quorum(|c.u.ids|) ==> a'.mayCommit)
  {
    var voted, voted' := ps - todo, ps - (todo - {p});
    assert voted + {p} == voted';
    assert |voted'| == |voted| + 1;
  }

  lemma PhaseStep(c: Scene, a: Point, ps: set<NodeId>, todo: set<NodeId>, stage: string, most: nat, p: NodeId)
    requires Phase(c, a, ps, todo, stage, most) && p in todo
    ensures var a' := AfterVote(Quorum(|c.u.ids|), a, p, stage);
            && OutlineTo(c, a, (p, stage), a') && Phase(c, a', ps, todo - {p}, stage, most)
            && forall other :: other != stage ==> Of(a'.w, other) == Of(a.w, other)
  {
    PhaseCan(c, a, ps, todo, stage, most, p);
    PhaseMoves(c, a, ps, todo, stage, most, p);
    TurnsNext(Quorum(|c.u.ids|), a, ps, todo, most, p, stage);
    forall other | other != stage ensures Of(AfterVote(Quorum(|c.u.ids|), a, p, stage).w, other) == Of(a.w, other) {
      OthersKept(Quorum(|c.u.ids|), a, p, stage, other);
    }
  }

  /** A whole phase: everybody votes. */
  lemma {:induction false} PhaseAll(c: Scene, a: Point, ps: set<NodeId>, todo: set<NodeId>, stage: string, most: nat)
    returns (votes: seq<(NodeId, string)>, a': Point)
    requires Phase(c, a, ps, todo, stage, most)
    ensures Path(Outline(c), a, votes, a') && Phase(c, a', ps, {}, stage, most)
    ensures forall other :: other != stage ==> Of(a'.w, other) == Of(a.w, other)
    decreases todo
  {
    if todo == {} {
      votes, a' := [], a;
    } else {
      var p :| p in todo;
      var mid := AfterVote(Quorum(|c.u.ids|), a, p, stage);
      PhaseStep(c, a, ps, todo, stage, most, p);
      var rest;
      rest, a' := PhaseAll(c, mid, ps, todo - {p}, stage, most);
      PathOne(Outline(c), a, (p, stage), mid);
      PathConcat(Outline(c), a, [(p, stage)], mid, rest, a');
      votes := [(p, stage)] + rest;
    }
  }

  const AT_REST: Point := Point(Idle, map[], map[], false, false)

  function Proposed(c: Scene): Point { AfterVote(Quorum(|c.u.ids|), AT_REST, c.proposal.signer, "PRE_PREPARE") }

  /** The proposer's PREPARE vote is the first. */
  function PreparedFirst(c: Scene): Point { AfterVote(Quorum(|c.u.ids|), Proposed(c), c.proposal.signer, "PREPARE") }

  lemma FirstPhase(c: Scene, qs: set<NodeId>)
    requires Electors(c, qs - {c.proposal.signer})
    ensures var a, p := PreparedFirst(c), c.proposal.signer;
            Phase(c, a, qs + {p}, qs - {p}, "PREPARE", 1) && Of(a.w, "COMMIT") == {} && Turn(a, p) == 2
  {
    var a, p := PreparedFirst(c), c.proposal.signer;
    assert (qs + {p}) - (qs - {p}) == {p};
  }

  lemma SecondPhase(c: Scene, a: Point, qs: set<NodeId>)
    requires Phase(c, a, qs + {c.proposal.signer}, {}, "PREPARE", 1) && Of(a.w, "COMMIT") == {}
    requires Electors(c, qs) && |qs| == Quorum(|c.u.ids|)
    ensures Phase(c, a, qs, qs, "COMMIT", 2)
  {
    var ps := qs + {c.proposal.signer};
    SubsetSize(qs, ps);
    assert ps - {} == ps;
    assert qs - qs == {};
  }

  lemma PrepareAll(c: Scene, qs: set<NodeId>) returns (votes: seq<(NodeId, string)>, a: Point)
    requires Electors(c, qs) && |qs| == Quorum(|c.u.ids|)
    ensures Path(Outline(c), PreparedFirst(c), votes, a) && Phase(c, a, qs, qs, "COMMIT", 2)
  {
    var p := c.proposal.signer;
    FirstPhase(c, qs);
    votes, a := PhaseAll(c, PreparedFirst(c), qs + {p}, qs - {p}, "PREPARE", 1);
    SecondPhase(c, a, qs);
  }

  lemma CommitAll(c: Scene, a: Point, qs: set<NodeId>) returns (votes: seq<(NodeId, string)>, a': Point)
    requires Phase(c, a, qs, qs, "COMMIT", 2) && |qs| == Quorum(|c.u.ids|)
    ensures Path(Outline(c), a, votes, a') && a'.state == Executed
  {
    votes, a' := PhaseAll(c, a, qs, qs, "COMMIT", 2);
    assert qs - {} == qs;
  }

  /** From the proposer's votes, a quorum takes the round to EXECUTED. */
  lemma BothPhases(c: Scene, qs: set<NodeId>) returns (votes: seq<(NodeId, string)>, a: Point)
    requires Electors(c, qs) && |qs| == Quorum(|c.u.ids|)
    ensures Path(Outline(c), PreparedFirst(c), votes, a) && a.state == Executed
  {
    var prepares, mid := PrepareAll(c, qs);
    var commits;
    commits, a := CommitAll(c, mid, qs);
    PathConcat(Outline(c), PreparedFirst(c), prepares, mid, commits, a);
    votes := prepares + commits;
  }

  // ---------------------------------------------------------------- the whole run

  function StartState(u: Setup, p: NodeId): State
    requires u.keyOf.Keys == u.ids
  {
    State(p, Some(KeyOf(u, p)), 0, 10, 5,
          Members(|u.ids|, KeysOf(u), map q | q in u.ids :: FRESH_TRUST, u.ids, {}, {}),
          Ballots(map[], map[]), Log(map[], map[], map[], {}))
  }

  const NOTHING: Memory := Memory(Ballots(map[], map[]), map[], {}, map[])

  lemma StartConsistent(u: Setup, p: NodeId)
    requires u.keyOf.Keys == u.ids
    ensures Consistent(StartState(u, p)) && Tracks(u, StartState(u, p), NOTHING)
  {
  }

  ghost function StartNet(u: Setup): Net
    requires u.keyOf.Keys == u.ids
  {
    Net(map p | p in Honest(u) :: Node(StartState(u, p), {}, {}), {})
  }

  lemma StartInitial(u: Setup)
    requires SetupOk(u)
    ensures Initial(u, StartNet(u)) && AllAt(StartNet(u), Honest(u), Tracking(u, NOTHING))
  {
    var net := StartNet(u);
    forall p | p in net.nodes
      ensures Member(u, net.nodes[p].pbft) && Consistent(net.nodes[p].pbft) && Tracking(u, NOTHING)(net.nodes[p].pbft)
    {
      StartConsistent(u, p);
      TracksMember(u, net.nodes[p].pbft, NOTHING);
    }
  }

  lemma NothingYet(u: Setup, v: Topic)
    ensures Orderly(u, v, NOTHING) && At(NOTHING.b, Rk(v), Idle, map[])
  {
  }

  // ---------------------------------------------------------------- the proposer's first two votes

  /** What receivers read of the proposer's first two votes. */
  function Read(c: Scene, stage: string, prev: Str, seqNo: U64): Str {
    SigningBlob(stage, c.v.target, c.v.evidence, seqNo, 0, prev)
  }

  ghost predicate ProposalOk(c: Scene) {
    && c.proposal.signer in Honest(c.u) && c.proposal.stage == "PRE_PREPARE" && SignedText(c.proposal)
    && VoteBlob(c.proposal) == Read(c, "PRE_PREPARE", Genesis(), 1)
    && (c.proposal.signer in c.rs ==> c.proposal == VoteFor(c.v, c.proposal.signer, "PRE_PREPARE", Genesis(), 1))
  }

  /** The hash of the proposal, as receivers compute it. */
  function ProposalHash(c: Scene): Str { Mh(c.u, c.v, c.proposal.signer, "PRE_PREPARE", Genesis(), 1) }

  lemma StartTogether(c: Scene)
    requires SceneOk(c)
    ensures Together(c, StartNet(c.u), NOTHING, Idle, map[]) && Tidy(NOTHING, c.proposal.signer)
  {
    StartInitial(c.u);
    NothingYet(c.u, c.v);
  }

  lemma ProposalSigned(c: Scene) returns (net: Net)
    requires SceneOk(c) && ProposalOk(c)
    ensures Runs(c.u, StartNet(c.u), net) && Only(c, net)
    ensures net.nodes == StartNet(c.u).nodes && net.signed == {c.proposal}
  {
    var p, start := c.proposal.signer, StartNet(c.u);
    StartTogether(c);
    StartInitial(c.u);
    net := BroadcastTracked(c.u, start, p, c.proposal);
  }

  lemma SentProposal(c: Scene, signed: set<Vote>)
    requires SceneOk(c) && ProposalOk(c) && c.proposal in signed
    ensures Tidy(NOTHING, c.proposal.signer)
    ensures Sent(c.u, c.rs, signed, NextBallot(c.u, c.v, NOTHING, c.proposal.signer, "PRE_PREPARE").m)
  {
    var p := c.proposal.signer;
    NextVoteText(c.u, c.v, NOTHING, p, "PRE_PREPARE");
    SentFor(c.u, c.rs, signed, NextBallot(c.u, c.v, NOTHING, p, "PRE_PREPARE").m, c.proposal);
  }

  /** The proposal counted by all receivers. */
  lemma ProposalCounted(c: Scene, net: Net) returns (net': Net, k: Memory)
    requires SceneOk(c) && ProposalOk(c) && Together(c, net, NOTHING, Idle, map[]) && c.proposal in net.signed
    ensures Runs(c.u, net, net') && Reflects(c, net', Proposed(c), k) && net'.signed == net.signed
    ensures Tidy(k, c.proposal.signer) && |T(k, c.proposal.signer)| == 1 && Last(k, c.proposal.signer) == ProposalHash(c)
  {
    var p := c.proposal.signer;
    SentProposal(c, net.signed);
    var next;
    net', k, next := CountAll(c, net, NOTHING, Idle, map[], p, "PRE_PREPARE");
    ReflectedBy(c, net', AT_REST, NOTHING, k, p, "PRE_PREPARE", next);
  }

  lemma FirstDue(c: Scene, net: Net, k: Memory)
    requires SceneOk(c) && ProposalOk(c) && Reflects(c, net, Proposed(c), k)
    ensures Due(c, k, Proposed(c).state, Proposed(c).w, c.proposal.signer, "PREPARE")
  {
    assert |T(k, c.proposal.signer)| == Turn(Proposed(c), c.proposal.signer);
  }

  /** A proposer among the receivers votes as they do. */
  lemma OwnOpening(c: Scene)
    requires SceneOk(c) && ProposalOk(c) && c.proposal.signer in c.rs
    ensures Gets(c, StartNet(c.u), PreparedFirst(c))
  {
    StartTogether(c);
    var mid := ProposalSigned(c);
    var net, k := ProposalCounted(c, mid);
    RunsOn(c.u, StartNet(c.u), mid, net);
    FirstDue(c, net, k);
    assert Is(c, net, Proposed(c));
    var net' := OutlineStep(c, net, Proposed(c), c.proposal.signer, "PREPARE");
    RunsOn(c.u, StartNet(c.u), net, net');
  }

  lemma AllExecuted(c: Scene, net: Net, a: Point, p: NodeId)
    requires Is(c, net, a) && a.state == Executed && p in c.rs
    ensures ExecutedAt(net, p, Rk(c.v))
  {
    var k :| Reflects(c, net, a, k);
    assert Tracking(c.u, k)(net.nodes[p].pbft);
  }

  /** Once its proposer has prepared, a proposal is executed by all receivers, and nothing else is proposed on the way. */
  lemma RunToExecuted(c: Scene, qs: set<NodeId>) returns (actions: seq<Action>, net: Net)
    requires SceneOk(c) && Gets(c, StartNet(c.u), PreparedFirst(c)) && Electors(c, qs) && |qs| == Quorum(|c.u.ids|)
    ensures Initial(c.u, StartNet(c.u)) && Reaches(c.u, StartNet(c.u), actions, net) && Only(c, net)
    ensures forall p :: p in c.rs ==> ExecutedAt(net, p, Rk(c.v))
  {
    StartInitial(c.u);
    var votes, a := BothPhases(c, qs);
    OutlineRuns(c, StartNet(c.u), PreparedFirst(c), votes, a);
    net :| Runs(c.u, StartNet(c.u), net) && Is(c, net, a);
    actions :| Reaches(c.u, StartNet(c.u), actions, net);
    forall p | p in c.rs ensures ExecutedAt(net, p, Rk(c.v)) {
      AllExecuted(c, net, a, p);
    }
  }

  lemma EnoughHonest(u: Setup) returns (qs: set<NodeId>)
    requires SetupOk(u)
    ensures qs <= Honest(u) && |qs| == Quorum(|u.ids|)
  {
    var hs := Honest(u);
    assert u.ids == hs + u.faulty;
    MinusSize(u.ids, u.faulty);
    qs := Part(hs, Quorum(|u.ids|));
  }

  lemma HonestScene(u: Setup, v: Topic, p: NodeId) returns (c: Scene)
    requires SetupOk(u) && IdsOk(u) && Receivable(v.target, v.evidence) && p in Honest(u)
    ensures c == Scene(u, v, Honest(u), VoteFor(v, p, "PRE_PREPARE", Genesis(), 1))
    ensures SceneOk(c) && ProposalOk(c)
  {
    c := Scene(u, v, Honest(u), VoteFor(v, p, "PRE_PREPARE", Genesis(), 1));
  }

  /**
   For every setup with at most f faulty nodes and ids that a VOTE can carry, and for every evidence and
   target that a receiver accepts, some run takes the round to EXECUTED at every honest node.
   */
  lemma ExecutionHappens(u: Setup, v: Topic) returns (start: Net, actions: seq<Action>, net: Net)
    requires SetupOk(u) && IdsOk(u) && Receivable(v.target, v.evidence)
    ensures Initial(u, start) && Reaches(u, start, actions, net) && ProposalsRead(net.signed)
    ensures forall p :: p in Honest(u) ==> ExecutedAt(net, p, RoundKey(v.evidence, v.target))
  {
    var qs := EnoughHonest(u);
    assert qs != {};
    var p :| p in qs;
    var c := HonestScene(u, v, p);
    start := StartNet(u);
    OwnOpening(c);
    actions, net := RunToExecuted(c, qs);
    BarFreeRead(v.target);
  }
}
