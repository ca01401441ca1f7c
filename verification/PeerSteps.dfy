/** The same trust with every locked method of the peer manager as a step of its own, however handlers interleave. */
module PeerSteps {
  import opened Wrappers
  import opened PeerTrust

  datatype Locked =
    | AddStep(id: string, key: string, contact: Contact, now: int)
    | ConfirmStep(id: string, path: Path, key: string)
    | HeartbeatStep(id: string, key: string, contact: Contact, now: int)
    | UnpinStep(id: string)
    | RemoveStep(id: string)

  function Do(peers: Peers, provisioned: Keys, a: Locked): Peers {
    match a
    case AddStep(id, key, contact, now) => if id in peers then peers else peers[id := NewEntry(contact, key, now)]
    case ConfirmStep(id, path, key) =>
      if id in peers then peers[id := Confirmed(peers[id], At(provisioned, id), path, key)] else peers
    case HeartbeatStep(id, key, contact, now) =>
      if id in peers then peers[id := Heard(peers[id], contact, key, now)] else peers
    case UnpinStep(id) => if id in peers then peers[id := Unpinned(peers[id])] else peers
    case RemoveStep(id) => peers - {id}
  }

  function RunSteps(peers: Peers, provisioned: Keys, steps: seq<Locked>): Peers {
    if steps == [] then peers
    else Do(RunSteps(peers, provisioned, steps[..|steps| - 1]), provisioned, steps[|steps| - 1])
  }

  function Reached(provisioned: Keys, steps: seq<Locked>): Peers { RunSteps(map[], provisioned, steps) }

  /** What confirm_path answers. */
  function Answer(peers: Peers, provisioned: Keys, a: Locked): Confirmation
    requires a.ConfirmStep?
  {
    if a.id in peers then ConfirmResult(peers[a.id], At(provisioned, a.id), a.path, a.key) else Confirmation(false, false)
  }

  /** A peer learnt by exchange is added without a key; everything else comes with one. */
  ghost predicate StepsKeyed(steps: seq<Locked>) {
    forall a :: a in steps && (a.ConfirmStep? || a.HeartbeatStep?) ==> a.key != ""
  }

  /** Whether there is an entry, told from the steps. */
  predicate Known(steps: seq<Locked>, id: string) {
    steps != [] &&
    var a := steps[|steps| - 1];
    if a.id == id && a.AddStep? then true
    else if a.id == id && a.RemoveStep? then false
    else Known(steps[..|steps| - 1], id)
  }

  /** The keys a path has confirmed since the entry was created, told from the steps. */
  function ConfirmedWith(steps: seq<Locked>, id: string, path: Path): set<string> {
    if steps == [] then {}
    else
      var front, a := steps[..|steps| - 1], steps[|steps| - 1];
      if a == RemoveStep(id) then {}
      else if a.ConfirmStep? && a.id == id && a.path == path && Known(front, id)
      then ConfirmedWith(front, id, path) + {a.key}
      else ConfirmedWith(front, id, path)
  }

  /**
   What keeps a step from spoiling an entry without a provisioned key: a confirmation that finds no confirmed path
   finds no other key; an unpin does not come between the two confirmations; and a heartbeat that gives an entry
   its key back, after an unpin, brings one that the confirmed paths had confirmed.
   */
  ghost predicate Guarded(peers: Peers, provisioned: Keys, steps: seq<Locked>, a: Locked) {
    a.id in peers && a.id !in provisioned ==>
      var e := peers[a.id];
      match a
      case ConfirmStep(_, _, key) => e.paths == {} ==> e.key == "" || e.key == key
      case UnpinStep(_) => e.paths == {} || Dual(e.paths)
      case HeartbeatStep(id, key, _, _) => e.key == "" ==> forall p :: p in e.paths ==> key in ConfirmedWith(steps, id, p)
      case _ => true
  }

  ghost predicate GuardedRun(provisioned: Keys, steps: seq<Locked>) {
    steps == [] ||
    (GuardedRun(provisioned, steps[..|steps| - 1]) &&
     Guarded(Reached(provisioned, steps[..|steps| - 1]), provisioned, steps[..|steps| - 1], steps[|steps| - 1]))
  }

  ghost predicate StepBacked(e: PeerEntry, expected: Option<string>, steps: seq<Locked>, id: string) {
    || Stuck(e, expected)
    || (&& (expected.None? && e.paths != {} ==> e.key != "")
        && forall p :: p in e.paths ==> Witness(e, expected) in ConfirmedWith(steps, id, p))
  }

  ghost predicate AllBacked(peers: Peers, provisioned: Keys, steps: seq<Locked>) {
    forall id :: (id in peers <==> Known(steps, id)) && (id in peers ==> StepBacked(peers[id], At(provisioned, id), steps, id))
  }

  lemma {:induction false} TellSnoc(steps: seq<Locked>, a: Locked, id: string, path: Path)
    ensures Known(steps + [a], id) ==
              if a.id == id && a.AddStep? then true else if a.id == id && a.RemoveStep? then false else Known(steps, id)
    ensures var before := ConfirmedWith(steps, id, path);
            ConfirmedWith(steps + [a], id, path) ==
              if a == RemoveStep(id) then {}
              else if a.ConfirmStep? && a.id == id && a.path == path && Known(steps, id) then before + {a.key}
              else before
  {
    assert (steps + [a])[..|steps|] == steps;
  }

  /** A confirmation of a backed entry, when guarded: still backed, and a dual answer names the key both paths confirmed. */
  lemma ConfirmBacked(peers: Peers, provisioned: Keys, steps: seq<Locked>, a: Locked)
    requires a.ConfirmStep? && a.key != "" && a.id in peers && Guarded(peers, provisioned, steps, a)
    requires AllBacked(peers, provisioned, steps)
    ensures var e, expected := Do(peers, provisioned, a)[a.id], At(provisioned, a.id);
            && StepBacked(e, expected, steps + [a], a.id)
            && (Answer(peers, provisioned, a).dual ==>
                  Dual(e.paths) && !Stuck(e, expected) && a.key == Witness(e, expected))
  {
    var id, expected := a.id, At(provisioned, a.id);
    var e, e' := peers[id], Do(peers, provisioned, a)[id];
    TellSnoc(steps, a, id, Beacon);
    TellSnoc(steps, a, id, Announce);
    assert StepBacked(e, expected, steps, id) && Known(steps, id);
    if !Refused(e, expected, a.path, a.key) {
      assert e'.paths == e.paths + {a.path};
      assert Witness(e', expected) == a.key;
      forall p | p in e'.paths ensures a.key in ConfirmedWith(steps + [a], id, p) {
        if p != a.path { assert p in e.paths && Witness(e, expected) == a.key; }
      }
    }
  }

  lemma HeartbeatBacked(e: PeerEntry, expected: Option<string>, steps: seq<Locked>, a: Locked)
    requires a.HeartbeatStep? && a.key != "" && StepBacked(e, expected, steps, a.id)
    requires expected.None? && e.key == "" ==> forall p :: p in e.paths ==> a.key in ConfirmedWith(steps, a.id, p)
    ensures StepBacked(Heard(e, a.contact, a.key, a.now), expected, steps + [a], a.id)
  {
    TellSnoc(steps, a, a.id, Beacon);
    TellSnoc(steps, a, a.id, Announce);
  }

  lemma UnpinBacked(e: PeerEntry, expected: Option<string>, steps: seq<Locked>, a: Locked)
    requires a.UnpinStep? && StepBacked(e, expected, steps, a.id)
    requires expected.None? ==> e.paths == {} || Dual(e.paths)
    ensures StepBacked(Unpinned(e), expected, steps + [a], a.id)
  {
    TellSnoc(steps, a, a.id, Beacon);
    TellSnoc(steps, a, a.id, Announce);
  }

  lemma DoBacked(peers: Peers, provisioned: Keys, steps: seq<Locked>, a: Locked)
    requires (a.ConfirmStep? || a.HeartbeatStep? ==> a.key != "") && Guarded(peers, provisioned, steps, a)
    requires AllBacked(peers, provisioned, steps)
    ensures AllBacked(Do(peers, provisioned, a), provisioned, steps + [a])
  {
    var peers' := Do(peers, provisioned, a);
    forall id ensures (id in peers' <==> Known(steps + [a], id))
      && (id in peers' ==> StepBacked(peers'[id], At(provisioned, id), steps + [a], id))
    {
      TellSnoc(steps, a, id, Beacon);
      TellSnoc(steps, a, id, Announce);
      assert id in peers ==> StepBacked(peers[id], At(provisioned, id), steps, id);
      if a.id == id && id in peers {
        match a
        case ConfirmStep(_, _, _) => ConfirmBacked(peers, provisioned, steps, a);
        case HeartbeatStep(_, _, _, _) => HeartbeatBacked(peers[id], At(provisioned, id), steps, a);
        case UnpinStep(_) => UnpinBacked(peers[id], At(provisioned, id), steps, a);
        case _ =>
      }
    }
  }

  /** In every state that guarded steps reach, each confirmed path confirmed the key that stands behind the entry. */
  lemma {:induction false} StepsBacked(provisioned: Keys, steps: seq<Locked>)
    requires StepsKeyed(steps) && GuardedRun(provisioned, steps)
    ensures AllBacked(Reached(provisioned, steps), provisioned, steps)
  {
    if steps != [] {
      var front, a := steps[..|steps| - 1], steps[|steps| - 1];
      StepsBacked(provisioned, front);
      assert front + [a] == steps && a in steps;
      DoBacked(Reached(provisioned, front), provisioned, front, a);
    }
  }

  /** Both paths confirmed the key since the entry was created. */
  ghost predicate ConfirmedByBoth(steps: seq<Locked>, id: string, key: string) {
    key in ConfirmedWith(steps, id, Beacon) && key in ConfirmedWith(steps, id, Announce)
  }

  /**
   However the handlers interleave, as long as all steps are guarded, a dual answer means that both paths
   confirmed that key since the entry was created.
   */
  lemma {:induction false} InterleavedDualSound(provisioned: Keys, steps: seq<Locked>, a: Locked)
    requires StepsKeyed(steps) && GuardedRun(provisioned, steps) && a.ConfirmStep? && a.key != ""
    requires Answer(Reached(provisioned, steps), provisioned, a).dual
    ensures ConfirmedByBoth(steps + [a], a.id, a.key)
    ensures a.id in provisioned ==> a.key == provisioned[a.id]
  {
    StepsBacked(provisioned, steps);
    var e := Reached(provisioned, steps)[a.id];
    assert Dual(e.paths + {a.path});
    assert e.paths != {};
    ConfirmBacked(Reached(provisioned, steps), provisioned, steps, a);
  }

  // ---------------------------------------------------------------- and only as long

  ghost predicate Untouched(peers: Peers, provisioned: Keys, steps: seq<Locked>) {
    forall id, path :: id in peers && id !in provisioned && peers[id].paths == {} ==> ConfirmedWith(steps, id, path) == {}
  }

  lemma DoUntouched(peers: Peers, provisioned: Keys, steps: seq<Locked>, a: Locked)
    requires a.ConfirmStep? ==> a.key != ""
    requires Untouched(peers, provisioned, steps) && forall id :: id in peers <==> Known(steps, id)
    requires forall id, path :: !Known(steps, id) ==> ConfirmedWith(steps, id, path) == {}
    ensures Untouched(Do(peers, provisioned, a), provisioned, steps + [a])
    ensures forall id :: id in Do(peers, provisioned, a) <==> Known(steps + [a], id)
    ensures forall id, path :: !Known(steps + [a], id) ==> ConfirmedWith(steps + [a], id, path) == {}
  {
    forall id, path
      ensures id in Do(peers, provisioned, a) <==> Known(steps + [a], id)
      ensures !Known(steps + [a], id) ==> ConfirmedWith(steps + [a], id, path) == {}
      ensures id in Do(peers, provisioned, a) && id !in provisioned && Do(peers, provisioned, a)[id].paths == {} ==>
                ConfirmedWith(steps + [a], id, path) == {}
    {
      TellSnoc(steps, a, id, path);
    }
  }

  /** An entry without a confirmed path has seen no confirmation. */
  lemma {:induction false} NoPathNoConfirmation(provisioned: Keys, steps: seq<Locked>)
    requires StepsKeyed(steps)
    ensures Untouched(Reached(provisioned, steps), provisioned, steps)
    ensures forall id :: id in Reached(provisioned, steps) <==> Known(steps, id)
    ensures forall id, path :: !Known(steps, id) ==> ConfirmedWith(steps, id, path) == {}
  {
    if steps != [] {
      var front, a := steps[..|steps| - 1], steps[|steps| - 1];
      NoPathNoConfirmation(provisioned, front);
      assert front + [a] == steps && a in steps;
      DoUntouched(Reached(provisioned, front), provisioned, front, a);
    }
  }

  /** After the step `first`, every dual answer about its peer is for a key that both paths confirmed. */
  ghost predicate NextSound(provisioned: Keys, steps: seq<Locked>, first: Locked) {
    forall path, key :: key != "" && NextAnswer(provisioned, steps, first, path, key).dual ==>
      ConfirmedByBoth(steps + [first] + [ConfirmStep(first.id, path, key)], first.id, key)
  }

  function NextAnswer(provisioned: Keys, steps: seq<Locked>, first: Locked, path: Path, key: string): Confirmation {
    Answer(Do(Reached(provisioned, steps), provisioned, first), provisioned, ConfirmStep(first.id, path, key))
  }

  /** The answer is dual, and the path before it never confirmed the key. */
  ghost predicate Unsound(provisioned: Keys, steps: seq<Locked>, first: Locked, path: Path, key: string) {
    && key != "" && NextAnswer(provisioned, steps, first, path, key) == Confirmation(true, false)
    && key !in ConfirmedWith(steps + [first] + [ConfirmStep(first.id, path, key)], first.id, Other(path))
  }

  /** A first confirmation that finds another key makes that key dual-confirmed by the other path alone. */
  lemma {:induction false} UnguardedConfirm(provisioned: Keys, steps: seq<Locked>, first: Locked)
    requires StepsKeyed(steps) && first.ConfirmStep? && first.key != ""
    requires !Guarded(Reached(provisioned, steps), provisioned, steps, first)
    ensures var stored := Reached(provisioned, steps)[first.id].key;
            Unsound(provisioned, steps, first, Other(first.path), stored)
  {
    var stored := Reached(provisioned, steps)[first.id].key;
    var other := ConfirmStep(first.id, Other(first.path), stored);
    NoPathNoConfirmation(provisioned, steps);
    TellSnoc(steps, first, first.id, first.path);
    TellSnoc(steps + [first], other, first.id, first.path);
  }

  /** After an unpin between the confirmations the other path is dual-confirmed with any key whatsoever. */
  lemma {:induction false} UnguardedUnpin(provisioned: Keys, steps: seq<Locked>, id: string, path: Path, key: string)
    requires id in Reached(provisioned, steps) && id !in provisioned && Reached(provisioned, steps)[id].paths == {path}
    requires key != "" && key !in ConfirmedWith(steps, id, path)
    ensures Unsound(provisioned, steps, UnpinStep(id), Other(path), key)
  {
    TellSnoc(steps, UnpinStep(id), id, path);
    TellSnoc(steps + [UnpinStep(id)], ConfirmStep(id, Other(path), key), id, path);
  }

  /** A heartbeat that gives an unpinned entry another key makes that key dual-confirmed. */
  lemma {:induction false} UnguardedHeartbeat(provisioned: Keys, steps: seq<Locked>, first: Locked, path: Path)
    requires first.HeartbeatStep? && first.key != "" && first.id in Reached(provisioned, steps) && first.id !in provisioned
    requires Reached(provisioned, steps)[first.id].key == "" && Dual(Reached(provisioned, steps)[first.id].paths)
    requires first.key !in ConfirmedWith(steps, first.id, path)
    ensures Unsound(provisioned, steps, first, Other(path), first.key)
  {
    TellSnoc(steps, first, first.id, path);
    TellSnoc(steps + [first], ConfirmStep(first.id, Other(path), first.key), first.id, path);
  }

  lemma {:induction false} UnguardedUnsound(provisioned: Keys, steps: seq<Locked>, first: Locked) returns (path: Path, key: string)
    requires StepsKeyed(steps) && GuardedRun(provisioned, steps) && (first.ConfirmStep? || first.HeartbeatStep? ==> first.key != "")
    requires !Guarded(Reached(provisioned, steps), provisioned, steps, first)
    ensures Unsound(provisioned, steps, first, path, key)
  {
    StepsBacked(provisioned, steps);
    var e := Reached(provisioned, steps)[first.id];
    assert StepBacked(e, None, steps, first.id);
    match first {
      case ConfirmStep(_, p, _) =>
        UnguardedConfirm(provisioned, steps, first);
        path, key := Other(p), e.key;
      case UnpinStep(id) =>
        var p := OnePath(e.paths);
        path := Other(p);
        key := FreshKey(ConfirmedWith(steps, id, p));
        UnguardedUnpin(provisioned, steps, id, p, key);
      case HeartbeatStep(id, k, _, _) =>
        var p :| p in e.paths && k !in ConfirmedWith(steps, id, p);
        path, key := Other(p), k;
        UnguardedHeartbeat(provisioned, steps, first, p);
    }
  }

  /**
   The exact condition, for every locked call: after guarded steps and one more, the dual answers that can come
   next about its peer are all sound if and only if that step is guarded too.
   */
  lemma {:induction false} NextSoundIff(provisioned: Keys, steps: seq<Locked>, first: Locked)
    requires StepsKeyed(steps) && GuardedRun(provisioned, steps) && (first.ConfirmStep? || first.HeartbeatStep? ==> first.key != "")
    ensures NextSound(provisioned, steps, first) <==> Guarded(Reached(provisioned, steps), provisioned, steps, first)
  {
    if Guarded(Reached(provisioned, steps), provisioned, steps, first) {
      GuardedNextSound(provisioned, steps, first);
    } else {
      var path, key := UnguardedUnsound(provisioned, steps, first);
      assert !ConfirmedByBoth(steps + [first] + [ConfirmStep(first.id, path, key)], first.id, key);
    }
  }

  lemma {:induction false} GuardedNextSound(provisioned: Keys, steps: seq<Locked>, first: Locked)
    requires StepsKeyed(steps) && GuardedRun(provisioned, steps) && (first.ConfirmStep? || first.HeartbeatStep? ==> first.key != "")
    requires Guarded(Reached(provisioned, steps), provisioned, steps, first)
    ensures NextSound(provisioned, steps, first)
  {
    var more := steps + [first];
    assert more[..|more| - 1] == steps;
    assert Reached(provisioned, more) == Do(Reached(provisioned, steps), provisioned, first);
    forall path, key | key != "" && NextAnswer(provisioned, steps, first, path, key).dual
      ensures ConfirmedByBoth(more + [ConfirmStep(first.id, path, key)], first.id, key)
    {
      InterleavedDualSound(provisioned, more, ConfirmStep(first.id, path, key));
    }
  }

  // ---------------------------------------------------------------- a greeting as steps

  /** The locked calls a handler makes for a greeting that no other handler interrupts. */
  function StepsOf(peers: Peers, provisioned: Keys, ev: Event): seq<Locked>
    requires ev.Hello?
  {
    var add, confirm := AddStep(ev.id, ev.key, ev.contact, ev.now), ConfirmStep(ev.id, ev.path, ev.key);
    var entry := Confirmed(Found(peers, ev), At(provisioned, ev.id), ev.path, ev.key);
    if ev.path.Announce? || ev.id !in peers || Outcome(peers, provisioned, ev).mismatch
       || (ev.key != "" && entry.key != "" && entry.key != ev.key)
    then [add, confirm]
    else [add, confirm, HeartbeatStep(ev.id, ev.key, ev.contact, ev.now)]
  }

  lemma GreetingIsSteps(d: Directory, provisioned: Keys, ev: Event)
    requires ev.Hello?
    ensures RunSteps(d.peers, provisioned, StepsOf(d.peers, provisioned, ev)) == Step(d, provisioned, ev).peers
  {
    var add, confirm := AddStep(ev.id, ev.key, ev.contact, ev.now), ConfirmStep(ev.id, ev.path, ev.key);
    var beat := HeartbeatStep(ev.id, ev.key, ev.contact, ev.now);
    assert [add, confirm, beat][..2] == [add, confirm] && [add, confirm][..1] == [add] && [add][..0] == [];
    var one := Do(d.peers, provisioned, add);
    assert one[ev.id] == Found(d.peers, ev);
    var two := Do(one, provisioned, confirm);
    assert RunSteps(d.peers, provisioned, [add]) == one;
    assert RunSteps(d.peers, provisioned, [add, confirm]) == two;
  }
}
