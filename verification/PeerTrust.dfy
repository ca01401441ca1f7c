/** Dual-path trust on first use: consensus/PeerManager.cpp and the two discovery handlers that drive it. */
module PeerTrust {
  import opened Wrappers
  import opened Delimited
  import RateLimit

  const LIVENESS_SEC: int := 30

  /** The two bits of the confirmation mask. */
  datatype Path = Beacon | Announce

  datatype Contact = Contact(ip: string, tcpPort: int, tlsPort: int)

  datatype PeerEntry = PeerEntry(contact: Contact, key: string, verified: bool, heartbeat: int, paths: set<Path>)

  datatype Confirmation = Confirmation(dual: bool, mismatch: bool)

  type Keys = map<string, string>
  type Peers = map<string, PeerEntry>

  // ---------------------------------------------------------------- one entry

  function At<V>(m: map<string, V>, id: string): Option<V> {
    if id in m then Some(m[id]) else None
  }

  function NewEntry(contact: Contact, key: string, now: int): PeerEntry {
    PeerEntry(contact, key, key != "", now, {})
  }

  predicate Dual(paths: set<Path>) {
    Beacon in paths && Announce in paths
  }

  /** A key is stored only where there is none yet. */
  function WithKey(e: PeerEntry, key: string): PeerEntry {
    if key != "" && e.key == "" then e.(key := key, verified := true) else e
  }

  function Accepted(e: PeerEntry, path: Path, key: string): PeerEntry {
    WithKey(e.(paths := e.paths + {path}), key)
  }

  /** Whether confirm_path turns the key down; `expected` is the pre-provisioned key, if any. */
  predicate Refused(e: PeerEntry, expected: Option<string>, path: Path, key: string) {
    if key == "" then false
    else if expected.Some? then expected.value != key
    else if path in e.paths then e.key != key
    else e.paths != {} && e.key != "" && e.key != key
  }

  function Confirmed(e: PeerEntry, expected: Option<string>, path: Path, key: string): PeerEntry {
    if Refused(e, expected, path, key) || (expected.None? && path in e.paths) then e else Accepted(e, path, key)
  }

  function ConfirmResult(e: PeerEntry, expected: Option<string>, path: Path, key: string): Confirmation {
    if Refused(e, expected, path, key) then Confirmation(false, true)
    else Confirmation(Dual(e.paths + {path}), false)
  }

  function Heard(e: PeerEntry, contact: Contact, key: string, now: int): PeerEntry {
    WithKey(e.(contact := contact, heartbeat := now), key)
  }

  function Unpinned(e: PeerEntry): PeerEntry {
    e.(key := "", verified := false)
  }

  // ---------------------------------------------------------------- the manager

  class PeerManager {
    var peers: Peers
    var preProvisioned: Keys

    constructor ()
      ensures peers == map[] && preProvisioned == map[]
    {
      peers, preProvisioned := map[], map[];
    }

    method AddPeer(id: string, contact: Contact, key: string, now: int) returns (isNew: bool)
      modifies `peers
      ensures isNew <==> id !in old(peers)
      ensures peers == if isNew then old(peers)[id := NewEntry(contact, key, now)] else old(peers)
    {
      if id in peers { return false; }
      peers := peers[id := PeerEntry(contact, key, key != "", now, {})];
      return true;
    }

    method UpdatePeerHeartbeat(id: string, contact: Contact, key: string, now: int) returns (found: bool)
      modifies `peers
      ensures found <==> id in old(peers)
      ensures peers == if found then old(peers)[id := Heard(old(peers)[id], contact, key, now)] else old(peers)
    {
      if id !in peers { return false; }
      peers := peers[id := peers[id].(heartbeat := now, contact := contact)];
      if key != "" && peers[id].key == "" {
        peers := peers[id := peers[id].(key := key, verified := true)];
      }
      return true;
    }

    method RemovePeer(id: string)
      modifies `peers
      ensures peers == old(peers) - {id}
    {
      peers := peers - {id};
    }

    method PreProvisionPeerKey(id: string, key: string)
      modifies `preProvisioned
      ensures preProvisioned == old(preProvisioned)[id := key]
    {
      preProvisioned := preProvisioned[id := key];
    }

    method UnpinPeerKey(id: string)
      modifies `peers
      ensures peers == if id in old(peers) then old(peers)[id := Unpinned(old(peers)[id])] else old(peers)
    {
      if id in peers {
        peers := peers[id := peers[id].(key := "", verified := false)];
      }
    }

    /** The peers not heard of for more than LIVENESS_SEC. */
    method GetStalePeers(now: int) returns (stale: set<string>)
      ensures stale == set id | id in peers && RateLimit.Seconds(now - peers[id].heartbeat) > LIVENESS_SEC
    {
      stale := {};
      var todo := peers.Keys;
      while todo != {}
        invariant todo <= peers.Keys
        invariant stale == set id | id in peers && id !in todo && RateLimit.Seconds(now - peers[id].heartbeat) > LIVENESS_SEC
        decreases |todo|
      {
        var id :| id in todo;
        if RateLimit.Seconds(now - peers[id].heartbeat) > LIVENESS_SEC { stale := stale + {id}; }
        todo := todo - {id};
      }
    }

    method ConfirmPath(id: string, path: Path, key: string) returns (r: Confirmation)
      modifies `peers
      ensures id !in old(peers) ==> peers == old(peers) && r == Confirmation(false, false)
      ensures id in old(peers) ==>
                var e, expected := old(peers)[id], At(preProvisioned, id);
                && peers == old(peers)[id := Confirmed(e, expected, path, key)]
                && r == ConfirmResult(e, expected, path, key)
    {
      if id !in peers { return Confirmation(false, false); }
      var entry := peers[id];
      assert entry.paths + {path} == if path in entry.paths then entry.paths else entry.paths + {path};
      assert peers == peers[id := entry];
      if id in preProvisioned {
        if key != "" && preProvisioned[id] != key { return Confirmation(false, true); }
        entry := entry.(paths := entry.paths + {path});
        if key != "" && entry.key == "" { entry := entry.(key := key, verified := true); }
        peers := peers[id := entry];
        return Confirmation(Dual(entry.paths), false);
      }
      if path in entry.paths {
        if key != "" && entry.key != key { return Confirmation(false, true); }
        return Confirmation(Dual(entry.paths), false);
      }
      if entry.paths != {} && entry.key != "" {
        if key != "" && entry.key != key { return Confirmation(false, true); }
      }
      entry := entry.(paths := entry.paths + {path});
      if key != "" && entry.key == "" { entry := entry.(key := key, verified := true); }
      peers := peers[id := entry];
      return Confirmation(Dual(entry.paths), false);
    }
  }

  // ---------------------------------------------------------------- discovery

  /** What discovery keeps: the peer registry and the keys handed to consensus. */
  datatype Directory = Directory(peers: Peers, registered: Keys)

  datatype Event =
    | Hello(id: string, path: Path, key: string, contact: Contact, now: int)
    | Pex(id: string, contact: Contact, now: int)
    | Remove(id: string)
    | Pruned(id: string)
    | Unpin(id: string)

  /** The entry that a greeting finds or makes. */
  function Found(peers: Peers, ev: Event): PeerEntry
    requires ev.Hello?
  {
    if ev.id in peers then peers[ev.id] else NewEntry(ev.contact, ev.key, ev.now)
  }

  function Outcome(peers: Peers, provisioned: Keys, ev: Event): Confirmation
    requires ev.Hello?
  {
    ConfirmResult(Found(peers, ev), At(provisioned, ev.id), ev.path, ev.key)
  }

  /** The entry after add, confirm and, for the beacon of a known peer whose key is not rejected, the heartbeat. */
  function Greeted(peers: Peers, provisioned: Keys, ev: Event): PeerEntry
    requires ev.Hello?
  {
    var found := Found(peers, ev);
    var e := Confirmed(found, At(provisioned, ev.id), ev.path, ev.key);
    if ev.path.Announce? || ev.id !in peers || Outcome(peers, provisioned, ev).mismatch then e
    else if ev.key != "" && e.key != "" && e.key != ev.key then e
    else Heard(e, ev.contact, ev.key, ev.now)
  }

  function Step(d: Directory, provisioned: Keys, ev: Event): Directory {
    match ev
    case Hello(id, path, key, contact, now) =>
      var registers := Outcome(d.peers, provisioned, ev).dual && id !in d.registered;
      Directory(d.peers[id := Greeted(d.peers, provisioned, ev)],
                if registers then d.registered[id := key] else d.registered)
    case Pex(id, contact, now) =>
      d.(peers := if id in d.peers then d.peers else d.peers[id := NewEntry(contact, "", now)])
    case Remove(id) =>
      Directory(d.peers - {id}, if id in provisioned then d.registered else d.registered - {id})
    case Pruned(id) => d.(registered := d.registered - {id})
    case Unpin(id) => d.(peers := if id in d.peers then d.peers[id := Unpinned(d.peers[id])] else d.peers)
  }

  /** Start-up registers the provisioned keys; then the events happen, the last of `events` last. */
  function Run(provisioned: Keys, events: seq<Event>): Directory {
    if events == [] then Directory(map[], provisioned)
    else Step(Run(provisioned, events[..|events| - 1]), provisioned, events[|events| - 1])
  }

  class Discovery {
    const manager: PeerManager
    var registered: Keys

    ghost function Abs(): Directory
      reads this, manager
    {
      Directory(manager.peers, registered)
    }

    constructor (provisioned: Keys)
      ensures Abs() == Run(provisioned, []) && manager.preProvisioned == provisioned && fresh(manager)
    {
      var m := new PeerManager();
      m.preProvisioned := provisioned;
      manager, registered := m, provisioned;
    }

    method OnBeacon(id: string, key: string, contact: Contact, now: int)
      requires key != ""
      modifies this, manager`peers
      ensures Abs() == Step(old(Abs()), manager.preProvisioned, Hello(id, Beacon, key, contact, now))
    {
      ghost var ev := Hello(id, Beacon, key, contact, now);
      var isNew := manager.AddPeer(id, contact, key, now);
      assert manager.peers[id] == Found(old(manager.peers), ev);
      var confirm := manager.ConfirmPath(id, Beacon, key);
      if confirm.mismatch { return; }
      if !isNew {
        var existing := manager.peers[id];
        if !(key != "" && existing.key != "" && existing.key != key) {
          var _ := manager.UpdatePeerHeartbeat(id, contact, key, now);
        }
      }
      if isNew || confirm.dual {
        if confirm.dual && id !in registered { registered := registered[id := key]; }
      }
    }

    method OnAnnounce(id: string, key: string, ip: string, now: int)
      requires key != ""
      modifies this, manager`peers
      ensures Abs() == Step(old(Abs()), manager.preProvisioned, Hello(id, Announce, key, Contact(ip, 0, 0), now))
    {
      ghost var ev := Hello(id, Announce, key, Contact(ip, 0, 0), now);
      var _ := manager.AddPeer(id, Contact(ip, 0, 0), key, now);
      assert manager.peers[id] == Found(old(manager.peers), ev);
      var confirm := manager.ConfirmPath(id, Announce, key);
      if confirm.mismatch { return; }
      if confirm.dual && id !in registered { registered := registered[id := key]; }
    }

    /** A peer that stopped sending heartbeats. */
    method OnStale(id: string)
      modifies this, manager`peers
      ensures Abs() == Step(old(Abs()), manager.preProvisioned, Remove(id))
    {
      manager.RemovePeer(id);
      if id !in manager.preProvisioned { registered := registered - {id}; }
    }

    /** The operator allows a key rotation. */
    method OnUnpin(id: string)
      modifies manager`peers
      ensures Abs() == Step(old(Abs()), manager.preProvisioned, Unpin(id))
    {
      if id !in manager.peers { return; }
      manager.UnpinPeerKey(id);
    }
  }

  // ---------------------------------------------------------------- what the paths presented

  /** The keys one path has presented for `id` since its entry was last removed, read off the events alone. */
  function Presented(events: seq<Event>, id: string, path: Path): set<string> {
    if events == [] then {}
    else
      var before, ev := Presented(events[..|events| - 1], id, path), events[|events| - 1];
      if ev.id != id then before
      else if ev.Remove? then {}
      else if ev.Hello? && ev.path == path then before + {ev.key}
      else before
  }

  /** Both handlers drop a greeting without a key before they touch the registry. */
  ghost predicate Keyed(events: seq<Event>) {
    forall ev :: ev in events && ev.Hello? ==> ev.key != ""
  }

  /** The key that stands behind an entry's confirmed paths. */
  function Witness(e: PeerEntry, expected: Option<string>): string {
    if expected.Some? then expected.value else e.key
  }

  /** Confirmed on both paths and unpinned since: every greeting is refused. */
  predicate Stuck(e: PeerEntry, expected: Option<string>) {
    expected.None? && e.key == "" && Dual(e.paths)
  }

  ghost predicate EntryBacked(e: PeerEntry, expected: Option<string>, events: seq<Event>, id: string) {
    && (e.verified <==> e.key != "")
    && (|| Stuck(e, expected)
        || (&& (expected.None? ==> (e.key == "" <==> e.paths == {}))
            && forall p :: p in e.paths ==> Witness(e, expected) in Presented(events, id, p)))
  }

  /** An unpin that does no harm: of a provisioned or unknown peer, or not between the two confirmations. */
  predicate Careful(peers: Peers, provisioned: Keys, ev: Event) {
    ev.Unpin? && ev.id in peers && ev.id !in provisioned ==> peers[ev.id].paths == {} || Dual(peers[ev.id].paths)
  }

  ghost predicate CarefulRun(provisioned: Keys, events: seq<Event>) {
    events == [] ||
    (CarefulRun(provisioned, events[..|events| - 1]) &&
     Careful(Run(provisioned, events[..|events| - 1]).peers, provisioned, events[|events| - 1]))
  }

  /** Without unpins there is nothing to be careful about. */
  lemma {:induction false} NoUnpinCareful(provisioned: Keys, events: seq<Event>)
    requires forall i :: 0 <= i < |events| ==> !events[i].Unpin?
    ensures CarefulRun(provisioned, events)
  {
    if events != [] { NoUnpinCareful(provisioned, events[..|events| - 1]); }
  }

  ghost predicate PeersBacked(peers: Peers, provisioned: Keys, events: seq<Event>) {
    forall id :: id in peers ==> EntryBacked(peers[id], At(provisioned, id), events, id)
  }

  /** The provisioned key, or one that both paths presented. */
  predicate KeyBacked(key: string, provisioned: Keys, events: seq<Event>, id: string) {
    if id in provisioned then key == provisioned[id]
    else key in Presented(events, id, Beacon) && key in Presented(events, id, Announce)
  }

  ghost predicate KeysBacked(registered: Keys, provisioned: Keys, events: seq<Event>) {
    forall id :: id in registered ==> KeyBacked(registered[id], provisioned, events, id)
  }

  lemma {:induction false} PresentedSnoc(events: seq<Event>, ev: Event, id: string, path: Path)
    ensures var before := Presented(events, id, path);
            Presented(events + [ev], id, path) ==
            if ev.id != id then before
            else if ev.Remove? then {}
            else if ev.Hello? && ev.path == path then before + {ev.key}
            else before
  {
    assert (events + [ev])[..|events|] == events;
  }

  /** One greeting with a key: what it leaves behind is backed, and a dual result names the key it brought. */
  lemma GreetedBacked(peers: Peers, provisioned: Keys, events: seq<Event>, ev: Event)
    requires ev.Hello? && ev.key != ""
    requires PeersBacked(peers, provisioned, events)
    ensures var e', expected := Greeted(peers, provisioned, ev), At(provisioned, ev.id);
            && EntryBacked(e', expected, events + [ev], ev.id)
            && (Outcome(peers, provisioned, ev).dual ==> Dual(e'.paths) && ev.key == Witness(e', expected))
  {
    var id, expected := ev.id, At(provisioned, ev.id);
    var e, e' := Found(peers, ev), Greeted(peers, provisioned, ev);
    PresentedSnoc(events, ev, id, Beacon);
    PresentedSnoc(events, ev, id, Announce);
    assert id in peers ==> EntryBacked(peers[id], expected, events, id);
    if Refused(e, expected, ev.path, ev.key) {
      assert e' == e;
    } else {
      assert e'.paths == e.paths + {ev.path};
      assert Witness(e', expected) == ev.key;
      forall p | p in e'.paths ensures ev.key in Presented(events + [ev], id, p) {
        if p != ev.path { assert p in e.paths && Witness(e, expected) == ev.key; }
      }
    }
  }

  /** Every event keeps every entry backed. */
  lemma StepPeers(d: Directory, provisioned: Keys, events: seq<Event>, ev: Event)
    requires (ev.Hello? ==> ev.key != "") && Careful(d.peers, provisioned, ev)
    requires PeersBacked(d.peers, provisioned, events)
    ensures PeersBacked(Step(d, provisioned, ev).peers, provisioned, events + [ev])
  {
    var peers' := Step(d, provisioned, ev).peers;
    forall id | id in peers' ensures EntryBacked(peers'[id], At(provisioned, id), events + [ev], id) {
      if ev.Hello? && ev.id == id {
        GreetedBacked(d.peers, provisioned, events, ev);
      } else {
        PresentedSnoc(events, ev, id, Beacon);
        PresentedSnoc(events, ev, id, Announce);
        assert id in d.peers ==> EntryBacked(d.peers[id], At(provisioned, id), events, id);
      }
    }
  }

  /** Every event keeps every registered key backed. */
  lemma StepKeys(d: Directory, provisioned: Keys, events: seq<Event>, ev: Event)
    requires ev.Hello? ==> ev.key != ""
    requires PeersBacked(d.peers, provisioned, events) && KeysBacked(d.registered, provisioned, events)
    ensures KeysBacked(Step(d, provisioned, ev).registered, provisioned, events + [ev])
  {
    var registered' := Step(d, provisioned, ev).registered;
    forall id | id in registered' ensures KeyBacked(registered'[id], provisioned, events + [ev], id) {
      if id in d.registered {
        PresentedSnoc(events, ev, id, Beacon);
        PresentedSnoc(events, ev, id, Announce);
      } else {
        GreetedBacked(d.peers, provisioned, events, ev);
      }
    }
  }

  /** In every reachable state. */
  lemma {:induction false} RunBacked(provisioned: Keys, events: seq<Event>)
    requires Keyed(events) && CarefulRun(provisioned, events)
    ensures PeersBacked(Run(provisioned, events).peers, provisioned, events)
    ensures KeysBacked(Run(provisioned, events).registered, provisioned, events)
  {
    if events != [] {
      var before, ev := events[..|events| - 1], events[|events| - 1];
      RunBacked(provisioned, before);
      assert events == before + [ev];
      StepPeers(Run(provisioned, before), provisioned, before, ev);
      StepKeys(Run(provisioned, before), provisioned, before, ev);
    }
  }

  /**
   After any run, a greeting that is reported as dual-confirmed brought a key that both paths have
   presented since the entry was created; it is the provisioned key where there is one, and the stored key
   otherwise.
   */
  lemma {:induction false} DualMeansBothPaths(provisioned: Keys, events: seq<Event>, ev: Event)
    requires Keyed(events) && CarefulRun(provisioned, events) && ev.Hello? && ev.key != ""
    requires Outcome(Run(provisioned, events).peers, provisioned, ev).dual
    ensures ev.key in Presented(events + [ev], ev.id, Beacon)
    ensures ev.key in Presented(events + [ev], ev.id, Announce)
    ensures ev.id in provisioned ==> ev.key == provisioned[ev.id]
    ensures ev.id !in provisioned ==> ev.key == Run(provisioned, events + [ev]).peers[ev.id].key
  {
    RunBacked(provisioned, events);
    GreetedBacked(Run(provisioned, events).peers, provisioned, events, ev);
    assert (events + [ev])[..|events|] == events;
  }

  /** Whatever consensus holds as a discovered peer's key was presented on both paths. */
  lemma {:induction false} RegisteredKeysConfirmed(provisioned: Keys, events: seq<Event>, id: string)
    requires Keyed(events) && CarefulRun(provisioned, events) && id in Run(provisioned, events).registered
    ensures KeyBacked(Run(provisioned, events).registered[id], provisioned, events, id)
  {
    RunBacked(provisioned, events);
  }

  // ---------------------------------------------------------------- the stored key never changes

  ghost predicate Stays(events: seq<Event>, id: string) {
    forall i :: 0 <= i < |events| ==> events[i] != Remove(id) && events[i] != Unpin(id)
  }

  lemma StepKeepsKey(d: Directory, provisioned: Keys, ev: Event, id: string)
    requires id in d.peers && d.peers[id].key != "" && ev != Remove(id) && ev != Unpin(id)
    ensures id in Step(d, provisioned, ev).peers && Step(d, provisioned, ev).peers[id].key == d.peers[id].key
  {
  }

  lemma {:induction false} RunSnoc(provisioned: Keys, events: seq<Event>, ev: Event)
    ensures Run(provisioned, events + [ev]) == Step(Run(provisioned, events), provisioned, ev)
  {
    assert (events + [ev])[..|events|] == events;
  }

  /** From any reachable state on, whatever is presented, a stored key stays until its entry is removed or unpinned. */
  lemma {:induction false} KeyNeverChanges(provisioned: Keys, events: seq<Event>, more: seq<Event>, id: string)
    requires Stays(more, id)
    requires id in Run(provisioned, events).peers && Run(provisioned, events).peers[id].key != ""
    ensures id in Run(provisioned, events + more).peers
    ensures Run(provisioned, events + more).peers[id].key == Run(provisioned, events).peers[id].key
  {
    if more == [] {
      assert events + more == events;
    } else {
      var front, ev := more[..|more| - 1], more[|more| - 1];
      KeyNeverChanges(provisioned, events, front, id);
      StepKeepsKey(Run(provisioned, events + front), provisioned, ev, id);
      RunSnoc(provisioned, events + front, ev);
      SnocConcat(events, more);
    }
  }

  // ---------------------------------------------------------------- where the guarantee ends

  /** A string that is not in the set. */
  lemma {:induction false} FreshKey(keys: set<string>) returns (key: string)
    ensures key != "" && key !in keys && forall k :: k in keys ==> |k| < |key|
    decreases keys
  {
    if keys == {} {
      key := "k";
    } else {
      var k :| k in keys;
      var longer := FreshKey(keys - {k});
      key := longer + k;
      forall j | j in keys ensures |j| < |key| { assert j == k || j in keys - {k}; }
    }
  }

  /** After an unpin: who is accepted, and who is then reported as dual-confirmed. */
  lemma UnpinAcceptsIff(e: PeerEntry, expected: Option<string>, path: Path, key: string)
    requires key != ""
    ensures var r := ConfirmResult(Unpinned(e), expected, path, key);
            && (!r.mismatch <==> if expected.Some? then key == expected.value else path !in e.paths)
            && (r.dual <==> !r.mismatch && Dual(e.paths + {path}))
  {
  }

  /** What a dual result is supposed to mean. */
  ghost predicate Sound(provisioned: Keys, events: seq<Event>, ev: Event)
    requires ev.Hello?
  {
    Outcome(Run(provisioned, events).peers, provisioned, ev).dual ==>
      ev.key in Presented(events + [ev], ev.id, Beacon) && ev.key in Presented(events + [ev], ev.id, Announce)
  }

  function Other(path: Path): Path { if path == Beacon then Announce else Beacon }

  /** One path confirmed, then an unpin: the other path is dual-confirmed, and registered, with any key whatsoever. */
  lemma {:induction false} UnpinLetsAnyKeyIn(provisioned: Keys, events: seq<Event>, id: string, path: Path, key: string,
                                             contact: Contact, now: int)
    requires key != "" && id !in provisioned && id in Run(provisioned, events).peers
    requires Run(provisioned, events).peers[id].paths == {path}
    ensures var d := Run(provisioned, events + [Unpin(id)]);
            var ev := Hello(id, Other(path), key, contact, now);
            && Outcome(d.peers, provisioned, ev) == Confirmation(true, false)
            && (id !in d.registered ==> Step(d, provisioned, ev).registered == d.registered[id := key])
            && (Sound(provisioned, events + [Unpin(id)], ev) <==> key in Presented(events, id, path))
  {
    var ev := Hello(id, Other(path), key, contact, now);
    RunSnoc(provisioned, events, Unpin(id));
    PresentedSnoc(events, Unpin(id), id, path);
    PresentedSnoc(events + [Unpin(id)], ev, id, path);
    PresentedSnoc(events + [Unpin(id)], ev, id, Other(path));
  }

  lemma {:induction false} CarefulUnpinSound(provisioned: Keys, events: seq<Event>, id: string, ev: Event)
    requires Keyed(events) && CarefulRun(provisioned, events) && ev.Hello? && ev.id == id && ev.key != ""
    requires Careful(Run(provisioned, events).peers, provisioned, Unpin(id))
    ensures Sound(provisioned, events + [Unpin(id)], ev)
  {
    var more := events + [Unpin(id)];
    assert more[..|more| - 1] == events;
    assert CarefulRun(provisioned, more);
    if Outcome(Run(provisioned, more).peers, provisioned, ev).dual { DualMeansBothPaths(provisioned, more, ev); }
  }

  lemma {:induction false} CarelessUnpinUnsound(provisioned: Keys, events: seq<Event>, id: string) returns (ev: Event)
    requires !Careful(Run(provisioned, events).peers, provisioned, Unpin(id))
    ensures ev.Hello? && ev.id == id && ev.key != "" && !Sound(provisioned, events + [Unpin(id)], ev)
  {
    var path := OnePath(Run(provisioned, events).peers[id].paths);
    var key := FreshKey(Presented(events, id, path));
    UnpinLetsAnyKeyIn(provisioned, events, id, path, key, Contact("", 0, 0), 0);
    ev := Hello(id, Other(path), key, Contact("", 0, 0), 0);
  }

  /** An unpin leaves every dual result sound if and only if it does not come between the two confirmations. */
  lemma {:induction false} UnpinSoundIff(provisioned: Keys, events: seq<Event>, id: string)
    requires Keyed(events) && CarefulRun(provisioned, events)
    ensures Careful(Run(provisioned, events).peers, provisioned, Unpin(id))
       <==> (forall ev: Event :: ev.Hello? && ev.id == id && ev.key != "" ==> Sound(provisioned, events + [Unpin(id)], ev))
  {
    if Careful(Run(provisioned, events).peers, provisioned, Unpin(id)) {
      forall ev: Event | ev.Hello? && ev.id == id && ev.key != "" ensures Sound(provisioned, events + [Unpin(id)], ev) {
        CarefulUnpinSound(provisioned, events, id, ev);
      }
    } else {
      var ev := CarelessUnpinUnsound(provisioned, events, id);
    }
  }

  lemma OnePath(paths: set<Path>) returns (path: Path)
    requires paths != {} && !Dual(paths)
    ensures paths == {path}
  {
    path :| path in paths;
    assert forall p :: p in paths ==> p == Beacon || p == Announce;
  }

  lemma StepKeepsStuck(d: Directory, provisioned: Keys, ev: Event, id: string)
    requires id in d.peers && Stuck(d.peers[id], At(provisioned, id)) && !d.peers[id].verified
    requires ev != Remove(id) && (ev.Hello? ==> ev.key != "")
    ensures id in Step(d, provisioned, ev).peers && Step(d, provisioned, ev).peers[id] == d.peers[id]
  {
    if ev.Hello? && ev.id == id { assert ev.path == Beacon || ev.path == Announce; }
  }

  /** A dual-confirmed peer that was unpinned is turned away, whatever it brings, until its entry is removed. */
  lemma {:induction false} StuckUntilRemoved(provisioned: Keys, events: seq<Event>, more: seq<Event>, id: string)
    requires Keyed(more) && forall i :: 0 <= i < |more| ==> more[i] != Remove(id)
    requires id in Run(provisioned, events).peers && !Run(provisioned, events).peers[id].verified
    requires Stuck(Run(provisioned, events).peers[id], At(provisioned, id))
    ensures id in Run(provisioned, events + more).peers
    ensures Run(provisioned, events + more).peers[id] == Run(provisioned, events).peers[id]
  {
    if more == [] {
      assert events + more == events;
    } else {
      var front, ev := more[..|more| - 1], more[|more| - 1];
      StuckUntilRemoved(provisioned, events, front, id);
      assert ev in more;
      StepKeepsStuck(Run(provisioned, events + front), provisioned, ev, id);
      RunSnoc(provisioned, events + front, ev);
      SnocConcat(events, more);
    }
  }

  // ---------------------------------------------------------------- the entry of a provisioned peer

  /** The event that made the entry, or last emptied its key. */
  function Origin(events: seq<Event>, id: string): Option<Event> {
    if events == [] then None
    else
      var before, ev := Origin(events[..|events| - 1], id), events[|events| - 1];
      if ev.id != id then before
      else match ev
        case Remove(_) => None
        case Pruned(_) => before
        case Unpin(_) => if before.Some? then Some(ev) else None
        case _ => if before.Some? then before else Some(ev)
  }

  /** The keys greeted with, on either path, after that event. */
  function Since(events: seq<Event>, id: string): set<string> {
    if events == [] then {}
    else
      var front, ev := events[..|events| - 1], events[|events| - 1];
      if ev.id != id || ev.Pex? || ev.Pruned? then Since(front, id)
      else if ev.Hello? && Origin(front, id).Some? then Since(front, id) + {ev.key}
      else {}
  }

  /** The key a provisioned peer's entry holds, told from the events. */
  function HeldKey(events: seq<Event>, id: string, right: string): string {
    var o := Origin(events, id);
    if o.Some? && o.value.Hello? then o.value.key else if right in Since(events, id) then right else ""
  }

  predicate OriginKeyed(events: seq<Event>, id: string) {
    Origin(events, id).Some? && Origin(events, id).value.Hello? ==> Origin(events, id).value.key != ""
  }

  lemma {:induction false} HeldKeyStep(d: Directory, provisioned: Keys, front: seq<Event>, ev: Event, id: string)
    requires id in provisioned && (ev.Hello? ==> ev.key != "")
    requires id in d.peers <==> Origin(front, id).Some?
    requires id in d.peers ==> d.peers[id].key == HeldKey(front, id, provisioned[id])
    requires Origin(front, id).None? ==> Since(front, id) == {}
    requires OriginKeyed(front, id)
    ensures OriginKeyed(front + [ev], id)
    ensures var d', events := Step(d, provisioned, ev), front + [ev];
            && (id in d'.peers <==> Origin(events, id).Some?)
            && (id in d'.peers ==> d'.peers[id].key == HeldKey(events, id, provisioned[id]))
            && (Origin(events, id).None? ==> Since(events, id) == {})
  {
    assert (front + [ev])[..|front|] == front;
  }

  lemma {:induction false} HeldKeyRun(provisioned: Keys, events: seq<Event>, id: string)
    requires Keyed(events) && id in provisioned
    ensures id in Run(provisioned, events).peers <==> Origin(events, id).Some?
    ensures id in Run(provisioned, events).peers ==>
              Run(provisioned, events).peers[id].key == HeldKey(events, id, provisioned[id])
    ensures (Origin(events, id).None? ==> Since(events, id) == {}) && OriginKeyed(events, id)
  {
    if events != [] {
      var front, ev := events[..|events| - 1], events[|events| - 1];
      HeldKeyRun(provisioned, front, id);
      HeldKeyStep(Run(provisioned, front), provisioned, front, ev, id);
      assert front + [ev] == events && ev in events;
    }
  }

  /**
   A provisioned peer's entry holds the provisioned key if and only if it was made by a greeting with that
   key, or was made or left without a key and has been greeted with that key since.
   */
  lemma {:induction false} ProvisionedKeyHeldIff(provisioned: Keys, events: seq<Event>, id: string)
    requires Keyed(events) && id in provisioned && provisioned[id] != "" && id in Run(provisioned, events).peers
    ensures Origin(events, id).Some?
    ensures var o, right := Origin(events, id).value, provisioned[id];
            Run(provisioned, events).peers[id].key == right
            <==> if o.Hello? then o.key == right else right in Since(events, id)
  {
    HeldKeyRun(provisioned, events, id);
  }
}
