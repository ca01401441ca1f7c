/** When a peer was last heard of, and who is stale. */
module PeerLiveness {
  import opened Wrappers
  import opened RateLimit
  import opened PeerTrust

  datatype Sign = Sign(contact: Contact, at: int)

  /** A beacon of a known peer that is not turned down, with the key that the entry then holds. */
  predicate Heeded(peers: Peers, provisioned: Keys, ev: Event) {
    && ev.Hello? && ev.path == Beacon && ev.id in peers && !Outcome(peers, provisioned, ev).mismatch
    && Confirmed(peers[ev.id], At(provisioned, ev.id), Beacon, ev.key).key == ev.key
  }

  /** The last sign of life of a peer since its entry was made: the event that made it, or the last beacon heeded. */
  function LastSign(provisioned: Keys, events: seq<Event>, id: string): Option<Sign> {
    if events == [] then None
    else
      var front, ev := events[..|events| - 1], events[|events| - 1];
      var peers := Run(provisioned, front).peers;
      if ev == Remove(id) then None
      else if (ev.Hello? || ev.Pex?) && ev.id == id && (id !in peers || Heeded(peers, provisioned, ev))
      then Some(Sign(ev.contact, ev.now))
      else LastSign(provisioned, front, id)
  }

  predicate Shows(peers: Peers, id: string, sign: Option<Sign>) {
    if sign.None? then id !in peers
    else id in peers && peers[id].contact == sign.value.contact && peers[id].heartbeat == sign.value.at
  }

  lemma StepShows(d: Directory, provisioned: Keys, ev: Event, id: string, sign: Option<Sign>)
    requires Shows(d.peers, id, sign) && (ev.Hello? ==> ev.key != "")
    ensures Shows(Step(d, provisioned, ev).peers, id,
                  if ev == Remove(id) then None
                  else if (ev.Hello? || ev.Pex?) && ev.id == id && (id !in d.peers || Heeded(d.peers, provisioned, ev))
                  then Some(Sign(ev.contact, ev.now)) else sign)
  {
  }

  /** In every run, an entry's address and heartbeat are those of the peer's last sign of life. */
  lemma {:induction false} EntryShowsLastSign(provisioned: Keys, events: seq<Event>, id: string)
    requires Keyed(events)
    ensures Shows(Run(provisioned, events).peers, id, LastSign(provisioned, events, id))
  {
    if events != [] {
      var front, ev := events[..|events| - 1], events[|events| - 1];
      EntryShowsLastSign(provisioned, front, id);
      assert ev in events;
      StepShows(Run(provisioned, front), provisioned, ev, id, LastSign(provisioned, front, id));
    }
  }

  /** So a peer is found stale exactly if it has an entry and its last sign of life is more than 30 seconds old. */
  lemma {:induction false} StaleIff(provisioned: Keys, events: seq<Event>, id: string, now: int)
    requires Keyed(events)
    ensures var peers, sign := Run(provisioned, events).peers, LastSign(provisioned, events, id);
            (id in peers && Seconds(now - peers[id].heartbeat) > LIVENESS_SEC) <==> sign.Some? && Seconds(now - sign.value.at) > 30
  {
    EntryShowsLastSign(provisioned, events, id);
  }
}
