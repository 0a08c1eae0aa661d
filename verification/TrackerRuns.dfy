/** What the tracker shows after any run of sightings and prunings (discovery/udp.rs 90-308). */
module TrackerRuns {
  import opened Wrappers
  import opened Tracker

  /** A sighting with the entry its search finds and whether the new address is adopted; a pruning with
      the order it finds the expired keys in; a removal. */
  datatype Event =
    | Sight(now: nat, peer: PeerInfo, source: PeerSource, found: Option<Key>, adopt: bool)
    | Prune(now: nat, keys: seq<Key>)
    | PruneOthers(now: nat, keys: seq<Key>)
    | Remove(ip: string, port: nat)

  /** The ranks of addresses, the time to live, and the device that each address announces. */
  datatype Setting = Setting(rank: string -> nat, ttl: nat, owner: Key -> string)

  ghost predicate IsSighting(peers: Peers, e: Event, c: Setting)
    requires e.Sight?
  {
    && IsMatch(peers, e.peer, e.found)
    && (e.found.Some? && KeyForPeer(e.peer) !in peers ==>
          (e.adopt <==> c.rank(e.peer.ip) <= c.rank(peers[e.found.value].peer.ip)))
  }

  ghost predicate ListsRemoved(before: Peers, after: Peers, keys: seq<Key>) {
    (forall i, j :: 0 <= i < j < |keys| ==> keys[i] != keys[j]) && forall k :: k in keys <==> k in before && k !in after
  }

  ghost predicate Allowed(peers: Peers, e: Event, c: Setting) {
    match e
    case Sight(_, p, _, _, _) => IsSighting(peers, e, c) && p.deviceName == c.owner(KeyForPeer(p))
    case Prune(now, keys) => ListsRemoved(peers, Pruned(peers, now, c.ttl), keys)
    case PruneOthers(now, keys) => ListsRemoved(peers, PrunedManual(peers, now, c.ttl), keys)
    case Remove(_, _) => true
  }

  function Next(peers: Peers, e: Event, c: Setting): Peers {
    match e
    case Sight(now, p, source, found, adopt) => Seen(peers, now, p, source, found, adopt)
    case Prune(now, _) => Pruned(peers, now, c.ttl)
    case PruneOthers(now, _) => PrunedManual(peers, now, c.ttl)
    case Remove(ip, port) => peers - {KeyOf(ip, port)}
  }

  function LostOf(peers: Peers, keys: seq<Key>): seq<PeerEvent> {
    if keys == [] then []
    else LostOf(peers, keys[..|keys| - 1]) + if keys[|keys| - 1] in peers then [Lost(peers[keys[|keys| - 1]].peer)] else []
  }

  /** What the step sends out. */
  function Emits(peers: Peers, e: Event): seq<PeerEvent> {
    match e
    case Sight(_, p, _, found, adopt) =>
      if SeenEvent(peers, p, found, adopt).Some? then [SeenEvent(peers, p, found, adopt).value] else []
    case Prune(_, keys) => LostOf(peers, keys)
    case PruneOthers(_, keys) => LostOf(peers, keys)
    case Remove(ip, port) => LostOf(peers, [KeyOf(ip, port)])
  }

  /** The entries before event `n`. */
  function At(peers: Peers, es: seq<Event>, n: nat, c: Setting): Peers
    requires n <= |es|
  {
    if n == 0 then peers else Next(At(peers, es, n - 1, c), es[n - 1], c)
  }

  /** Each of the first `n` events can happen where it does. */
  ghost predicate IsRun(peers: Peers, es: seq<Event>, n: nat, c: Setting)
    requires n <= |es|
  {
    n > 0 ==> IsRun(peers, es, n - 1, c) && Allowed(At(peers, es, n - 1, c), es[n - 1], c)
  }

  // ----- One entry per device, under its own address -----

  ghost predicate Keyed(peers: Peers) {
    forall k :: k in peers ==> k == KeyForPeer(peers[k].peer)
  }

  ghost predicate Unique(peers: Peers) {
    forall j, k :: j in peers && k in peers && peers[j].peer.deviceName == peers[k].peer.deviceName != "" ==> j == k
  }

  /** Every entry's address announces the entry's device. */
  ghost predicate Owned(peers: Peers, c: Setting) {
    forall k :: k in peers ==> peers[k].peer.deviceName == c.owner(k)
  }

  ghost predicate Good(peers: Peers, c: Setting) {
    Keyed(peers) && Unique(peers) && Owned(peers, c)
  }

  /** A sighting under an address that is listed for another device, while its own device is listed
      elsewhere. */
  ghost predicate TakesOver(peers: Peers, p: PeerInfo) {
    && KeyForPeer(p) in peers && p.deviceName != ""
    && exists k :: k in peers && k != KeyForPeer(p) && peers[k].peer.deviceName == p.deviceName
  }

  /** Entries stay under their own address. */
  lemma SeenKeepsKeyed(peers: Peers, now: nat, p: PeerInfo, source: PeerSource, found: Option<Key>, adopt: bool)
    requires Keyed(peers) && IsMatch(peers, p, found)
    ensures Keyed(Seen(peers, now, p, source, found, adopt))
  {
  }

  /** A sighting keeps device names unique exactly when it is not such a take-over. */
  lemma SeenKeepsUniqueExactly(peers: Peers, now: nat, p: PeerInfo, source: PeerSource, found: Option<Key>, adopt: bool)
    requires Unique(peers) && IsMatch(peers, p, found)
    ensures Unique(Seen(peers, now, p, source, found, adopt)) <==> !TakesOver(peers, p)
  {
    var after := Seen(peers, now, p, source, found, adopt);
    if TakesOver(peers, p) {
      var k :| k in peers && k != KeyForPeer(p) && peers[k].peer.deviceName == p.deviceName;
      assert after[k].peer.deviceName == after[KeyForPeer(p)].peer.deviceName;
    }
  }

  lemma StepKeepsGood(peers: Peers, e: Event, c: Setting)
    requires Good(peers, c) && Allowed(peers, e, c)
    ensures Good(Next(peers, e, c), c)
  {
    if e.Sight? {
      SeenKeepsKeyed(peers, e.now, e.peer, e.source, e.found, e.adopt);
      SeenKeepsUniqueExactly(peers, e.now, e.peer, e.source, e.found, e.adopt);
    }
  }

  /** As long as no address changes its device, one device has one entry, under its own address. */
  lemma {:induction false} AlwaysGood(peers: Peers, es: seq<Event>, n: nat, c: Setting)
    requires Good(peers, c) && n <= |es| && IsRun(peers, es, n, c)
    ensures Good(At(peers, es, n, c), c)
  {
    if n > 0 {
      AlwaysGood(peers, es, n - 1, c);
      StepKeepsGood(At(peers, es, n - 1, c), es[n - 1], c);
    }
  }

  // ----- The entry is the latest sighting of the best address -----

  predicate IsOf(e: Event, d: string) {
    e.Sight? && e.peer.deviceName == d
  }

  /** Of the sightings of the device from m to n, the last of those with the best rank. */
  ghost predicate IsLatestBest(es: seq<Event>, m: nat, n: nat, d: string, best: nat, c: Setting)
    requires m <= n <= |es|
  {
    && m <= best < n && IsOf(es[best], d)
    && (forall j :: m <= j < n && IsOf(es[j], d) ==> c.rank(es[best].peer.ip) <= c.rank(es[j].peer.ip))
    && (forall j :: best < j < n && IsOf(es[j], d) ==> c.rank(es[best].peer.ip) < c.rank(es[j].peer.ip))
  }

  ghost predicate IsLast(es: seq<Event>, m: nat, n: nat, d: string, last: nat)
    requires m <= n <= |es|
  {
    m <= last < n && IsOf(es[last], d) && forall j :: last < j < n ==> !IsOf(es[j], d)
  }

  ghost predicate Unseen(es: seq<Event>, m: nat, n: nat, d: string)
    requires m <= n <= |es|
  {
    forall j :: m <= j < n ==> !IsOf(es[j], d)
  }

  ghost predicate NoEntry(peers: Peers, d: string) {
    forall k :: k in peers ==> peers[k].peer.deviceName != d
  }

  /** The entry of the device: peer and source of one sighting, seen last at another. */
  ghost predicate IsEntry(peers: Peers, best: Event, last: Event)
    requires best.Sight? && last.Sight?
  {
    var k := KeyForPeer(best.peer);
    k in peers && peers[k] == TrackedPeer(best.peer, last.now, best.source)
  }

  /** Sightings of other devices leave the device alone. */
  lemma OthersLeaveAlone(peers: Peers, e: Event, d: string, c: Setting)
    requires Good(peers, c) && e.Sight? && Allowed(peers, e, c) && e.peer.deviceName != d
    ensures forall k :: k in peers && peers[k].peer.deviceName == d ==>
              k in Next(peers, e, c) && Next(peers, e, c)[k] == peers[k]
    ensures NoEntry(peers, d) ==> NoEntry(Next(peers, e, c), d)
  {
  }

  lemma FirstSighting(peers: Peers, e: Event, d: string, c: Setting)
    requires Good(peers, c) && e.Sight? && Allowed(peers, e, c) && e.peer.deviceName == d != "" && NoEntry(peers, d)
    ensures IsEntry(Next(peers, e, c), e, e)
  {
  }

  /** A further sighting: the entry is now that of the better address, of the new one if both are as good. */
  lemma FurtherSighting(peers: Peers, best: Event, last: Event, e: Event, c: Setting)
    requires Good(peers, c) && best.Sight? && last.Sight? && IsEntry(peers, best, last)
    requires e.Sight? && Allowed(peers, e, c) && e.peer.deviceName == best.peer.deviceName != ""
    ensures IsEntry(Next(peers, e, c), if c.rank(e.peer.ip) <= c.rank(best.peer.ip) then e else best, e)
  {
    var k := KeyForPeer(best.peer);
    assert peers[k].peer.deviceName == e.peer.deviceName;
    if KeyForPeer(e.peer) == k {
      KeyInjective(e.peer.ip, e.peer.port, best.peer.ip, best.peer.port);
    } else {
      assert KeyForPeer(e.peer) !in peers;
      assert e.found == Some(k);
    }
  }

  lemma LatestBestGrows(es: seq<Event>, m: nat, n: nat, d: string, best: nat, c: Setting)
    requires m <= n < |es| && IsLatestBest(es, m, n, d, best, c) && IsOf(es[n], d)
    ensures IsLatestBest(es, m, n + 1, d, if c.rank(es[n].peer.ip) <= c.rank(es[best].peer.ip) then n else best, c)
  {
  }

  /** What the tracker holds of the device after the sightings from m to n. */
  ghost predicate Tracks(peers: Peers, es: seq<Event>, m: nat, n: nat, d: string, best: nat, last: nat, c: Setting)
    requires m <= n <= |es|
  {
    if Unseen(es, m, n, d) then NoEntry(peers, d)
    else IsLatestBest(es, m, n, d, best, c) && IsLast(es, m, n, d, last) && IsEntry(peers, es[best], es[last])
  }

  lemma TracksOn(peers: Peers, es: seq<Event>, m: nat, n: nat, d: string, best: nat, last: nat, c: Setting)
    returns (best': nat, last': nat)
    requires Good(peers, c) && m <= n < |es| && es[n].Sight? && Allowed(peers, es[n], c)
    requires d != "" && Tracks(peers, es, m, n, d, best, last, c)
    ensures Tracks(Next(peers, es[n], c), es, m, n + 1, d, best', last', c)
  {
    var e := es[n];
    if !IsOf(e, d) {
      OthersLeaveAlone(peers, e, d, c);
      best', last' := best, last;
      assert Unseen(es, m, n + 1, d) <==> Unseen(es, m, n, d);
    } else {
      assert !Unseen(es, m, n + 1, d);
      if Unseen(es, m, n, d) {
        FirstSighting(peers, e, d, c);
        best', last' := n, n;
      } else {
        FurtherSighting(peers, es[best], es[last], e, c);
        LatestBestGrows(es, m, n, d, best, c);
        best', last' := if c.rank(e.peer.ip) <= c.rank(es[best].peer.ip) then n else best, n;
      }
    }
  }

  /** The step leaves the device's entry, if it has one, in the map. Every sighting does. */
  ghost predicate Leaves(peers: Peers, e: Event, d: string, c: Setting) {
    e.Sight? || forall k :: k in peers && peers[k].peer.deviceName == d ==> k in Next(peers, e, c)
  }

  /** Prunings and removals leave the entries they do not remove as they are. */
  lemma RemovalsLeaveAlone(peers: Peers, e: Event, c: Setting)
    requires !e.Sight?
    ensures forall k :: k in Next(peers, e, c) ==> k in peers && Next(peers, e, c)[k] == peers[k]
  {
  }

  lemma TracksOver(peers: Peers, es: seq<Event>, m: nat, n: nat, d: string, best: nat, last: nat, c: Setting)
    requires m <= n < |es| && !es[n].Sight? && Leaves(peers, es[n], d, c)
    requires Tracks(peers, es, m, n, d, best, last, c)
    ensures Tracks(Next(peers, es[n], c), es, m, n + 1, d, best, last, c)
  {
    RemovalsLeaveAlone(peers, es[n], c);
    assert Unseen(es, m, n + 1, d) <==> Unseen(es, m, n, d);
    if !Unseen(es, m, n, d) {
      var k := KeyForPeer(es[best].peer);
      assert peers[k].peer.deviceName == d;
    }
  }

  /** A step that does not leave the device's entry takes all there is of the device, so that its next
      sighting is a first one again. */
  lemma RemovalStartsOver(peers: Peers, e: Event, d: string, c: Setting)
    requires Good(peers, c) && d != "" && !Leaves(peers, e, d, c)
    ensures NoEntry(Next(peers, e, c), d)
  {
    RemovalsLeaveAlone(peers, e, c);
    var k :| k in peers && peers[k].peer.deviceName == d && k !in Next(peers, e, c);
    assert forall j :: j in peers && peers[j].peer.deviceName == d ==> j == k;
  }

  /** From any moment at which the device is not listed, for as long as no pruning or removal takes its
      entry, however many there are of other entries: its entry is the most recent sighting among its best
      addresses, marked as seen when any of its addresses was last seen. */
  lemma {:induction false} EntryIsLatestBest(peers: Peers, es: seq<Event>, m: nat, n: nat, d: string, c: Setting)
    returns (best: nat, last: nat)
    requires Good(peers, c) && m <= n <= |es| && IsRun(peers, es, n, c)
    requires d != "" && NoEntry(At(peers, es, m, c), d)
    requires forall i :: m <= i < n ==> Leaves(At(peers, es, i, c), es[i], d, c)
    ensures Tracks(At(peers, es, n, c), es, m, n, d, best, last, c)
    decreases n
  {
    best, last := m, m;
    if m < n {
      var before := At(peers, es, n - 1, c);
      best, last := EntryIsLatestBest(peers, es, m, n - 1, d, c);
      AlwaysGood(peers, es, n - 1, c);
      assert Leaves(before, es[n - 1], d, c);
      if es[n - 1].Sight? {
        best, last := TracksOn(before, es, m, n - 1, d, best, last, c);
      } else {
        TracksOver(before, es, m, n - 1, d, best, last, c);
      }
    }
  }

  // ----- Replaying the events -----

  /** A listener's list of devices by name. */
  type Shown = map<string, PeerInfo>

  function Replay(m: Shown, events: seq<PeerEvent>): Shown {
    if events == [] then m
    else
      var before := Replay(m, events[..|events| - 1]);
      match events[|events| - 1]
      case Discovered(p) => before[p.deviceName := p]
      case Updated(p) => before[p.deviceName := p]
      case Lost(p) => before - {p.deviceName}
  }

  /** The list shows each entry under its name, and nothing else. */
  ghost predicate Shows(m: Shown, peers: Peers) {
    && (forall k :: k in peers ==> peers[k].peer.deviceName in m && m[peers[k].peer.deviceName] == peers[k].peer)
    && (forall d :: d in m ==> exists k :: k in peers && peers[k].peer.deviceName == d)
  }

  /** No two entries have the same name, the empty one included. */
  ghost predicate Distinct(peers: Peers) {
    forall j, k :: j in peers && k in peers && peers[j].peer.deviceName == peers[k].peer.deviceName ==> j == k
  }

  /** The list of an event log's reader is by name, so it exists exactly while names are distinct: two
      unnamed devices cannot both be on it. */
  lemma ListedByNameExactly(peers: Peers)
    requires Keyed(peers)
    ensures (exists m :: Shows(m, peers)) <==> Distinct(peers)
  {
    if Distinct(peers) {
      var m := map k | k in peers :: peers[k].peer.deviceName := peers[k].peer;
      assert Shows(m, peers);
    }
    forall m, j, k | Shows(m, peers) && j in peers && k in peers && peers[j].peer.deviceName == peers[k].peer.deviceName
      ensures j == k
    {
      assert peers[j].peer == peers[k].peer;
    }
  }

  /** So its devices are those that get_peers lists. */
  lemma ShownIsGetPeers(m: Shown, peers: Peers)
    requires Shows(m, peers)
    ensures m.Values == set k | k in peers :: peers[k].peer
  {
    forall p | p in m.Values
      ensures p in set k | k in peers :: peers[k].peer
    {
      var d :| d in m && m[d] == p;
      var k :| k in peers && peers[k].peer.deviceName == d;
    }
    forall k | k in peers
      ensures peers[k].peer in m.Values
    {
      assert m[peers[k].peer.deviceName] == peers[k].peer;
    }
  }

  lemma ReplayOne(m: Shown, e: PeerEvent)
    ensures Replay(m, [e]) == if e.Lost? then m - {e.peer.deviceName} else m[e.peer.deviceName := e.peer]
  {
    assert [e][..0] == [];
    assert Replay(m, [e][..0]) == m;
  }

  /** A sighting leaves the entries of other devices alone. */
  lemma SeenOthers(peers: Peers, e: Event, c: Setting)
    requires Good(peers, c) && e.Sight? && Allowed(peers, e, c) && Distinct(Next(peers, e, c))
    ensures var after, p := Next(peers, e, c), e.peer;
            && (forall k :: k in after && after[k].peer.deviceName != p.deviceName ==>
                  k in peers && peers[k].peer == after[k].peer)
            && (forall k :: k in peers && peers[k].peer.deviceName != p.deviceName ==>
                  k in after && peers[k].peer == after[k].peer)
  {
  }

  /** The entry a sighting refreshes or makes, if it shows anything new. */
  lemma SeenEntries(peers: Peers, e: Event, c: Setting)
    requires Good(peers, c) && e.Sight? && Allowed(peers, e, c) && Distinct(Next(peers, e, c))
    ensures var after, p := Next(peers, e, c), e.peer;
            && (if SeenEvent(peers, p, e.found, e.adopt).Some? then KeyForPeer(p) in after && after[KeyForPeer(p)].peer == p
                else forall k :: k in after <==> k in peers)
            && (SeenEvent(peers, p, e.found, e.adopt).None? ==> forall k :: k in after ==> after[k].peer == peers[k].peer)
  {
  }

  lemma SightingIsShown(m: Shown, peers: Peers, e: Event, c: Setting)
    requires Good(peers, c) && e.Sight? && Allowed(peers, e, c) && Shows(m, peers) && Distinct(Next(peers, e, c))
    ensures Shows(Replay(m, Emits(peers, e)), Next(peers, e, c))
  {
    var event, after, p := SeenEvent(peers, e.peer, e.found, e.adopt), Next(peers, e, c), e.peer;
    SeenOthers(peers, e, c);
    SeenEntries(peers, e, c);
    if event.None? {
      ShowsAsWell(m, peers, after);
    } else {
      ReplayOne(m, event.value);
      EntryIsShown(m, peers, after, p);
    }
  }

  lemma ShowsAsWell(m: Shown, peers: Peers, after: Peers)
    requires Shows(m, peers) && (forall k :: k in after <==> k in peers)
             && forall k :: k in after ==> after[k].peer == peers[k].peer
    ensures Shows(m, after)
  {
    forall d | d in m
      ensures exists k :: k in after && after[k].peer.deviceName == d
    {
      var k :| k in peers && peers[k].peer.deviceName == d;
      assert after[k].peer.deviceName == d;
    }
  }

  lemma EntryIsShown(m: Shown, peers: Peers, after: Peers, p: PeerInfo)
    requires Shows(m, peers) && Distinct(after) && KeyForPeer(p) in after && after[KeyForPeer(p)].peer == p
    requires forall k :: k in after && after[k].peer.deviceName != p.deviceName ==>
               k in peers && peers[k].peer == after[k].peer
    requires forall k :: k in peers && peers[k].peer.deviceName != p.deviceName ==>
               k in after && peers[k].peer == after[k].peer
    ensures Shows(m[p.deviceName := p], after)
  {
    var shown := m[p.deviceName := p];
    forall d | d in shown
      ensures exists k :: k in after && after[k].peer.deviceName == d
    {
      if d == p.deviceName {
        assert after[KeyForPeer(p)].peer.deviceName == d;
      } else {
        var k :| k in peers && peers[k].peer.deviceName == d;
        assert after[k].peer.deviceName == d;
      }
    }
    forall k | k in after && after[k].peer.deviceName == p.deviceName
      ensures after[k].peer == p
    {
      assert k == KeyForPeer(p);
    }
  }

  function NamesOf(peers: Peers, keys: seq<Key>): set<string> {
    set k | k in keys && k in peers :: peers[k].peer.deviceName
  }

  /** Losing entries one by one takes exactly their names off the list. */
  lemma {:induction false} LostAreTakenOff(m: Shown, peers: Peers, keys: seq<Key>)
    requires forall k :: k in keys ==> k in peers
    ensures Replay(m, LostOf(peers, keys)) == m - NamesOf(peers, keys)
    decreases |keys|
  {
    if keys == [] {
      assert NamesOf(peers, keys) == {};
    } else {
      var front, k := keys[..|keys| - 1], keys[|keys| - 1];
      LostAreTakenOff(m, peers, front);
      var events := LostOf(peers, keys);
      assert events[..|events| - 1] == LostOf(peers, front);
      assert keys == front + [k];
    }
  }

  lemma RemovalIsShown(m: Shown, peers: Peers, after: Peers, keys: seq<Key>)
    requires Distinct(peers) && Shows(m, peers) && ListsRemoved(peers, after, keys)
    requires forall k :: k in after ==> k in peers && after[k] == peers[k]
    ensures Shows(Replay(m, LostOf(peers, keys)), after)
  {
    LostAreTakenOff(m, peers, keys);
    var gone := NamesOf(peers, keys);
    forall k | k in after
      ensures peers[k].peer.deviceName !in gone
    {
      assert forall j :: j in keys && peers[j].peer.deviceName == peers[k].peer.deviceName ==> j == k;
    }
    forall d | d in m && d !in gone
      ensures exists k :: k in after && after[k].peer.deviceName == d
    {
      var k :| k in peers && peers[k].peer.deviceName == d;
      assert k in after by {
        assert forall j :: j in keys ==> peers[j].peer.deviceName in gone;
      }
    }
  }

  /** The events of a pruning are those of the entries it removes. */
  lemma PruneEvents(before: Peers, after: Peers, keys: seq<Key>, events: seq<PeerEvent>)
    requires LostExactly(before, after, keys, events)
    ensures ListsRemoved(before, after, keys) && events == LostOf(before, keys)
  {
    EventsInOrder(before, keys, events);
  }

  lemma {:induction false} EventsInOrder(before: Peers, keys: seq<Key>, events: seq<PeerEvent>)
    requires |keys| == |events| && forall i :: 0 <= i < |keys| ==>
               keys[i] in before && events[i] == Lost(before[keys[i]].peer)
    ensures events == LostOf(before, keys)
  {
    if keys != [] {
      var n := |keys| - 1;
      EventsInOrder(before, keys[..n], events[..n]);
      assert events == events[..n] + [events[n]];
    }
  }

  /** A removal of an entry that is there, or of none. */
  lemma RemoveIsShown(m: Shown, peers: Peers, k: Key, c: Setting)
    requires Good(peers, c) && Shows(m, peers) && Distinct(peers) && Distinct(peers - {k})
    ensures Shows(Replay(m, LostOf(peers, [k])), peers - {k})
  {
    if k in peers {
      RemovalIsShown(m, peers, peers - {k}, [k]);
    } else {
      assert peers - {k} == peers;
      assert [k][..0] == [];
      assert LostOf(peers, [k]) == [];
    }
  }

  lemma StepIsShown(m: Shown, peers: Peers, e: Event, c: Setting)
    requires Good(peers, c) && Allowed(peers, e, c) && Shows(m, peers) && Distinct(Next(peers, e, c))
    ensures Shows(Replay(m, Emits(peers, e)), Next(peers, e, c))
  {
    ListedByNameExactly(peers);
    match e
    case Sight(_, _, _, _, _) => SightingIsShown(m, peers, e, c);
    case Prune(_, keys) => RemovalIsShown(m, peers, Next(peers, e, c), keys);
    case PruneOthers(_, keys) => RemovalIsShown(m, peers, Next(peers, e, c), keys);
    case Remove(ip, port) => RemoveIsShown(m, peers, KeyOf(ip, port), c);
  }

  /** All events sent out up to event `n`. */
  function Sent(peers: Peers, es: seq<Event>, n: nat, c: Setting): seq<PeerEvent>
    requires n <= |es|
  {
    if n == 0 then [] else Sent(peers, es, n - 1, c) + Emits(At(peers, es, n - 1, c), es[n - 1])
  }

  lemma {:induction false} ReplayMore(m: Shown, a: seq<PeerEvent>, b: seq<PeerEvent>)
    ensures Replay(m, a + b) == Replay(Replay(m, a), b)
    decreases |b|
  {
    if b == [] {
      assert a + b == a;
    } else {
      var front := b[..|b| - 1];
      assert (a + b)[..|a + b| - 1] == a + front;
      ReplayMore(m, a, front);
    }
  }

  /** A sighting of an unnamed device on a new address while another unnamed device is listed. */
  ghost predicate IsSecondUnnamed(peers: Peers, e: Event) {
    && e.Sight? && e.peer.deviceName == "" && KeyForPeer(e.peer) !in peers
    && exists k :: k in peers && peers[k].peer.deviceName == ""
  }

  /** Names stay distinct exactly without such a sighting. */
  lemma StepKeepsDistinctExactly(peers: Peers, e: Event, c: Setting)
    requires Good(peers, c) && Distinct(peers) && Allowed(peers, e, c)
    ensures Distinct(Next(peers, e, c)) <==> !IsSecondUnnamed(peers, e)
  {
    StepKeepsGood(peers, e, c);
    if IsSecondUnnamed(peers, e) {
      var k :| k in peers && peers[k].peer.deviceName == "";
      assert k in Next(peers, e, c) && KeyForPeer(e.peer) in Next(peers, e, c);
    }
  }

  /** The list was true before each of the first `n` events and is true after them. */
  ghost predicate IsTrueUpTo(m: Shown, peers: Peers, es: seq<Event>, n: nat, c: Setting)
    requires n <= |es|
  {
    Shows(Replay(m, Sent(peers, es, n, c)), At(peers, es, n, c)) && (n > 0 ==> IsTrueUpTo(m, peers, es, n - 1, c))
  }

  ghost predicate NeverTwoUnnamed(peers: Peers, es: seq<Event>, n: nat, c: Setting)
    requires n <= |es|
  {
    n > 0 ==> NeverTwoUnnamed(peers, es, n - 1, c) && !IsSecondUnnamed(At(peers, es, n - 1, c), es[n - 1])
  }

  lemma ReplayStep(m: Shown, peers: Peers, es: seq<Event>, n: nat, c: Setting)
    requires n < |es| && Good(At(peers, es, n, c), c) && Allowed(At(peers, es, n, c), es[n], c)
    requires Shows(Replay(m, Sent(peers, es, n, c)), At(peers, es, n, c))
    ensures Shows(Replay(m, Sent(peers, es, n + 1, c)), At(peers, es, n + 1, c))
            <==> !IsSecondUnnamed(At(peers, es, n, c), es[n])
  {
    var before, e := At(peers, es, n, c), es[n];
    var shown := Replay(m, Sent(peers, es, n, c));
    ReplayMore(m, Sent(peers, es, n, c), Emits(before, e));
    ListedByNameExactly(before);
    StepKeepsDistinctExactly(before, e, c);
    StepKeepsGood(before, e, c);
    ListedByNameExactly(Next(before, e, c));
    if !IsSecondUnnamed(before, e) {
      StepIsShown(shown, before, e, c);
    }
  }

  /** A listener that starts with a true list and replays every event by device name has a true list after
      every sighting, pruning and removal exactly as long as no two unnamed devices are seen at once. */
  lemma {:induction false} ReplayIsTrueExactly(m: Shown, peers: Peers, es: seq<Event>, n: nat, c: Setting)
    requires Good(peers, c) && Shows(m, peers) && n <= |es| && IsRun(peers, es, n, c)
    ensures IsTrueUpTo(m, peers, es, n, c) <==> NeverTwoUnnamed(peers, es, n, c)
  {
    if n > 0 {
      ReplayIsTrueExactly(m, peers, es, n - 1, c);
      AlwaysGood(peers, es, n - 1, c);
      if IsTrueUpTo(m, peers, es, n - 1, c) {
        ReplayStep(m, peers, es, n - 1, c);
      }
    }
  }
}
