/** The tracker that merges sightings of one device on several addresses (discovery/udp.rs 90-308). */
module Tracker {
  import opened Wrappers
  import opened Octets
  import opened Text

  /** Instants and durations in nanoseconds. */
  const SECOND: nat := 1_000_000_000

  /** The priority of an address in none of the known subnets. */
  const WORST: nat := U64_LIMIT - 1

  datatype PeerInfo = PeerInfo(
    deviceName: string,
    deviceType: string,
    os: string,
    ip: string,
    port: nat,
    pairingPin: Option<string>,
    deviceId: Option<string>)

  datatype PeerSource = Udp | Mdns | Manual

  datatype TrackedPeer = TrackedPeer(peer: PeerInfo, lastSeen: nat, source: PeerSource)

  datatype PeerEvent = Discovered(peer: PeerInfo) | Updated(peer: PeerInfo) | Lost(peer: PeerInfo)

  type Key = string
  type Peers = map<Key, TrackedPeer>
  type Ipv4 = s: seq<byte> | |s| == 4 witness [0, 0, 0, 0]

  // ----- Addresses -----

  function KeyForPeer(p: PeerInfo): Key {
    KeyOf(p.ip, p.port)
  }

  function KeyOf(ip: string, port: nat): Key {
    ip + ":" + Decimal(port)
  }

  lemma LastColon(ip: string, port: nat)
    ensures var k := KeyOf(ip, port);
            && |ip| < |k| && k[|ip|] == ':' && k[..|ip|] == ip && k[|ip| + 1..] == Decimal(port)
            && forall i :: |ip| < i < |k| ==> k[i] != ':'
  {
    var k := KeyOf(ip, port);
    assert forall i :: |ip| < i < |k| ==> k[i] == Decimal(port)[i - |ip| - 1];
  }

  /** A key names one address: the text behind its last colon is the port. */
  lemma KeyInjective(ip: string, port: nat, ip': string, port': nat)
    requires KeyOf(ip, port) == KeyOf(ip', port')
    ensures ip == ip' && port == port'
  {
    LastColon(ip, port);
    LastColon(ip', port');
    assert |ip| == |ip'|;
    DecimalInjective(port, port');
  }

  function ParseDigits(s: string, acc: nat): Option<nat> {
    if s == "" then Some(acc)
    else if IsDigit(s[0]) then ParseDigits(s[1..], 10 * acc + (s[0] - '0') as nat)
    else None
  }

  /** One to three digits without a leading zero, below 256. */
  function ParseOctet(s: string): Option<byte> {
    if |s| == 0 || |s| > 3 || (|s| > 1 && s[0] == '0') then None
    else
      match ParseDigits(s, 0)
      case Some(n) => if n < 256 then Some(n) else None
      case None => None
  }

  function ParseIpv4(ip: string): Option<Ipv4> {
    var parts := Split(ip, '.');
    if |parts| != 4 then None
    else
      match (ParseOctet(parts[0]), ParseOctet(parts[1]), ParseOctet(parts[2]), ParseOctet(parts[3]))
      case (Some(a), Some(b), Some(c), Some(d)) => Some([a, b, c, d])
      case _ => None
  }

  /** The subnet of an address: its first three octets. */
  function SubnetOf(ip: string): Option<Ipv4> {
    match ParseIpv4(ip)
    case Some(octets) => Some([octets[0], octets[1], octets[2], 0])
    case None => None
  }

  function Rank(subnet: Ipv4, subnets: seq<Ipv4>): nat {
    if subnets == [] then WORST
    else if subnets[|subnets| - 1] == subnet && subnet !in subnets[..|subnets| - 1] then |subnets| - 1
    else Rank(subnet, subnets[..|subnets| - 1])
  }

  /** The rank of an address: the first place its subnet has in the list, or the worst there is. */
  function Priority(ip: string, subnets: seq<Ipv4>): nat {
    match SubnetOf(ip)
    case Some(subnet) => Rank(subnet, subnets)
    case None => WORST
  }

  lemma {:induction false} RankIsFirstPlace(subnet: Ipv4, subnets: seq<Ipv4>, n: nat)
    requires n <= |subnets| && subnet !in subnets[..n]
    ensures n < |subnets| && subnets[n] == subnet ==> Rank(subnet, subnets) == n
    ensures n == |subnets| ==> Rank(subnet, subnets) == WORST
    decreases |subnets|
  {
    if subnets != [] {
      var front := subnets[..|subnets| - 1];
      if n == |subnets| {
        assert subnet !in front[..n - 1] && subnets[n - 1] in subnets[..n];
        RankIsFirstPlace(subnet, front, n - 1);
      } else {
        assert front[..n] == subnets[..n];
        RankIsFirstPlace(subnet, front, n);
        assert n < |front| && subnets[n] == subnet ==> front[n] in front;
        assert n == |front| ==> front == subnets[..n];
      }
    }
  }

  method IpPriority(ip: string, subnets: seq<Ipv4>) returns (n: nat)
    ensures n == Priority(ip, subnets)
  {
    var octets := ParseIpv4(ip);
    if octets.Some? {
      var subnet: Ipv4 := [octets.value[0], octets.value[1], octets.value[2], 0];
      assert SubnetOf(ip) == Some(subnet);
      for i := 0 to |subnets|
        invariant subnet !in subnets[..i]
      {
        if subnet == subnets[i] {
          RankIsFirstPlace(subnet, subnets, i);
          return i;
        }
        assert subnets[..i + 1] == subnets[..i] + [subnets[i]];
      }
      RankIsFirstPlace(subnet, subnets, |subnets|);
    }
    n := WORST;
  }

  // ----- Sightings -----

  /** An entry of the device under another address, if any: the one the search of the map finds. */
  ghost predicate IsMatch(peers: Peers, p: PeerInfo, found: Option<Key>) {
    match found
    case Some(k) => p.deviceName != "" && k in peers && peers[k].peer.deviceName == p.deviceName
    case None => p.deviceName != "" ==> forall k :: k in peers ==> peers[k].peer.deviceName != p.deviceName
  }

  /** The map after a sighting: an entry of the same address is refreshed; another entry of the device is
      replaced by an address at least as good, or only marked as seen; any other peer is new. */
  function Seen(peers: Peers, now: nat, p: PeerInfo, source: PeerSource, found: Option<Key>, adopt: bool): Peers
  {
    var entry := TrackedPeer(p, now, source);
    if KeyForPeer(p) in peers || found.None? || found.value !in peers then peers[KeyForPeer(p) := entry]
    else if adopt then (peers - {found.value})[KeyForPeer(p) := entry]
    else peers[found.value := peers[found.value].(lastSeen := now)]
  }

  function SeenEvent(peers: Peers, p: PeerInfo, found: Option<Key>, adopt: bool): Option<PeerEvent>
  {
    if KeyForPeer(p) in peers then (if peers[KeyForPeer(p)].peer != p then Some(Updated(p)) else None)
    else if found.None? then Some(Discovered(p))
    else if adopt then Some(Updated(p))
    else None
  }

  // ----- Expiry -----

  /** How long an entry lives unseen. */
  function MaxAge(source: PeerSource, ttl: nat): nat {
    match source
    case Udp => ttl
    case Manual => if ttl < SECOND then ttl * 3 else if ttl > 30 * SECOND then ttl else 30 * SECOND
    case Mdns => if ttl < SECOND then ttl * 5 else 300 * SECOND
  }

  predicate IsExpired(e: TrackedPeer, now: nat, ttl: nat) {
    now > e.lastSeen + MaxAge(e.source, ttl)
  }

  /** The other pruning leaves broadcast peers alone. */
  predicate IsExpiredManual(e: TrackedPeer, now: nat, ttl: nat) {
    e.source != Udp && IsExpired(e, now, ttl)
  }

  function Pruned(peers: Peers, now: nat, ttl: nat): Peers {
    map k | k in peers && !IsExpired(peers[k], now, ttl) :: peers[k]
  }

  function PrunedManual(peers: Peers, now: nat, ttl: nat): Peers {
    map k | k in peers && !IsExpiredManual(peers[k], now, ttl) :: peers[k]
  }

  /** One event for each removed entry, in the order of some listing of their keys. */
  ghost predicate LostExactly(before: Peers, after: Peers, keys: seq<Key>, events: seq<PeerEvent>) {
    && |keys| == |events| && (forall i, j :: 0 <= i < j < |keys| ==> keys[i] != keys[j])
    && (forall k :: k in keys <==> k in before && k !in after)
    && forall i :: 0 <= i < |keys| ==> keys[i] in before && events[i] == Lost(before[keys[i]].peer)
  }

  /** Pruning broadcast-only leftovers after the manual pruning of the same instant is pruning once. */
  lemma ManualPruneFirst(peers: Peers, now: nat, ttl: nat)
    ensures Pruned(PrunedManual(peers, now, ttl), now, ttl) == Pruned(peers, now, ttl)
  {
    var a, b := Pruned(PrunedManual(peers, now, ttl), now, ttl), Pruned(peers, now, ttl);
    assert forall k :: k in a <==> k in b;
    assert forall k :: k in a ==> a[k] == b[k];
  }

  class PeerTracker {
    var peers: Peers
    const ttl: nat
    var subnets: Option<seq<Ipv4>>

    constructor (ttl: nat, subnets: Option<seq<Ipv4>>)
      ensures peers == map[] && this.ttl == ttl && this.subnets == subnets
    {
      peers := map[];
      this.ttl := ttl;
      this.subnets := subnets;
    }

    /** Records a sighting; without a list of its own the tracker ranks by the machine's subnets. */
    method RecordSeenWithSource(now: nat, p: PeerInfo, source: PeerSource, machine: seq<Ipv4>)
      returns (e: Option<PeerEvent>, ghost found: Option<Key>, ghost adopt: bool)
      modifies this`peers
      ensures IsMatch(old(peers), p, found)
      ensures peers == Seen(old(peers), now, p, source, found, adopt)
      ensures e == SeenEvent(old(peers), p, found, adopt)
      ensures var known := if subnets.Some? then subnets.value else machine;
              found.Some? && KeyForPeer(p) !in old(peers) ==>
                (adopt <==> Priority(p.ip, known) <= Priority(old(peers)[found.value].peer.ip, known))
    {
      var key := KeyForPeer(p);
      var matching := FindByName(p);
      found, adopt := matching, false;
      if key in peers {
        var tracked := peers[key];
        peers := peers[key := TrackedPeer(p, now, source)];
        return if tracked.peer != p then Some(Updated(p)) else None, found, adopt;
      }
      if matching.Some? {
        var known := if subnets.Some? then subnets.value else machine;
        var before := IpPriority(peers[matching.value].peer.ip, known);
        var after := IpPriority(p.ip, known);
        adopt := after <= before;
        if after <= before {
          peers := peers - {matching.value};
          peers := peers[key := TrackedPeer(p, now, source)];
          return Some(Updated(p)), found, adopt;
        } else {
          peers := peers[matching.value := peers[matching.value].(lastSeen := now)];
          return None, found, adopt;
        }
      }
      peers := peers[key := TrackedPeer(p, now, source)];
      e := Some(Discovered(p));
    }

    /** Any entry of the device; the map's own order decides which. */
    method FindByName(p: PeerInfo) returns (found: Option<Key>)
      ensures IsMatch(peers, p, found)
    {
      var rest := peers.Keys;
      while rest != {}
        invariant rest <= peers.Keys
        invariant p.deviceName != "" ==> forall k :: k in peers && k !in rest ==> peers[k].peer.deviceName != p.deviceName
        decreases |rest|
      {
        var k :| k in rest;
        if p.deviceName != "" && peers[k].peer.deviceName == p.deviceName {
          return Some(k);
        }
        rest := rest - {k};
      }
      found := None;
    }

    method PruneExpired(now: nat) returns (events: seq<PeerEvent>, ghost keys: seq<Key>)
      modifies this`peers
      ensures peers == Pruned(old(peers), now, ttl)
      ensures LostExactly(old(peers), peers, keys, events)
    {
      var expired, rest := [], peers.Keys;
      events := [];
      while rest != {}
        invariant rest <= peers.Keys && |expired| == |events|
        invariant forall k :: k in expired <==> k in peers && k !in rest && IsExpired(peers[k], now, ttl)
        invariant forall i, j :: 0 <= i < j < |expired| ==> expired[i] != expired[j]
        invariant forall i :: 0 <= i < |expired| ==> expired[i] in peers && events[i] == Lost(peers[expired[i]].peer)
        decreases |rest|
      {
        var k :| k in rest;
        if IsExpired(peers[k], now, ttl) {
          expired := expired + [k];
          events := events + [Lost(peers[k].peer)];
        }
        rest := rest - {k};
      }
      keys := expired;
      RemoveAll(expired);
    }

    method PruneExpiredManual(now: nat) returns (events: seq<PeerEvent>, ghost keys: seq<Key>)
      modifies this`peers
      ensures peers == PrunedManual(old(peers), now, ttl)
      ensures LostExactly(old(peers), peers, keys, events)
    {
      var expired, rest := [], peers.Keys;
      events := [];
      while rest != {}
        invariant rest <= peers.Keys && |expired| == |events|
        invariant forall k :: k in expired <==> k in peers && k !in rest && IsExpiredManual(peers[k], now, ttl)
        invariant forall i, j :: 0 <= i < j < |expired| ==> expired[i] != expired[j]
        invariant forall i :: 0 <= i < |expired| ==> expired[i] in peers && events[i] == Lost(peers[expired[i]].peer)
        decreases |rest|
      {
        var k :| k in rest;
        if IsExpiredManual(peers[k], now, ttl) {
          expired := expired + [k];
          events := events + [Lost(peers[k].peer)];
        }
        rest := rest - {k};
      }
      keys := expired;
      RemoveAll(expired);
    }

    method RemoveAll(keys: seq<Key>)
      modifies this`peers
      ensures peers == map k | k in old(peers) && k !in keys :: old(peers)[k]
    {
      for i := 0 to |keys|
        invariant peers == map k | k in old(peers) && k !in keys[..i] :: old(peers)[k]
      {
        assert keys[..i + 1] == keys[..i] + [keys[i]];
        peers := peers - {keys[i]};
      }
      assert keys[..|keys|] == keys;
    }

    method RemovePeer(ip: string, port: nat) returns (e: Option<PeerEvent>)
      modifies this`peers
      ensures peers == old(peers) - {KeyOf(ip, port)}
      ensures e == if KeyOf(ip, port) in old(peers) then Some(Lost(old(peers)[KeyOf(ip, port)].peer)) else None
    {
      var key := KeyOf(ip, port);
      e := if key in peers then Some(Lost(peers[key].peer)) else None;
      peers := peers - {key};
    }
  }
}
