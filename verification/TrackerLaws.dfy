/** What the tracker reads off addresses and clocks (discovery/udp.rs 129-144, 223-295). */
module TrackerLaws {
  import opened Wrappers
  import opened Octets
  import opened Text
  import opened Tracker

  // ----- Addresses -----

  function DigitsOf(octets: Ipv4): seq<string> {
    [Decimal(octets[0]), Decimal(octets[1]), Decimal(octets[2]), Decimal(octets[3])]
  }

  /** An address as text: four numbers with dots between them. */
  function Dotted(octets: Ipv4): string {
    Join(DigitsOf(octets), '.')
  }

  lemma {:induction false} OneMoreDigit(s: string, c: char, acc: nat)
    ensures ParseDigits(s + [c], acc)
            == if ParseDigits(s, acc).Some? && IsDigit(c) then Some(10 * ParseDigits(s, acc).value + DigitOf(c)) else None
    decreases |s|
  {
    var t := s + [c];
    if s == "" {
      assert t[0] == c && t[1..] == "";
    } else {
      assert t[0] == s[0] && t[1..] == s[1..] + [c];
      if IsDigit(s[0]) {
        OneMoreDigit(s[1..], c, 10 * acc + DigitOf(s[0]));
      }
    }
  }

  /** Digits without a leading zero are the rendering of their number. */
  lemma {:induction false} DigitsAreDecimal(s: string)
    requires s != "" && (|s| > 1 ==> s[0] != '0')
    ensures ParseDigits(s, 0) == ParseDecimal(s)
    ensures s[0] != '0' && ParseDecimal(s).Some? ==> ParseDecimal(s).value > 0
    decreases |s|
  {
    if |s| == 1 {
      assert s[1..] == "" && s == [s[0]];
      OneMoreDigit("", s[0], 0);
      assert "" + [s[0]] == s;
    } else {
      var front, last := s[..|s| - 1], s[|s| - 1];
      LastApart(s);
      DigitsAreDecimal(front);
      OneMoreDigit(front, last, 0);
      ParseOfMore(s, front, last);
    }
  }

  lemma DecimalLengths(n: nat)
    ensures |Decimal(n)| > 3 ==> n >= 1000
    ensures n < 256 ==> |Decimal(n)| <= 3
    ensures |Decimal(n)| > 1 ==> Decimal(n)[0] != '0'
  {
    if n >= 10 {
      DecimalParts(n);
      FirstDigit(n);
      if n >= 100 {
        DecimalParts(n / 10);
      }
    }
  }

  lemma {:induction false} FirstDigit(n: nat)
    requires n > 0
    ensures Decimal(n)[0] != '0'
  {
    if n < 10 {
      DigitsMatch('0', n);
    } else {
      DecimalParts(n);
      FirstDigit(n / 10);
    }
  }

  /** An octet is read exactly from the rendering of a number below 256. */
  lemma OctetExactly(s: string, n: nat)
    ensures ParseOctet(s) == Some(n) <==> n < 256 && s == Decimal(n)
  {
    DecimalLengths(n);
    ParseDecimalExactly(s, n);
    if s != "" && (|s| > 1 ==> s[0] != '0') {
      DigitsAreDecimal(s);
    }
  }

  lemma DecimalHasNoDot(n: nat)
    ensures '.' !in Decimal(n)
  {
  }

  lemma SplitExactly(ip: string, octets: Ipv4)
    ensures Split(ip, '.') == DigitsOf(octets) <==> ip == Dotted(octets)
  {
    SplitJoins(ip, '.');
    forall i | 0 <= i < 4
      ensures '.' !in DigitsOf(octets)[i]
    {
      DecimalHasNoDot(octets[i]);
    }
    SplitOfJoin(DigitsOf(octets), '.');
  }

  /** The text is read as this address exactly when it is the address's text. */
  lemma Ipv4Exactly(ip: string, octets: Ipv4)
    ensures ParseIpv4(ip) == Some(octets) <==> ip == Dotted(octets)
  {
    SplitExactly(ip, octets);
    if |Split(ip, '.')| == 4 {
      FourOctets(Split(ip, '.'), octets);
      assert octets == [octets[0], octets[1], octets[2], octets[3]];
    }
  }

  lemma DigitsApart(parts: seq<string>, octets: Ipv4)
    requires |parts| == 4
    ensures parts == DigitsOf(octets) <==> forall i :: 0 <= i < 4 ==> parts[i] == Decimal(octets[i])
  {
  }

  lemma FourOctets(parts: seq<string>, octets: Ipv4)
    requires |parts| == 4
    ensures (ParseOctet(parts[0]), ParseOctet(parts[1]), ParseOctet(parts[2]), ParseOctet(parts[3]))
            == (Some(octets[0]), Some(octets[1]), Some(octets[2]), Some(octets[3]))
            <==> parts == DigitsOf(octets)
  {
    OctetExactly(parts[0], octets[0]);
    OctetExactly(parts[1], octets[1]);
    OctetExactly(parts[2], octets[2]);
    OctetExactly(parts[3], octets[3]);
    DigitsApart(parts, octets);
  }

  /** The rank of an address is the first place of its subnet, the address with 0 for its last number. */
  lemma PriorityExactly(octets: Ipv4, subnets: seq<Ipv4>, n: nat)
    requires n <= |subnets| && forall i :: 0 <= i < n ==> subnets[i] != [octets[0], octets[1], octets[2], 0]
    ensures n < |subnets| && subnets[n] == [octets[0], octets[1], octets[2], 0] ==> Priority(Dotted(octets), subnets) == n
    ensures n == |subnets| ==> Priority(Dotted(octets), subnets) == WORST
  {
    Ipv4Exactly(Dotted(octets), octets);
    RankIsFirstPlace([octets[0], octets[1], octets[2], 0], subnets, n);
  }

  /** What is not an address has the worst rank. */
  lemma NoAddressIsWorst(ip: string, subnets: seq<Ipv4>)
    requires forall octets: Ipv4 :: ip != Dotted(octets)
    ensures Priority(ip, subnets) == WORST
  {
    if ParseIpv4(ip).Some? {
      Ipv4Exactly(ip, ParseIpv4(ip).value);
      assert false;
    }
  }

  // ----- Clocks -----

  /** A pruning leaves exactly the entries seen within their age: the time to live for broadcast peers; for
      addresses entered by hand half a minute at least, and five minutes for mDNS, or three and five times the
      time to live when that is below a second. The other pruning leaves all broadcast peers, too. */
  lemma PrunedExactly(peers: Peers, now: nat, ttl: nat, k: Key)
    requires k in peers
    ensures var e := peers[k];
            var age := if e.source == Udp then ttl
                       else if e.source == Manual
                       then (if ttl < 1_000_000_000 then 3 * ttl else if ttl < 30_000_000_000 then 30_000_000_000 else ttl)
                       else (if ttl < 1_000_000_000 then 5 * ttl else 300_000_000_000);
            && (k in Pruned(peers, now, ttl) <==> now <= e.lastSeen + age)
            && (k in PrunedManual(peers, now, ttl) <==> e.source == Udp || now <= e.lastSeen + age)
            && (k in Pruned(peers, now, ttl) ==> Pruned(peers, now, ttl)[k] == e)
            && (k in PrunedManual(peers, now, ttl) ==> PrunedManual(peers, now, ttl)[k] == e)
  {
  }

  // ----- Events -----

  /** The listed devices are the same, under the same keys. */
  ghost predicate LooksTheSame(a: Peers, b: Peers) {
    (forall k :: k in a <==> k in b) && forall k :: k in a ==> a[k].peer == b[k].peer
  }

  /** A sighting is announced exactly when it changes what is listed: as a discovery when neither its address nor
      its device was listed before, and otherwise as an update. */
  lemma SeenEventExactly(peers: Peers, now: nat, p: PeerInfo, source: PeerSource, found: Option<Key>, adopt: bool)
    requires IsMatch(peers, p, found)
    ensures var event, after := SeenEvent(peers, p, found, adopt), Seen(peers, now, p, source, found, adopt);
            && (event.None? <==> LooksTheSame(peers, after))
            && (event == Some(Discovered(p))
                <==> KeyForPeer(p) !in peers
                     && (p.deviceName == "" || forall k :: k in peers ==> peers[k].peer.deviceName != p.deviceName))
            && (event.Some? ==> event.value in {Discovered(p), Updated(p)})
  {
    var after, key := Seen(peers, now, p, source, found, adopt), KeyForPeer(p);
    if key !in peers && (found.None? || adopt) {
      assert key in after;
    }
  }
}
