/** The server's session repository: four indexes over one set of live peers. */
module Repositories {
  import opened Basics
  import opened Netip

  /** A registered session, as far as the repository is concerned. */
  class Peer {
    const internalIP: Addr
    const routeID: Option<uint64>
    const clientPubKey: Bytes
    const allowedAddrs: set<Addr>
    const allowedNets: seq<Prefix>
    var closed: bool
    var zeroized: bool
    var lastActivity: int
    var externalAddr: Addr

    /** Sorts the allowed prefixes into host addresses and networks. */
    constructor (internalIP: Addr, externalAddr: Addr, routeID: Option<uint64>, clientPubKey: Bytes,
                 allowedIPs: seq<Prefix>, now: int)
      ensures !closed && !zeroized && lastActivity == now && this.externalAddr == externalAddr
      ensures this.internalIP == Unmap(internalIP) && this.routeID == routeID && this.clientPubKey == clientPubKey
      ensures forall a :: Accepts(a) <==>
                Unmap(a) == Unmap(internalIP)
                || exists i :: 0 <= i < |allowedIPs| && Contains(Unmapped(allowedIPs[i]), Unmap(a))
    {
      var addrs: set<Addr>, nets: seq<Prefix> := {}, [];
      for i := 0 to |allowedIPs|
        invariant forall a :: a in addrs ==> exists j :: 0 <= j < i && Contains(Unmapped(allowedIPs[j]), a)
        invariant forall n :: n in nets ==> exists j :: 0 <= j < i && n == Unmapped(allowedIPs[j])
        invariant forall j :: 0 <= j < i ==>
                    if IsSingleIP(Unmapped(allowedIPs[j])) then Unmapped(allowedIPs[j]).addr in addrs
                    else Unmapped(allowedIPs[j]) in nets
      {
        var prefix := Unmapped(allowedIPs[i]);
        if IsSingleIP(prefix) {
          addrs := addrs + {prefix.addr};
        } else {
          nets := nets + [prefix];
        }
      }
      this.internalIP, this.externalAddr, this.routeID := Unmap(internalIP), externalAddr, routeID;
      this.clientPubKey, allowedAddrs, allowedNets := clientPubKey, addrs, nets;
      closed, zeroized, lastActivity := false, false, now;
      new;
      forall a ensures Accepts(a) <==>
        Unmap(a) == Unmap(internalIP) || exists i :: 0 <= i < |allowedIPs| && Contains(Unmapped(allowedIPs[i]), Unmap(a))
      {
        SortedAccepts(allowedIPs, addrs, nets, Unmap(a));
      }
    }

    /** Whether a packet from, or to, an address belongs to this peer. */
    predicate Accepts(a: Addr)
    {
      var ip := Unmap(a);
      ip == internalIP || ip in allowedAddrs || exists i :: 0 <= i < |allowedNets| && Contains(allowedNets[i], ip)
    }

    /** An IPv4 address and its IPv4-mapped form are one address to a peer. */
    lemma AcceptsMapped(v: uint32)
      ensures Accepts(V6(0xFFFF_0000_0000 + v)) <==> Accepts(V4(v))
    {
      UnmapExactly(V6(0xFFFF_0000_0000 + v), v);
    }

    method IsSourceAllowed(src: Addr) returns (allowed: bool)
      ensures allowed == Accepts(src)
    {
      var ip := Unmap(src);
      if ip == internalIP || ip in allowedAddrs {
        return true;
      }
      for i := 0 to |allowedNets|
        invariant forall j :: 0 <= j < i ==> !Contains(allowedNets[j], ip)
      {
        if Contains(allowedNets[i], ip) {
          return true;
        }
      }
      allowed := false;
    }

    method TouchActivity(now: int)
      modifies this`lastActivity
      ensures lastActivity == now
    {
      lastActivity := now;
    }
  }

  /** An allowed prefix as the peer keeps it; one whose mask no longer fits becomes invalid. */
  function Unmapped(p: Prefix): (result: Prefix) { PrefixFrom(Unmap(p.addr), p.bits) }

  /** A single-address prefix contains that address and no other. */
  lemma SingleContains(p: Prefix, a: Addr)
    requires IsSingleIP(p)
    ensures Contains(p, a) <==> a == p.addr
  {
  }

  lemma SortedAccepts(prefixes: seq<Prefix>, addrs: set<Addr>, nets: seq<Prefix>, a: Addr)
    requires forall b :: b in addrs ==> exists j :: 0 <= j < |prefixes| && Contains(Unmapped(prefixes[j]), b)
    requires forall n :: n in nets ==> exists j :: 0 <= j < |prefixes| && n == Unmapped(prefixes[j])
    requires forall j :: 0 <= j < |prefixes| ==>
               if IsSingleIP(Unmapped(prefixes[j])) then Unmapped(prefixes[j]).addr in addrs else Unmapped(prefixes[j]) in nets
    ensures (a in addrs || exists k :: 0 <= k < |nets| && Contains(nets[k], a))
            <==> exists j :: 0 <= j < |prefixes| && Contains(Unmapped(prefixes[j]), a)
  {
    forall j | 0 <= j < |prefixes| && Contains(Unmapped(prefixes[j]), a)
      ensures a in addrs || exists k :: 0 <= k < |nets| && Contains(nets[k], a)
    {
      if IsSingleIP(Unmapped(prefixes[j])) { SingleContains(Unmapped(prefixes[j]), a); }
    }
    forall k | 0 <= k < |nets| && Contains(nets[k], a)
      ensures exists j :: 0 <= j < |prefixes| && Contains(Unmapped(prefixes[j]), a)
    {
      assert nets[k] in nets;
      var j :| 0 <= j < |prefixes| && nets[k] == Unmapped(prefixes[j]);
    }
  }

  // ---- the indexes, as relations on what they hold ----

  ghost predicate IpIndex(m: map<Addr, Peer>, live: set<Peer>)
  {
    && (forall a :: a in m ==> m[a] in live && m[a].internalIP == a)
    && (forall p :: p in live ==> p.internalIP in m && m[p.internalIP] == p)
  }

  ghost predicate RouteIndex(m: map<uint64, Peer>, live: set<Peer>)
  {
    forall r :: r in m ==> m[r] in live && m[r].routeID == Some(r)
  }

  /** Every live peer is found by its route; kept as long as no peer is added with a route in use. */
  ghost predicate Routed(m: map<uint64, Peer>, live: set<Peer>)
  {
    forall p :: p in live && p.routeID.Some? ==> p.routeID.value in m && m[p.routeID.value] == p
  }

  ghost predicate AllowedIndex(m: map<Addr, Peer>, live: set<Peer>)
  {
    forall a :: a in m ==> m[a] in live && a in m[a].allowedAddrs
  }

  ghost predicate NoRepeats(ps: seq<Peer>)
  {
    forall i, j :: 0 <= i < j < |ps| ==> ps[i] != ps[j]
  }

  /** Each live peer with a key is listed under it exactly once, and nothing else is listed. */
  ghost predicate KeyIndex(m: map<Bytes, seq<Peer>>, live: set<Peer>)
  {
    && (forall k :: k in m ==> k != [] && m[k] != [] && NoRepeats(m[k]))
    && (forall k, p :: k in m && p in m[k] ==> p in live && p.clientPubKey == k)
    && (forall p :: p in live && p.clientPubKey != [] ==> p.clientPubKey in m && p in m[p.clientPubKey])
  }

  lemma IpAdded(m: map<Addr, Peer>, live: set<Peer>, p: Peer)
    requires IpIndex(m, live) && p !in live
    ensures IpIndex(m[p.internalIP := p], live + {p}) <==> (forall q :: q in live ==> q.internalIP != p.internalIP)
  {
    var m' := m[p.internalIP := p];
    forall q | q in live && q.internalIP == p.internalIP ensures !IpIndex(m', live + {p})
    {
      assert q in live + {p} && m'[q.internalIP] != q;
    }
  }

  lemma RouteAdded(m: map<uint64, Peer>, live: set<Peer>, p: Peer)
    requires RouteIndex(m, live)
    ensures RouteIndex(if p.routeID.Some? then m[p.routeID.value := p] else m, live + {p})
  {
  }

  /** The routes without a peer's own; one that another has taken over stays. */
  function Unrouted(m: map<uint64, Peer>, p: Peer): (m': map<uint64, Peer>)
    ensures forall r :: r in m' <==> r in m && !(p.routeID == Some(r) && m[r] == p)
    ensures forall r :: r in m' ==> m'[r] == m[r]
  {
    if p.routeID.Some? && p.routeID.value in m && m[p.routeID.value] == p then m - {p.routeID.value} else m
  }

  lemma RoutedAdded(m: map<uint64, Peer>, live: set<Peer>, p: Peer)
    requires Routed(m, live) && p !in live
    ensures Routed(if p.routeID.Some? then m[p.routeID.value := p] else m, live + {p})
            <==> p.routeID.None? || forall q :: q in live ==> q.routeID != p.routeID
  {
    if p.routeID.Some? {
      var m' := m[p.routeID.value := p];
      forall q | q in live && q.routeID == p.routeID ensures !Routed(m', live + {p})
      {
        assert q in live + {p} && m'[q.routeID.value] != q;
      }
    }
  }

  lemma AllowedAdded(m: map<Addr, Peer>, live: set<Peer>, p: Peer)
    requires AllowedIndex(m, live)
    ensures AllowedIndex(m + map a | a in p.allowedAddrs :: p, live + {p})
  {
  }

  function Listed(m: map<Bytes, seq<Peer>>, key: Bytes): (result: seq<Peer>) { if key in m then m[key] else [] }

  lemma KeyAdded(m: map<Bytes, seq<Peer>>, live: set<Peer>, p: Peer)
    requires KeyIndex(m, live) && p !in live
    ensures KeyIndex(if p.clientPubKey != [] then m[p.clientPubKey := Listed(m, p.clientPubKey) + [p]] else m, live + {p})
  {
    var key := p.clientPubKey;
    if key != [] {
      var m' := m[key := Listed(m, key) + [p]];
      assert p !in Listed(m, key);
      forall k | k in m' ensures k != [] && m'[k] != [] && NoRepeats(m'[k]) { }
      forall k, q | k in m' && q in m'[k] ensures q in live + {p} && q.clientPubKey == k
      {
        if k != key { assert q in m[k]; } else { assert q == p || q in Listed(m, key); }
      }
      forall q | q in live + {p} && q.clientPubKey != [] ensures q.clientPubKey in m' && q in m'[q.clientPubKey]
      {
        if q != p { assert q in m[q.clientPubKey]; }
      }
    }
  }

  lemma IpRemoved(m: map<Addr, Peer>, live: set<Peer>, p: Peer)
    requires IpIndex(m, live)
    ensures IpIndex(m - {p.internalIP}, live - {p}) <==> (p in live || p.internalIP !in m)
  {
    var m' := m - {p.internalIP};
    if p !in live { assert live - {p} == live; }
    if p !in live && p.internalIP in m {
      assert m[p.internalIP] in live && m[p.internalIP].internalIP !in m';
    }
  }

  /** A list without repeats has as many members as elements. */
  lemma {:induction false} MembersCount(ps: seq<Peer>)
    requires NoRepeats(ps)
    ensures |set p | p in ps| == |ps|
  {
    if ps != [] {
      var rest, last := ps[..|ps| - 1], ps[|ps| - 1];
      MembersCount(rest);
      assert (set p | p in ps) == (set p | p in rest) + {last};
    }
  }

  class Repository {
    var internalIpToPeer: map<Addr, Peer>
    var routeIDToPeer: map<uint64, Peer>
    var allowedAddrToPeer: map<Addr, Peer>
    var pubKeyToPeers: map<Bytes, seq<Peer>>
    /** Every peer added and not deleted since. */
    ghost var live: set<Peer>

    ghost predicate Valid()
      reads this, live
    {
      && IpIndex(internalIpToPeer, live)
      && RouteIndex(routeIDToPeer, live)
      && AllowedIndex(allowedAddrToPeer, live)
      && KeyIndex(pubKeyToPeers, live)
      && forall p :: p in live ==> !p.closed
    }

    constructor ()
      ensures Valid() && live == {} && Routed(routeIDToPeer, live)
    {
      internalIpToPeer, routeIDToPeer, allowedAddrToPeer, pubKeyToPeers, live := map[], map[], map[], map[], {};
    }

    /**
     * Indexes a new peer. The indexes stay in agreement exactly when no live peer has the
     * same internal address.
     */
    method Add(peer: Peer)
      requires Valid() && peer !in live && !peer.closed
      modifies this
      ensures live == old(live) + {peer}
      ensures Valid() <==> forall p :: p in old(live) ==> p.internalIP != peer.internalIP
      ensures old(Routed(routeIDToPeer, live)) ==>
                (Routed(routeIDToPeer, live) <==> peer.routeID.None? || forall p :: p in old(live) ==> p.routeID != peer.routeID)
      ensures routeIDToPeer == if peer.routeID.Some? then old(routeIDToPeer)[peer.routeID.value := peer] else old(routeIDToPeer)
    {
      hide IpIndex, RouteIndex, AllowedIndex, KeyIndex, Routed;
      if Routed(routeIDToPeer, live) { RoutedAdded(routeIDToPeer, live, peer); }
      IpAdded(internalIpToPeer, live, peer);
      RouteAdded(routeIDToPeer, live, peer);
      AllowedAdded(allowedAddrToPeer, live, peer);
      KeyAdded(pubKeyToPeers, live, peer);
      internalIpToPeer := internalIpToPeer[peer.internalIP := peer];
      if peer.routeID.Some? {
        routeIDToPeer := routeIDToPeer[peer.routeID.value := peer];
      }
      allowedAddrToPeer := allowedAddrToPeer + map a | a in peer.allowedAddrs :: peer;
      if peer.clientPubKey != [] {
        pubKeyToPeers := pubKeyToPeers[peer.clientPubKey := Listed(pubKeyToPeers, peer.clientPubKey) + [peer]];
      }
      live := live + {peer};
    }

    method Delete(peer: Peer)
      requires Valid()
      modifies this, peer
      ensures live == old(live) - {peer}
      ensures old(peer in live || peer.closed) ==> Valid()
      ensures old(peer !in live && !peer.closed) ==> (Valid() <==> peer.internalIP !in old(internalIpToPeer))
      ensures peer.closed && (!old(peer.closed) ==> peer.zeroized)
      ensures old(Routed(routeIDToPeer, live)) ==> Routed(routeIDToPeer, live)
      ensures !old(peer.closed) ==> routeIDToPeer == Unrouted(old(routeIDToPeer), peer)
    {
      DeleteLocked(peer);
    }

    /**
     * Closes a peer, takes it out of every index and clears its keys; a closed peer is left
     * alone. The indexes stay in agreement unless the peer was never added and shares its
     * internal address with a live one.
     */
    method DeleteLocked(peer: Peer)
      requires Valid()
      modifies this, peer
      ensures live == old(live) - {peer}
      ensures old(peer in live || peer.closed) ==> Valid()
      ensures old(peer !in live && !peer.closed) ==> (Valid() <==> peer.internalIP !in old(internalIpToPeer))
      ensures peer.closed && (!old(peer.closed) ==> peer.zeroized) && peer.lastActivity == old(peer.lastActivity)
      ensures old(peer in live) ==> internalIpToPeer == old(internalIpToPeer) - {peer.internalIP}
      ensures old(Routed(routeIDToPeer, live)) ==> Routed(routeIDToPeer, live)
      ensures !old(peer.closed) ==> routeIDToPeer == Unrouted(old(routeIDToPeer), peer)
    {
      hide IpIndex, RouteIndex, AllowedIndex, KeyIndex;
      if peer.closed {
        return;
      }
      peer.closed := true;
      IpRemoved(internalIpToPeer, live, peer);
      internalIpToPeer := internalIpToPeer - {peer.internalIP};
      Unroute(peer);
      Unallow(peer);
      Unkey(peer);
      live := live - {peer};
      peer.zeroized := true;
    }

    method Unroute(peer: Peer)
      requires RouteIndex(routeIDToPeer, live)
      modifies this`routeIDToPeer
      ensures RouteIndex(routeIDToPeer, live - {peer})
      ensures old(Routed(routeIDToPeer, live)) ==> Routed(routeIDToPeer, live - {peer})
      ensures routeIDToPeer == Unrouted(old(routeIDToPeer), peer)
    {
      if peer.routeID.Some? && peer.routeID.value in routeIDToPeer && routeIDToPeer[peer.routeID.value] == peer {
        routeIDToPeer := routeIDToPeer - {peer.routeID.value};
      }
    }

    /** Removes the addresses that still belong to the peer, not those another has taken over. */
    method Unallow(peer: Peer)
      requires AllowedIndex(allowedAddrToPeer, live)
      modifies this`allowedAddrToPeer
      ensures AllowedIndex(allowedAddrToPeer, live - {peer})
    {
      var rest := peer.allowedAddrs;
      while rest != {}
        invariant AllowedIndex(allowedAddrToPeer, live)
        invariant forall a :: a in allowedAddrToPeer && allowedAddrToPeer[a] == peer ==> a in rest
        decreases |rest|
      {
        var a :| a in rest;
        if a in allowedAddrToPeer && allowedAddrToPeer[a] == peer {
          allowedAddrToPeer := allowedAddrToPeer - {a};
        }
        rest := rest - {a};
      }
    }

    /** Swaps the peer with the last one listed under its key and drops the last place. */
    method Unkey(peer: Peer)
      requires KeyIndex(pubKeyToPeers, live)
      modifies this`pubKeyToPeers
      ensures KeyIndex(pubKeyToPeers, live - {peer})
    {
      var key := peer.clientPubKey;
      if key == [] || key !in pubKeyToPeers {
        return;
      }
      var peers := pubKeyToPeers[key];
      var i := 0;
      while i < |peers| && peers[i] != peer
        invariant i <= |peers| && forall j :: 0 <= j < i ==> peers[j] != peer
      {
        i := i + 1;
      }
      if i < |peers| {
        SwapDrop(peers, i);
        KeyRemoved(pubKeyToPeers, live, peer, i);
        peers := peers[i := peers[|peers| - 1]][..|peers| - 1];
        pubKeyToPeers := pubKeyToPeers[key := peers];
      }
      if peers == [] {
        pubKeyToPeers := pubKeyToPeers - {key};
      }
    }

    /** Ends every session of one client key; no other session is touched. */
    method TerminateByPubKey(pubKey: Bytes) returns (count: nat)
      requires Valid()
      modifies this, live
      ensures Valid()
      ensures var ended := set p | p in old(live) && pubKey != [] && p.clientPubKey == pubKey;
              && live == old(live) - ended && count == |ended|
              && forall p :: p in ended ==> p.closed && p.zeroized
      ensures old(Routed(routeIDToPeer, live)) ==> Routed(routeIDToPeer, live)
    {
      hide IpIndex, RouteIndex, AllowedIndex, Routed;
      if pubKey == [] || pubKey !in pubKeyToPeers {
        assert (set p | p in live && pubKey != [] && p.clientPubKey == pubKey) == {};
        return 0;
      }
      var toDelete := pubKeyToPeers[pubKey];
      ghost var ended := set p | p in toDelete;
      assert ended == set p | p in live && pubKey != [] && p.clientPubKey == pubKey;
      MembersCount(toDelete);
      for i := 0 to |toDelete|
        invariant Valid() && live == old(live) - set p | p in toDelete[..i]
        invariant forall p :: p in toDelete[..i] ==> p.closed && p.zeroized
        invariant old(Routed(routeIDToPeer, live)) ==> Routed(routeIDToPeer, live)
      {
        assert toDelete[..i + 1] == toDelete[..i] + [toDelete[i]];
        DeleteLocked(toDelete[i]);
      }
      assert toDelete[..|toDelete|] == toDelete;
      count := |toDelete|;
    }

    /** Ends every session last heard from before the cutoff, and no other. */
    method ReapIdle(cutoff: int) returns (count: nat)
      requires Valid()
      modifies this, live
      ensures Valid()
      ensures var idle := set p | p in old(live) && old(p.lastActivity) < cutoff;
              && live == old(live) - idle && count == |idle|
              && forall p :: p in idle ==> p.closed && p.zeroized
      ensures old(Routed(routeIDToPeer, live)) ==> Routed(routeIDToPeer, live)
    {
      hide RouteIndex, AllowedIndex, KeyIndex, Routed;
      var rest := internalIpToPeer.Keys;
      ghost var reaped: set<Peer> := {};
      count := 0;
      while rest != {}
        invariant Valid() && rest <= internalIpToPeer.Keys
        invariant reaped <= old(live) && live == old(live) - reaped && count == |reaped|
        invariant forall p :: p in old(live) ==> p.lastActivity == old(p.lastActivity)
        invariant forall p :: p in reaped ==> p.closed && p.zeroized && old(p.lastActivity) < cutoff
        invariant forall p :: p in live && p.lastActivity < cutoff ==> p.internalIP in rest
        invariant old(Routed(routeIDToPeer, live)) ==> Routed(routeIDToPeer, live)
        decreases |rest|
      {
        var a :| a in rest;
        var peer := internalIpToPeer[a];
        if peer.lastActivity < cutoff {
          DeleteLocked(peer);
          reaped := reaped + {peer};
          count := count + 1;
        }
        rest := rest - {a};
      }
      assert reaped == set p | p in old(live) && old(p.lastActivity) < cutoff;
    }

    method GetByInternalAddrPort(addr: Addr) returns (peer: Option<Peer>)
      requires Valid()
      ensures peer.Some? <==> exists p :: p in live && p.internalIP == Unmap(addr)
      ensures peer.Some? ==> peer.value in live && peer.value.internalIP == Unmap(addr)
    {
      var ip := Unmap(addr);
      peer := if ip in internalIpToPeer then Some(internalIpToPeer[ip]) else None;
    }

    /** A route is followed only to a live peer that owns it. */
    method GetByRouteID(routeID: uint64) returns (peer: Option<Peer>)
      requires Valid()
      ensures peer.Some? ==> peer.value in live && peer.value.routeID == Some(routeID)
      ensures routeID !in routeIDToPeer ==> peer == None
      ensures Routed(routeIDToPeer, live) ==> (peer.Some? <==> exists p :: p in live && p.routeID == Some(routeID))
    {
      peer := if routeID in routeIDToPeer then Some(routeIDToPeer[routeID]) else None;
    }

    /** A closed peer keeps its address. */
    method UpdateExternalAddr(peer: Peer, addr: Addr)
      modifies peer`externalAddr
      ensures peer.externalAddr == if peer.closed then old(peer.externalAddr) else addr
    {
      if peer.closed {
        return;
      }
      peer.externalAddr := addr;
    }

    /**
     * The fast lookups agree with a scan of all live peers: a peer is found exactly when one
     * accepts the address, whatever was overwritten or deleted before, and the owner of the
     * internal address comes first.
     */
    method FindByDestinationIP(addr: Addr) returns (found: Option<Peer>)
      requires Valid()
      ensures found.Some? <==> exists p :: p in live && p.Accepts(addr)
      ensures found.Some? ==> found.value in live && found.value.Accepts(addr)
      ensures forall p :: p in live && p.internalIP == Unmap(addr) ==> found == Some(p)
    {
      var normalized := Unmap(addr);
      assert Unmap(normalized) == normalized;
      if normalized in internalIpToPeer {
        return Some(internalIpToPeer[normalized]);
      }
      if normalized in allowedAddrToPeer {
        return Some(allowedAddrToPeer[normalized]);
      }
      var rest := internalIpToPeer.Keys;
      while rest != {}
        invariant rest <= internalIpToPeer.Keys
        invariant forall p :: p in live && p.internalIP !in rest ==> !p.Accepts(addr)
        decreases |rest|
      {
        var a :| a in rest;
        var allowed := internalIpToPeer[a].IsSourceAllowed(normalized);
        if allowed {
          return Some(internalIpToPeer[a]);
        }
        rest := rest - {a};
      }
      found := None;
    }
  }

  /** Two peers that drew one route: once the later one has gone, the earlier one is live and not found. */
  method CollidingRoutes(repository: Repository, earlier: Peer, later: Peer) returns (found: Option<Peer>)
    requires repository.Valid() && repository.live == {} && earlier != later && !earlier.closed && !later.closed
    requires earlier.internalIP != later.internalIP && earlier.routeID.Some? && earlier.routeID == later.routeID
    modifies repository, later
    ensures repository.Valid() && repository.live == {earlier} && found == None
  {
    repository.Add(earlier);
    repository.Add(later);
    repository.Delete(later);
    found := repository.GetByRouteID(earlier.routeID.value);
  }

  lemma SwapDrop(ps: seq<Peer>, i: nat)
    requires i < |ps| && NoRepeats(ps)
    ensures var qs := ps[i := ps[|ps| - 1]][..|ps| - 1];
            NoRepeats(qs) && forall q :: q in qs <==> q in ps && q != ps[i]
  {
    var qs := ps[i := ps[|ps| - 1]][..|ps| - 1];
    forall q | q in ps && q != ps[i] ensures q in qs
    {
      var j :| 0 <= j < |ps| && ps[j] == q;
      assert qs[if j == |ps| - 1 then i else j] == q;
    }
  }

  lemma KeyRemoved(m: map<Bytes, seq<Peer>>, live: set<Peer>, p: Peer, i: nat)
    requires KeyIndex(m, live) && p.clientPubKey in m && i < |m[p.clientPubKey]| && m[p.clientPubKey][i] == p
    ensures var ps := m[p.clientPubKey];
            var qs := ps[i := ps[|ps| - 1]][..|ps| - 1];
            KeyIndex(if qs == [] then m - {p.clientPubKey} else m[p.clientPubKey := qs], live - {p})
  {
    var ps := m[p.clientPubKey];
    SwapDrop(ps, i);
  }
}
