/** Validation of a server configuration, and the address separation it buys. */
module Validation {
  import opened Addressing
  import opened Basics
  import opened Netip

  datatype Profile = Profile(enabled: bool, tunName: string, port: int, mtu: int,
                             v4Subnet: Prefix, v4: Addr, v6Subnet: Prefix, v6: Addr)

  datatype AllowedPeer = AllowedPeer(publicKey: Bytes, clientID: int64)

  datatype Configuration = Configuration(host: string, profiles: seq<Profile>, peers: seq<AllowedPeer>)

  datatype ConfigError =
    | HostEmpty
    | TunNameEmpty
    | TunNameDuplicate
    | PortInvalid
    | PortDuplicate
    | MtuInvalid
    | SubnetInvalid
    | AddressInvalid
    | AddressOutsideSubnet
    | SubnetsOverlap
    | KeyInvalid
    | ClientIDInvalid
    | ClientIDDuplicate
    | KeyDuplicate

  // ---- what a valid configuration is ----

  predicate IsSpace(c: char)
  {
    c in {'\t', '\n', '\U{0B}', '\U{0C}', '\r', ' ', '\U{85}', '\U{A0}', '\U{1680}', '\U{2028}', '\U{2029}', '\U{202F}',
          '\U{205F}', '\U{3000}'} || '\U{2000}' <= c <= '\U{200A}'
  }

  predicate Blank(s: string) { forall i :: 0 <= i < |s| ==> IsSpace(s[i]) }

  predicate Holds(subnet: Prefix, addr: Addr)
  {
    IsValid(subnet) && Unmap(addr) != NoAddr && Contains(subnet, Unmap(addr))
  }

  predicate ValidProfile(p: Profile)
  {
    && p.tunName != ""
    && (p.enabled ==>
          && 1 <= p.port <= 65535 && 576 <= p.mtu <= 9000
          && Holds(p.v4Subnet, p.v4)
          && (IsValid(p.v6Subnet) ==> Holds(p.v6Subnet, p.v6)))
  }

  function ProfileSubnets(p: Profile): (result: seq<Prefix>)
  {
    if !p.enabled then [] else [p.v4Subnet] + if IsValid(p.v6Subnet) then [p.v6Subnet] else []
  }

  /** No two subnets of enabled profiles share an address, of one family or both, of one profile or two. */
  ghost predicate SubnetsApart(ps: seq<Profile>)
  {
    forall i, j :: 0 <= i < |ps| && 0 <= j < |ps| && ps[i].enabled && ps[j].enabled ==>
      && (i != j ==> !Overlaps(ps[i].v4Subnet, ps[j].v4Subnet))
      && (IsValid(ps[j].v6Subnet) ==> !Overlaps(ps[i].v4Subnet, ps[j].v6Subnet))
      && (i != j && IsValid(ps[i].v6Subnet) && IsValid(ps[j].v6Subnet) ==> !Overlaps(ps[i].v6Subnet, ps[j].v6Subnet))
  }

  /** The subnets of all enabled profiles, in order. */
  function Subnets(profiles: seq<Profile>): (result: seq<Prefix>)
  {
    if profiles == [] then []
    else Subnets(profiles[..|profiles| - 1]) + ProfileSubnets(profiles[|profiles| - 1])
  }

  ghost predicate DistinctProfiles(ps: seq<Profile>)
  {
    forall i, j :: 0 <= i < j < |ps| ==>
      ps[i].tunName != ps[j].tunName && (ps[i].enabled && ps[j].enabled ==> ps[i].port != ps[j].port)
  }

  ghost predicate Apart(subnets: seq<Prefix>)
  {
    forall i, j :: 0 <= i < j < |subnets| ==> !Overlaps(subnets[i], subnets[j])
  }

  ghost predicate ValidPeers(peers: seq<AllowedPeer>)
  {
    && (forall i :: 0 <= i < |peers| ==> |peers[i].publicKey| == KEY_SIZE && peers[i].clientID > 0)
    && (forall i, j :: 0 <= i < j < |peers| ==>
          peers[i].clientID != peers[j].clientID && peers[i].publicKey != peers[j].publicKey)
  }

  ghost predicate ValidConfig(c: Configuration)
  {
    && !(c.host != "" && Blank(c.host))
    && (forall i :: 0 <= i < |c.profiles| ==> ValidProfile(c.profiles[i]))
    && DistinctProfiles(c.profiles)
    && SubnetsApart(c.profiles)
    && ValidPeers(c.peers)
  }

  // ---- the validator ----

  method ValidateSubnetContainsAddr(subnet: Prefix, addr: Addr) returns (error: Option<ConfigError>)
    ensures error == None <==> Holds(subnet, addr)
  {
    if !IsValid(subnet) {
      return Some(SubnetInvalid);
    }
    var unmapped := Unmap(addr);
    if unmapped == NoAddr {
      return Some(AddressInvalid);
    }
    if !Contains(subnet, unmapped) {
      return Some(AddressOutsideSubnet);
    }
    error := None;
  }

  method OverlappingSubnets(subnets: seq<Prefix>) returns (overlap: bool)
    ensures overlap <==> !Apart(subnets)
  {
    for i := 0 to |subnets|
      invariant forall a, b :: 0 <= a < i && a < b < |subnets| ==> !Overlaps(subnets[a], subnets[b])
    {
      for j := i + 1 to |subnets|
        invariant forall b :: i < b < j ==> !Overlaps(subnets[i], subnets[b])
      {
        if Overlaps(subnets[i], subnets[j]) || Overlaps(subnets[j], subnets[i]) {
          OverlapsBothWays(subnets[j], subnets[i]);
          return true;
        }
      }
    }
    overlap := false;
  }

  lemma OverlapsBothWays(p: Prefix, q: Prefix)
    ensures Overlaps(p, q) <==> Overlaps(q, p)
  {
  }

  method ValidateAllowedPeers(peers: seq<AllowedPeer>) returns (error: Option<ConfigError>)
    ensures error == None <==> ValidPeers(peers)
  {
    var seenClientIDs: set<int64> := {};
    for i := 0 to |peers|
      invariant forall j :: 0 <= j < i ==> |peers[j].publicKey| == KEY_SIZE && peers[j].clientID > 0
      invariant forall j, k :: 0 <= j < k < i ==> peers[j].clientID != peers[k].clientID
      invariant forall id :: id in seenClientIDs <==> exists j :: 0 <= j < i && peers[j].clientID == id
    {
      if |peers[i].publicKey| != KEY_SIZE {
        return Some(KeyInvalid);
      }
      if peers[i].clientID <= 0 {
        return Some(ClientIDInvalid);
      }
      if peers[i].clientID in seenClientIDs {
        return Some(ClientIDDuplicate);
      }
      seenClientIDs := seenClientIDs + {peers[i].clientID};
    }
    var seenKeys: set<Bytes> := {};
    for i := 0 to |peers|
      invariant forall j, k :: 0 <= j < k < i ==> peers[j].publicKey != peers[k].publicKey
      invariant forall key :: key in seenKeys <==> exists j :: 0 <= j < i && peers[j].publicKey == key
    {
      if peers[i].publicKey in seenKeys {
        return Some(KeyDuplicate);
      }
      seenKeys := seenKeys + {peers[i].publicKey};
    }
    error := None;
  }

  /** The checks of one enabled profile, given the ports already taken. */
  method ValidateEnabled(config: Profile, ports: set<int>) returns (error: Option<ConfigError>)
    requires config.enabled && config.tunName != ""
    ensures error == None <==> ValidProfile(config) && config.port !in ports
  {
    if config.port < 1 || config.port > 65535 {
      return Some(PortInvalid);
    }
    if config.port in ports {
      return Some(PortDuplicate);
    }
    if config.mtu < 576 || config.mtu > 9000 {
      return Some(MtuInvalid);
    }
    error := ValidateSubnetContainsAddr(config.v4Subnet, config.v4);
    if error.Some? {
      return;
    }
    if IsValid(config.v6Subnet) {
      error := ValidateSubnetContainsAddr(config.v6Subnet, config.v6);
    }
  }

  // ---- the collected subnets are those of the enabled profiles ----

  /** A subnet some enabled profile is configured with. */
  ghost predicate InUse(ps: seq<Profile>, subnet: Prefix)
  {
    exists i :: 0 <= i < |ps| && Uses(ps[i], subnet)
  }

  predicate Uses(p: Profile, subnet: Prefix)
  {
    p.enabled && (subnet == p.v4Subnet || (IsValid(p.v6Subnet) && subnet == p.v6Subnet))
  }

  lemma {:induction false} SubnetsInUse(ps: seq<Profile>, subnet: Prefix)
    ensures subnet in Subnets(ps) <==> InUse(ps, subnet)
  {
    if ps != [] {
      var n := |ps| - 1;
      SubnetsInUse(ps[..n], subnet);
      assert subnet in ProfileSubnets(ps[n]) <==> Uses(ps[n], subnet);
      if InUse(ps[..n], subnet) {
        var i :| 0 <= i < n && Uses(ps[..n][i], subnet);
        assert Uses(ps[i], subnet);
      }
      if InUse(ps, subnet) && !Uses(ps[n], subnet) {
        var i :| 0 <= i < |ps| && Uses(ps[i], subnet);
        assert Uses(ps[..n][i], subnet);
      }
    }
  }

  /** One more profile is apart from those before exactly when each of its subnets is. */
  lemma ApartStep(ps: seq<Profile>)
    requires ps != []
    ensures var n := |ps| - 1;
            SubnetsApart(ps) <==>
              && SubnetsApart(ps[..n])
              && (ps[n].enabled && IsValid(ps[n].v6Subnet) ==> !Overlaps(ps[n].v4Subnet, ps[n].v6Subnet))
              && (forall s, t :: InUse(ps[..n], s) && Uses(ps[n], t) ==> !Overlaps(s, t))
  {
    hide Overlaps;
    var n, rest := |ps| - 1, ps[..|ps| - 1];
    if SubnetsApart(ps) {
      forall s, t | InUse(rest, s) && Uses(ps[n], t) ensures !Overlaps(s, t)
      {
        var i :| 0 <= i < n && Uses(rest[i], s);
        OverlapsBothWays(s, t);
      }
    } else if SubnetsApart(rest) && (forall s, t :: InUse(rest, s) && Uses(ps[n], t) ==> !Overlaps(s, t)) {
      forall i | 0 <= i < n && ps[i].enabled && ps[n].enabled
        ensures Overlapless(ps[i], ps[n]) && Overlapless(ps[n], ps[i])
      {
        assert Uses(rest[i], ps[i].v4Subnet) && Uses(ps[n], ps[n].v4Subnet);
        assert IsValid(ps[i].v6Subnet) ==> Uses(rest[i], ps[i].v6Subnet);
        assert IsValid(ps[n].v6Subnet) ==> Uses(ps[n], ps[n].v6Subnet);
        OverlapsBothWays(ps[i].v4Subnet, ps[n].v4Subnet);
        OverlapsBothWays(ps[i].v6Subnet, ps[n].v6Subnet);
        OverlapsBothWays(ps[i].v6Subnet, ps[n].v4Subnet);
      }
      forall i | 0 <= i < n ensures ps[i] == rest[i] {}
    }
  }

  /** No subnet of one profile overlaps one of the other. */
  predicate Overlapless(p: Profile, q: Profile)
  {
    && !Overlaps(p.v4Subnet, q.v4Subnet)
    && (IsValid(q.v6Subnet) ==> !Overlaps(p.v4Subnet, q.v6Subnet))
    && (IsValid(p.v6Subnet) && IsValid(q.v6Subnet) ==> !Overlaps(p.v6Subnet, q.v6Subnet))
  }

  lemma ApartSplit(xs: seq<Prefix>, ys: seq<Prefix>)
    ensures Apart(xs + ys) <==> Apart(xs) && Apart(ys) && (forall s, t :: s in xs && t in ys ==> !Overlaps(s, t))
  {
    hide Overlaps;
    var all := xs + ys;
    if Apart(all) {
      forall i, j | 0 <= i < j < |ys| ensures !Overlaps(ys[i], ys[j]) { assert all[|xs| + i] == ys[i] && all[|xs| + j] == ys[j]; }
      forall i, j | 0 <= i < j < |xs| ensures !Overlaps(xs[i], xs[j]) { assert all[i] == xs[i] && all[j] == xs[j]; }
      forall s, t | s in xs && t in ys ensures !Overlaps(s, t)
      {
        var i :| 0 <= i < |xs| && xs[i] == s;
        var j :| 0 <= j < |ys| && ys[j] == t;
        assert all[i] == s && all[|xs| + j] == t;
      }
    }
  }

  /** The collected subnets are pairwise apart exactly when those of the profiles are. */
  lemma {:induction false} ApartIff(ps: seq<Profile>)
    ensures Apart(Subnets(ps)) <==> SubnetsApart(ps)
  {
    hide Overlaps;
    if ps != [] {
      var n := |ps| - 1;
      ApartIff(ps[..n]);
      ApartStep(ps);
      ApartSplit(Subnets(ps[..n]), ProfileSubnets(ps[n]));
      forall s ensures s in Subnets(ps[..n]) <==> InUse(ps[..n], s) { SubnetsInUse(ps[..n], s); }
      forall t ensures t in ProfileSubnets(ps[n]) <==> Uses(ps[n], t) {}
      assert Apart(ProfileSubnets(ps[n])) <==>
               (ps[n].enabled && IsValid(ps[n].v6Subnet) ==> !Overlaps(ps[n].v4Subnet, ps[n].v6Subnet)) by { OwnApart(ps[n]); }
    }
  }

  lemma OwnApart(p: Profile)
    ensures Apart(ProfileSubnets(p)) <==> (p.enabled && IsValid(p.v6Subnet) ==> !Overlaps(p.v4Subnet, p.v6Subnet))
  {
    hide Overlaps;
    if p.enabled && IsValid(p.v6Subnet) {
      assert ProfileSubnets(p)[0] == p.v4Subnet && ProfileSubnets(p)[1] == p.v6Subnet;
    }
  }

  lemma SubnetsStep(ps: seq<Profile>, i: nat)
    requires i < |ps|
    ensures Subnets(ps[..i + 1]) == Subnets(ps[..i]) + ProfileSubnets(ps[i])
    ensures !ps[i].enabled ==> Subnets(ps[..i + 1]) == Subnets(ps[..i])
  {
    assert ps[..i + 1][..i] == ps[..i];
  }

  lemma DistinctStep(ps: seq<Profile>, i: nat)
    requires i < |ps| && DistinctProfiles(ps[..i])
    requires forall j :: 0 <= j < i ==> ps[j].tunName != ps[i].tunName
    requires ps[i].enabled ==> forall j :: 0 <= j < i && ps[j].enabled ==> ps[j].port != ps[i].port
    ensures DistinctProfiles(ps[..i + 1])
  {
    assert ps[..i + 1] == ps[..i] + [ps[i]];
  }

  lemma Clash(ps: seq<Profile>, j: nat, i: nat)
    requires j < i < |ps|
    requires ps[j].tunName == ps[i].tunName || (ps[j].enabled && ps[i].enabled && ps[j].port == ps[i].port)
    ensures !DistinctProfiles(ps)
  {
  }

  method ValidateProfiles(profiles: seq<Profile>) returns (error: Option<ConfigError>, subnets: seq<Prefix>)
    ensures error == None <==> (forall i :: 0 <= i < |profiles| ==> ValidProfile(profiles[i])) && DistinctProfiles(profiles)
    ensures error == None ==> subnets == Subnets(profiles) && forall s :: s in subnets <==> InUse(profiles, s)
  {
    hide Holds, ProfileSubnets, Subnets, DistinctProfiles, Uses;
    var ifNames: set<string>, ports: set<int> := {}, {};
    subnets := [];
    NoProfiles(profiles);
    for i := 0 to |profiles|
      invariant forall j :: 0 <= j < i ==> ValidProfile(profiles[j])
      invariant DistinctProfiles(profiles[..i])
      invariant forall name :: name in ifNames <==> exists j :: 0 <= j < i && profiles[j].tunName == name
      invariant forall port :: port in ports <==> exists j :: 0 <= j < i && profiles[j].enabled && profiles[j].port == port
      invariant subnets == Subnets(profiles[..i])
    {
      var config := profiles[i];
      SubnetsStep(profiles, i);
      if config.tunName == "" {
        return Some(TunNameEmpty), subnets;
      }
      if config.tunName in ifNames {
        ghost var j :| 0 <= j < i && profiles[j].tunName == config.tunName;
        Clash(profiles, j, i);
        return Some(TunNameDuplicate), subnets;
      }
      ifNames := ifNames + {config.tunName};
      if !config.enabled {
        DistinctStep(profiles, i);
        continue;
      }
      error := ValidateEnabled(config, ports);
      if error.Some? {
        if config.port in ports {
          ghost var j :| 0 <= j < i && profiles[j].enabled && profiles[j].port == config.port;
          Clash(profiles, j, i);
        }
        return;
      }
      DistinctStep(profiles, i);
      ports := ports + {config.port};
      subnets := subnets + ProfileSubnets(config);
    }
    assert profiles[..|profiles|] == profiles;
    forall s ensures s in subnets <==> InUse(profiles, s) { SubnetsInUse(profiles, s); }
    error := None;
  }

  lemma NoProfiles(ps: seq<Profile>)
    ensures Subnets(ps[..0]) == [] && DistinctProfiles(ps[..0])
  {
  }

  /** Accepts exactly the valid configurations. */
  method Validate(c: Configuration) returns (error: Option<ConfigError>)
    ensures error == None <==> ValidConfig(c)
  {
    if c.host != "" && Blank(c.host) {
      return Some(HostEmpty);
    }
    var subnets;
    error, subnets := ValidateProfiles(c.profiles);
    if error.Some? {
      return;
    }
    ApartIff(c.profiles);
    var overlap := OverlappingSubnets(subnets);
    if overlap {
      return Some(SubnetsOverlap);
    }
    error := ValidateAllowedPeers(c.peers);
  }

  // ---- separation ----

  /** Server addresses are never read from a file: each is derived from its subnet. */
  ghost predicate Derived(p: Profile)
  {
    p.enabled ==>
      && AllocateServerIP(p.v4Subnet) == Ok(p.v4)
      && (IsValid(p.v6Subnet) ==> AllocateServerIP(p.v6Subnet) == Ok(p.v6))
  }

  /** In a valid configuration each subnet in use holds the server address derived from it. */
  lemma ServersInside(p: Profile, subnet: Prefix)
    requires ValidProfile(p) && Derived(p) && Uses(p, subnet)
    ensures IsValid(subnet) && Contains(subnet, AllocateServerIP(subnet).value)
  {
    HeldUnmapped(p.v4Subnet, p.v4);
    if IsValid(p.v6Subnet) { HeldUnmapped(p.v6Subnet, p.v6); }
  }

  /** An allocated address that its subnet holds is not an IPv4-mapped one. */
  lemma HeldUnmapped(subnet: Prefix, a: Addr)
    requires Holds(subnet, a) && AllocateServerIP(subnet) == Ok(a)
    ensures Contains(subnet, a)
  {
  }

  /** A subnet in use and a peer. */
  ghost predicate InRange(c: Configuration, s: Prefix, a: nat) { InUse(c.profiles, s) && a < |c.peers| }

  /** Client a's address on subnet s lies there, and is neither subnet t's server nor client b's address on t. */
  predicate Separate(c: Configuration, s: Prefix, a: nat, t: Prefix, b: nat)
    requires a < |c.peers| && b < |c.peers|
  {
    var x, y := AllocateClientIP(s, c.peers[a].clientID), AllocateClientIP(t, c.peers[b].clientID);
    x.Ok? ==>
      && Contains(s, x.value)
      && AllocateServerIP(t).Ok? && x.value != AllocateServerIP(t).value
      && (y.Ok? && (s != t || a != b) ==> x.value != y.value)
  }

  /** Every address that is allocated finds room in its subnet. */
  ghost predicate Roomy(c: Configuration)
  {
    forall s, a: nat :: InRange(c, s, a) && AllocateClientIP(s, c.peers[a].clientID).Ok? ==>
      IsValid(s) && Room(s, c.peers[a].clientID)
  }

  ghost predicate DerivedServers(c: Configuration) { forall k :: 0 <= k < |c.profiles| ==> Derived(c.profiles[k]) }

  /** Different subnets in use share no address. */
  lemma UsedApart(ps: seq<Profile>, s: Prefix, t: Prefix)
    requires SubnetsApart(ps) && InUse(ps, s) && InUse(ps, t) && s != t
    ensures !Overlaps(s, t)
  {
    hide Overlaps;
    var i :| 0 <= i < |ps| && Uses(ps[i], s);
    var j :| 0 <= j < |ps| && Uses(ps[j], t);
    OverlapsBothWays(s, t);
  }

  lemma UsedServer(c: Configuration, s: Prefix)
    requires ValidConfig(c) && DerivedServers(c) && InUse(c.profiles, s)
    ensures IsValid(s) && Contains(s, AllocateServerIP(s).value)
  {
    hide Contains, AllocateServerIP, Holds;
    var i :| 0 <= i < |c.profiles| && Uses(c.profiles[i], s);
    ServersInside(c.profiles[i], s);
  }

  lemma RoomSeparates(c: Configuration, s: Prefix, a: nat, t: Prefix, b: nat)
    requires ValidConfig(c) && DerivedServers(c) && Roomy(c)
    requires InRange(c, s, a) && InRange(c, t, b)
    ensures Separate(c, s, a, t, b)
  {
    hide Room, AllocateClientIP, AllocateServerIP, Contains, Overlaps, InUse, SubnetsApart;
    var m, n := c.peers[a].clientID, c.peers[b].clientID;
    UsedServer(c, t);
    ServerAllocated(t);
    if AllocateClientIP(s, m).Ok? {
      var x := AllocateClientIP(s, m).value;
      InSubnet(s, m);
      if s == t {
        OneSubnet(s, m, n);
      } else {
        UsedApart(c.profiles, s, t);
        if Contains(t, x) { SharedMeansOverlap(s, t, x); }
        if AllocateClientIP(t, n).Ok? { InSubnet(t, n); }
      }
    }
  }

  lemma ServerAllocated(subnet: Prefix)
    ensures IsValid(subnet) ==> AllocateServerIP(subnet).Ok?
  {
  }

  /**
   * In a valid configuration with derived server addresses all client addresses on the subnets of
   * enabled profiles lie in their subnets, differ from every server address and belong to one subnet
   * and client only, if and only if every allocated address finds room in its subnet.
   */
  lemma AddressSeparation(c: Configuration)
    requires ValidConfig(c) && DerivedServers(c)
    ensures (forall s, a: nat, t, b: nat :: InRange(c, s, a) && InRange(c, t, b) ==> Separate(c, s, a, t, b)) <==> Roomy(c)
  {
    hide ValidConfig, DerivedServers, Room, AllocateClientIP, Contains, InUse;
    if Roomy(c) {
      forall s, a: nat, t, b: nat | InRange(c, s, a) && InRange(c, t, b)
        ensures Separate(c, s, a, t, b)
      {
        RoomSeparates(c, s, a, t, b);
      }
    }
    if forall s, a: nat, t, b: nat :: InRange(c, s, a) && InRange(c, t, b) ==> Separate(c, s, a, t, b) {
      forall s, a: nat | InRange(c, s, a) && AllocateClientIP(s, c.peers[a].clientID).Ok?
        ensures IsValid(s) && Room(s, c.peers[a].clientID)
      {
        assert Separate(c, s, a, s, a);
        InSubnet(s, c.peers[a].clientID);
      }
    }
  }

  /** No two allocated addresses are the same. */
  predicate Unlike(x: Result<Addr, AddressError>, y: Result<Addr, AddressError>) { x.Ok? && y.Ok? ==> x.value != y.value }

  /** So two clients, or one client on two profiles or on both subnets of one, never get the same address. */
  lemma ProfilesSeparate(c: Configuration, i: nat, a: nat, j: nat, b: nat)
    requires ValidConfig(c) && DerivedServers(c) && Roomy(c)
    requires i < |c.profiles| && j < |c.profiles| && c.profiles[i].enabled && c.profiles[j].enabled && a < |c.peers| && b < |c.peers|
    ensures var p, q, m, n := c.profiles[i], c.profiles[j], c.peers[a].clientID, c.peers[b].clientID;
            && (i != j || a != b ==> Unlike(AllocateClientIP(p.v4Subnet, m), AllocateClientIP(q.v4Subnet, n)))
            && (IsValid(q.v6Subnet) ==> Unlike(AllocateClientIP(p.v4Subnet, m), AllocateClientIP(q.v6Subnet, n)))
            && (IsValid(p.v6Subnet) && IsValid(q.v6Subnet) && (i != j || a != b) ==>
                  Unlike(AllocateClientIP(p.v6Subnet, m), AllocateClientIP(q.v6Subnet, n)))
  {
    hide Roomy, DerivedServers, AllocateClientIP, AllocateServerIP, Contains, Overlaps, Holds;
    var p, q := c.profiles[i], c.profiles[j];
    assert Uses(p, p.v4Subnet) && Uses(q, q.v4Subnet);
    SelfOverlaps(p.v4Subnet);
    SelfOverlaps(p.v6Subnet);
    HeldValid(p);
    RoomSeparates(c, p.v4Subnet, a, q.v4Subnet, b);
    if IsValid(q.v6Subnet) {
      assert Uses(q, q.v6Subnet);
      RoomSeparates(c, p.v4Subnet, a, q.v6Subnet, b);
      if IsValid(p.v6Subnet) {
        assert Uses(p, p.v6Subnet);
        RoomSeparates(c, p.v6Subnet, a, q.v6Subnet, b);
      }
    }
  }

  lemma HeldValid(p: Profile)
    requires ValidProfile(p) && p.enabled
    ensures IsValid(p.v4Subnet)
  {
  }

  lemma SelfOverlaps(s: Prefix)
    ensures IsValid(s) ==> Overlaps(s, s)
  {
  }

  /** Masked subnets are always roomy enough. */
  lemma MaskedSeparates(c: Configuration)
    requires forall i :: 0 <= i < |c.profiles| && c.profiles[i].enabled ==>
               Masked(c.profiles[i].v4Subnet) && (IsValid(c.profiles[i].v6Subnet) ==> Masked(c.profiles[i].v6Subnet))
    ensures Roomy(c)
  {
    hide Room, AllocateClientIP, Masked;
    forall s, a: nat | InRange(c, s, a) && AllocateClientIP(s, c.peers[a].clientID).Ok?
      ensures IsValid(s) && Room(s, c.peers[a].clientID)
    {
      InSubnet(s, c.peers[a].clientID);
      MaskedRoom(s, c.peers[a].clientID);
    }
  }

  // ---- a valid configuration without room ----

  function Unmasked(): (result: Configuration)
  {
    var first := Profile(true, "a", 1, 1500, Prefix(V4(0x0A0000FA), 24), V4(0x0A0000FB), Prefix(NoAddr, -1), NoAddr);
    var second := Profile(true, "b", 2, 1500, Prefix(V4(0x0A000100), 24), V4(0x0A000101), Prefix(NoAddr, -1), NoAddr);
    Configuration("", [first, second], [AllowedPeer(seq(KEY_SIZE, _ => 1), 10), AllowedPeer(seq(KEY_SIZE, _ => 2), 4)])
  }

  lemma UnmaskedHolds()
    ensures var ps := Unmasked().profiles;
            ValidProfile(ps[0]) && ValidProfile(ps[1]) && !Overlaps(ps[0].v4Subnet, ps[1].v4Subnet)
            && !Overlaps(ps[1].v4Subnet, ps[0].v4Subnet)
  {
  }

  lemma UnmaskedValid()
    ensures ValidConfig(Unmasked())
  {
    hide Overlaps, Network, ValidProfile;
    var c := Unmasked();
    UnmaskedHolds();
    assert c.peers[0].publicKey[0] != c.peers[1].publicKey[0];
    assert c.profiles[0].tunName[0] != c.profiles[1].tunName[0];
  }

  /** Without room a valid configuration can hand one address to two clients. */
  lemma UnmaskedCollides()
    ensures ValidConfig(Unmasked()) && DerivedServers(Unmasked())
    ensures var c := Unmasked();
            && c.profiles[0].enabled && c.profiles[1].enabled
            && var x := AllocateClientIP(c.profiles[0].v4Subnet, c.peers[0].clientID);
               x.Ok? && x == AllocateClientIP(c.profiles[1].v4Subnet, c.peers[1].clientID)
  {
    hide ValidConfig;
    UnmaskedValid();
  }
}
