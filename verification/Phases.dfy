/**
 * The phase machine over either back end, for every sequence of calls: the current keys are
 * those of the epoch last activated, and over TCP the phases mirror the two receive sessions.
 */
module Phases {
  import opened Basics
  import opened Epochs
  import opened Exchange
  import opened TcpEndpoints
  import opened UdpEndpoints

  datatype Call =
    | CallStart(keys: KeyPair)
    | CallActivate(epoch: uint16)
    | CallObserve(epoch: uint16)
    | CallSeal(text: Plaintext)
    | CallOpen(frame: TcpFrame)
    | CallHear(datagram: Datagram)

  /** Which machine: its first keys, its end and its back end. */
  datatype Config = Config(keys: KeyPair, isServer: bool, udp: bool)

  function Start(g: Config): (ep: Endpoint)
    ensures Fit(ep, [g.keys], g)
  {
    Endpoint(NewMachine(g.keys), if g.udp then Udp(NewUdp(g.keys, g.isServer)) else Tcp(NewTcp(g.keys, g.isServer)))
  }

  function Do(ep: Endpoint, call: Call): (result: Endpoint)
  {
    match call
    case CallStart(keys) => StartRekey(ep, keys).1
    case CallActivate(epoch) => ActivateSend(ep, epoch)
    case CallObserve(epoch) => ObservePeer(ep, epoch)
    case CallSeal(text) => if ep.crypto.Udp? then SealUdp(ep, text).1 else SealTcp(ep, text).1
    case CallOpen(frame) => OpenTcp(ep, frame).1
    case CallHear(datagram) => OpenUdp(ep, datagram).1
  }

  function Run(g: Config, calls: seq<Call>): (result: Endpoint)
  {
    if calls == [] then Start(g) else Do(Run(g, calls[..|calls| - 1]), calls[|calls| - 1])
  }

  /** The keys of every epoch staged so far, the initial keys first. */
  function Installed(g: Config, calls: seq<Call>): (result: seq<KeyPair>)
  {
    if calls == [] then [g.keys]
    else
      var rest, last := calls[..|calls| - 1], calls[|calls| - 1];
      Installed(g, rest) + if last.CallStart? && StartRekey(Run(g, rest), last.keys).0.Ok? then [last.keys] else []
  }

  /** Machine and back end hold the keys ks, each under its own epoch. */
  ghost predicate Fit(ep: Endpoint, ks: seq<KeyPair>, g: Config)
  {
    if g.udp then Shaped(ep, ks, g.isServer) else TcpShaped(ep, ks, g.isServer)
  }

  /** What one call does to the machine, and that the fit is kept. */
  lemma DoFit(ep: Endpoint, ks: seq<KeyPair>, g: Config, call: Call)
    requires Fit(ep, ks, g)
    ensures var ep' := Do(ep, call);
            && Fit(ep', ks + (if call.CallStart? && StartRekey(ep, call.keys).0.Ok? then [call.keys] else []), g)
            && ep'.machine.currentEpoch ==
               if call.CallActivate? && ep.machine.phase == Staged && call.epoch == |ks| - 1 then call.epoch
               else ep.machine.currentEpoch
  {
    hide Shaped, TcpShaped, StartRekey, ActivateSend, ObservePeer, UdpEncrypt, TcpEncrypt, UdpDecrypt, TcpDecrypt;
    assert ks + [] == ks;
    if g.udp { DoUdp(ep, ks, g, call); } else { DoTcp(ep, ks, g, call); }
  }

  lemma DoUdp(ep: Endpoint, ks: seq<KeyPair>, g: Config, call: Call)
    requires g.udp && Fit(ep, ks, g)
    ensures var ep' := Do(ep, call);
            && Fit(ep', if call.CallStart? && StartRekey(ep, call.keys).0.Ok? then ks + [call.keys] else ks, g)
            && ep'.machine.currentEpoch ==
               if call.CallActivate? && ep.machine.phase == Staged && call.epoch == |ks| - 1 then call.epoch
               else ep.machine.currentEpoch
  {
    hide Shaped, StartRekey, ActivateSend, ObservePeer, SealUdp, OpenUdp;
    ShapedFacts(ep, ks, g.isServer);
    match call
    case CallStart(k) => StartShaped(ep, ks, g.isServer, k);
    case CallActivate(epoch) => ActivateShaped(ep, ks, g.isServer, epoch);
    case CallObserve(epoch) => ObserveShaped(ep, ks, g.isServer, epoch);
    case CallSeal(text) => SealShaped(ep, ks, g.isServer, text);
    case CallHear(datagram) => OpenShaped(ep, ks, g.isServer, datagram);
    case CallOpen(_) =>
  }

  lemma DoTcp(ep: Endpoint, ks: seq<KeyPair>, g: Config, call: Call)
    requires !g.udp && Fit(ep, ks, g)
    ensures var ep' := Do(ep, call);
            && Fit(ep', if call.CallStart? && StartRekey(ep, call.keys).0.Ok? then ks + [call.keys] else ks, g)
            && ep'.machine.currentEpoch ==
               if call.CallActivate? && ep.machine.phase == Staged && call.epoch == |ks| - 1 then call.epoch
               else ep.machine.currentEpoch
  {
    hide TcpShaped, StartRekey, ActivateSend, ObservePeer, SealTcp, OpenTcp;
    TcpShapedFacts(ep, ks, g.isServer);
    match call
    case CallStart(k) => TcpStartShaped(ep, ks, g.isServer, k);
    case CallActivate(epoch) => TcpActivateShaped(ep, ks, g.isServer, epoch);
    case CallObserve(epoch) => TcpObserveShaped(ep, ks, g.isServer, epoch);
    case CallSeal(text) => TcpSealShaped(ep, ks, g.isServer, text);
    case CallOpen(frame) => TcpOpenShaped(ep, ks, g.isServer, frame);
    case CallHear(_) =>
  }

  /** After any calls the machine and its sessions hold exactly the keys installed so far. */
  lemma {:induction false} RunFit(g: Config, calls: seq<Call>)
    ensures Fit(Run(g, calls), Installed(g, calls), g)
  {
    hide Fit, Do;
    if calls != [] {
      var rest, last := calls[..|calls| - 1], calls[|calls| - 1];
      RunFit(g, rest);
      DoFit(Run(g, rest), Installed(g, rest), g, last);
    }
  }

  /** Both keys are 32 zero bytes. */
  predicate Cleared(keys: KeyPair)
  {
    |keys.c2s| == 32 && |keys.s2c| == 32 && forall i :: 0 <= i < 32 ==> keys.c2s[i] == 0 && keys.s2c[i] == 0
  }

  /** No key is left in the staged buffers once its epoch has been activated, nor before one is staged. */
  lemma {:induction false} StagedCleared(g: Config, calls: seq<Call>)
    ensures var m := Run(g, calls).machine; m.phase != Staged ==> Cleared(m.staged)
  {
    hide SealUdp, SealTcp, OpenUdp, OpenTcp, Stage, Promote, RetirePrevious;
    if calls != [] {
      var n := |calls| - 1;
      StagedCleared(g, calls[..n]);
      PacketsKeepMachine(Run(g, calls[..n]), calls[n]);
    }
  }

  lemma PacketsKeepMachine(ep: Endpoint, call: Call)
    ensures call.CallSeal? || call.CallOpen? || call.CallHear? ==> Do(ep, call).machine == ep.machine
  {
  }

  /** The epoch named by the last activation that matched the staged epoch; 0 before any. */
  function LastActivated(g: Config, calls: seq<Call>): (result: int)
  {
    if calls == [] then 0
    else
      var rest, last := calls[..|calls| - 1], calls[|calls| - 1];
      if last.CallActivate? && Run(g, rest).machine.phase == Staged && last.epoch == |Installed(g, rest)| - 1
      then last.epoch else LastActivated(g, rest)
  }

  /** The key the back end seals with now. */
  ghost predicate SealsWith(crypto: Crypto, key: Bytes)
  {
    match crypto
    case Udp(u) => Resolve(u.ring, u.sendEpoch) < |u.ring| && u.ring[Resolve(u.ring, u.sendEpoch)].sendKey == key
    case Tcp(t) =>
      if t.sendsNewest then t.newest.sendKey == key else t.previous.Some? && t.previous.value.sendKey == key
  }

  /** Current keys are those of the epoch last activated, and the back end seals with them. */
  lemma {:induction false} CurrentKeysOfLastActivated(g: Config, calls: seq<Call>)
    ensures var ep, ks, e := Run(g, calls), Installed(g, calls), LastActivated(g, calls);
            && 0 <= e < |ks| && ep.machine.currentEpoch == e && ep.machine.current == ks[e]
            && SealsWith(ep.crypto, SendKey(ks[e], g.isServer))
  {
    hide Fit, Do, SealsWith;
    LastIsCurrent(g, calls);
    RunFit(g, calls);
    FitSeals(Run(g, calls), Installed(g, calls), g);
  }

  lemma {:induction false} LastIsCurrent(g: Config, calls: seq<Call>)
    ensures Run(g, calls).machine.currentEpoch == LastActivated(g, calls)
  {
    hide Fit, Do;
    if calls != [] {
      var rest, last := calls[..|calls| - 1], calls[|calls| - 1];
      LastIsCurrent(g, rest);
      RunFit(g, rest);
      DoFit(Run(g, rest), Installed(g, rest), g, last);
    }
  }

  lemma FitSeals(ep: Endpoint, ks: seq<KeyPair>, g: Config)
    requires Fit(ep, ks, g)
    ensures var e := ep.machine.currentEpoch;
            e < |ks| && ep.machine.current == ks[e] && SealsWith(ep.crypto, SendKey(ks[e], g.isServer))
  {
    if g.udp {
      ResolveRing(ep.crypto.udp, ks, ep.machine.currentEpoch);
      SlotKeys(ep.crypto.udp, ks, ep.machine.currentEpoch);
    }
  }

  // ---- over TCP ----

  /**
   * Idle exactly when there is no previous session and the newest sends; staged exactly when
   * the previous one sends; retiring exactly when the newest sends and the previous is kept.
   */
  lemma {:induction false} PhaseCoupling(g: Config, calls: seq<Call>)
    requires !g.udp
    ensures var ep := Run(g, calls);
            && ep.crypto.Tcp?
            && var m, t := ep.machine, ep.crypto.tcp;
               && (m.phase == Idle <==> t.previous.None? && t.sendsNewest)
               && (m.phase == Staged <==> t.previous.Some? && !t.sendsNewest)
               && (m.phase == Retiring <==> t.previous.Some? && t.sendsNewest)
               && (t.sendsNewest ==> m.currentEpoch == t.newest.epoch)
               && (!t.sendsNewest ==> t.previous.Some? && m.currentEpoch == t.previous.value.epoch)
  {
    RunFit(g, calls);
  }

  /** The refusal "previous epoch not retired" cannot be reached through the machine. */
  lemma {:induction false} NeverUnretired(g: Config, calls: seq<Call>, next: KeyPair)
    requires !g.udp
    ensures StartRekey(Run(g, calls), next).0 != Err(PreviousNotRetired)
  {
    RunFit(g, calls);
    TcpStartShaped(Run(g, calls), Installed(g, calls), g.isServer, next);
  }

  /** Every retire call the machine makes, after an observation or an activation, succeeds. */
  lemma {:induction false} RetiresSucceed(g: Config, calls: seq<Call>, epoch: uint16)
    ensures var ep := Run(g, calls);
            && (ep.machine.phase == Retiring ==> RetirePrevious(ep.crypto).0)
            && (ep.machine.phase == Staged && epoch == ep.machine.stagedEpoch ==>
                  RetirePrevious(Promote(ep.crypto, epoch)).0)
  {
    RunFit(g, calls);
  }
}
