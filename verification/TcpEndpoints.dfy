/** One TCP end in terms of the keys of every epoch it has installed. */
module TcpEndpoints {
  import opened Basics
  import opened Epochs
  import opened Nonces

  ghost predicate SessionOf(s: TcpSession, epoch: int, keys: KeyPair, isServer: bool)
  {
    s.epoch == epoch && s.sendKey == SendKey(keys, isServer) && s.recvKey == RecvKey(keys, isServer)
  }

  /** Phase by phase, which receive sessions exist and which of them sends. */
  predicate PhaseMatches(phase: Phase, t: TcpCrypto)
  {
    match phase
    case Idle => t.previous.None? && t.sendsNewest
    case Staged => t.previous.Some? && !t.sendsNewest
    case Retiring => t.previous.Some? && t.sendsNewest
  }

  /** The sessions are those of the newest two of the epochs whose keys are ks. */
  ghost predicate SessionsOf(t: TcpCrypto, ks: seq<KeyPair>)
  {
    var n := |ks| - 1;
    && 0 <= n == t.counter <= MAX_EPOCH
    && SessionOf(t.newest, n, ks[n], t.isServer)
    && (t.previous.Some? ==> n > 0 && SessionOf(t.previous.value, n - 1, ks[n - 1], t.isServer))
  }

  ghost predicate TcpShaped(ep: Endpoint, ks: seq<KeyPair>, isServer: bool)
  {
    var m := ep.machine;
    && ep.crypto.Tcp?
    && SessionsOf(ep.crypto.tcp, ks) && ep.crypto.tcp.isServer == isServer
    && PhaseMatches(m.phase, ep.crypto.tcp)
    && m.currentEpoch == (if m.phase == Staged then |ks| - 2 else |ks| - 1)
    && m.current == ks[m.currentEpoch]
    && (m.phase == Staged ==> m.stagedEpoch == |ks| - 1 && m.staged == ks[|ks| - 1])
    && (m.phase == Retiring ==> m.maxObserved < m.currentEpoch)
  }

  lemma NewTcpShaped(keys: KeyPair, isServer: bool)
    ensures TcpShaped(Endpoint(NewMachine(keys), Tcp(NewTcp(keys, isServer))), [keys], isServer)
  {
  }

  lemma TcpShapedFacts(ep: Endpoint, ks: seq<KeyPair>, isServer: bool)
    requires TcpShaped(ep, ks, isServer)
    ensures var m := ep.machine;
            && ep.crypto.Tcp? && Allocated(ep) == |ks| - 1 <= MAX_EPOCH
            && m.currentEpoch == (if m.phase == Staged then |ks| - 2 else |ks| - 1)
            && m.current == ks[m.currentEpoch]
            && (m.phase == Staged ==> m.staged == ks[|ks| - 1])
            && (m.phase == Retiring ==> m.maxObserved < m.currentEpoch)
  {
  }

  lemma TcpSealShaped(ep: Endpoint, ks: seq<KeyPair>, isServer: bool, text: Plaintext)
    requires TcpShaped(ep, ks, isServer)
    ensures TcpShaped(SealTcp(ep, text).1, ks, isServer)
    ensures SealTcp(ep, text).1.machine == ep.machine
  {
  }

  lemma TcpOpenShaped(ep: Endpoint, ks: seq<KeyPair>, isServer: bool, f: TcpFrame)
    requires TcpShaped(ep, ks, isServer)
    ensures TcpShaped(OpenTcp(ep, f).1, ks, isServer)
    ensures OpenTcp(ep, f).1.machine == ep.machine
  {
  }

  lemma TcpObserveShaped(ep: Endpoint, ks: seq<KeyPair>, isServer: bool, epoch: uint16)
    requires TcpShaped(ep, ks, isServer)
    ensures var m, ep' := ep.machine, ObservePeer(ep, epoch);
            && TcpShaped(ep', ks, isServer)
            && ep'.machine.currentEpoch == m.currentEpoch && ep'.machine.maxObserved == Max(m.maxObserved, epoch)
            && ep'.machine.phase ==
               (if m.phase == Retiring && ep'.machine.maxObserved >= m.currentEpoch then Idle else m.phase)
  {
  }

  lemma TcpActivateShaped(ep: Endpoint, ks: seq<KeyPair>, isServer: bool, epoch: uint16)
    requires TcpShaped(ep, ks, isServer)
    ensures var m, ep' := ep.machine, ActivateSend(ep, epoch);
            && TcpShaped(ep', ks, isServer)
            && ep'.machine.maxObserved == m.maxObserved
            && (m.phase == Staged && epoch == |ks| - 1 ==>
                  && ep'.machine.currentEpoch == epoch
                  && ep'.machine.phase == if m.maxObserved >= epoch then Idle else Retiring)
            && (!(m.phase == Staged && epoch == |ks| - 1) ==> ep' == ep)
  {
  }

  lemma TcpStartShaped(ep: Endpoint, ks: seq<KeyPair>, isServer: bool, keys: KeyPair)
    requires TcpShaped(ep, ks, isServer)
    ensures var (r, ep') := StartRekey(ep, keys);
            && r != Err(PreviousNotRetired)
            && (r.Ok? <==> |keys.c2s| == KEY_SIZE && |keys.s2c| == KEY_SIZE && ep.machine.phase == Idle && |ks| <= MAX_EPOCH)
            && (r.Err? ==> ep' == ep)
            && (r.Ok? ==>
                  && r.value == |ks|
                  && TcpShaped(ep', ks + [keys], isServer)
                  && ep'.machine.phase == Staged && ep'.machine.staged == keys
                  && ep'.machine.currentEpoch == ep.machine.currentEpoch
                  && ep'.machine.maxObserved == ep.machine.maxObserved
                  && ep'.crypto.tcp.previous == Some(ep.crypto.tcp.newest)
                  && ep'.crypto.tcp.newest.sent == 0 && ep'.crypto.tcp.newest.received == 0)
  {
  }
}
