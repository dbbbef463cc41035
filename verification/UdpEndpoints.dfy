/** One UDP end in terms of the keys of every epoch it has installed. */
module UdpEndpoints {
  import opened Basics
  import opened Epochs
  import opened Exchange
  import opened Nonces
  import opened ReplayWindow

  ghost predicate SlotOf(slot: UdpSlot, epoch: int, keys: KeyPair, isServer: bool)
  {
    slot.epoch == epoch && slot.sendKey == SendKey(keys, isServer) && slot.recvKey == RecvKey(keys, isServer)
  }

  /** The ring holds the newest four of the epochs whose keys are ks. */
  ghost predicate RingOf(c: UdpCrypto, ks: seq<KeyPair>)
  {
    && ks != []
    && c.counter == |ks| - 1 <= MAX_EPOCH
    && |c.ring| == Min(RING_CAPACITY, |ks|)
    && forall i :: 0 <= i < |c.ring| ==>
         SlotOf(c.ring[i], |ks| - |c.ring| + i, ks[|ks| - |c.ring| + i], c.isServer)
  }

  /** Machine and ring agree on which epoch sends and what is staged. */
  ghost predicate Shaped(ep: Endpoint, ks: seq<KeyPair>, isServer: bool)
  {
    var m := ep.machine;
    && ep.crypto.Udp?
    && RingOf(ep.crypto.udp, ks)
    && ep.crypto.udp.isServer == isServer
    && ep.crypto.udp.sendEpoch == m.currentEpoch < |ks|
    && m.current == ks[m.currentEpoch]
    && (m.phase == Staged ==> m.currentEpoch == |ks| - 2 && m.stagedEpoch == |ks| - 1 && m.staged == ks[|ks| - 1])
    && (m.phase != Staged ==> m.currentEpoch == |ks| - 1)
    && (m.phase == Retiring ==> m.maxObserved < m.currentEpoch)
  }

  lemma ShapedFacts(ep: Endpoint, ks: seq<KeyPair>, isServer: bool)
    requires Shaped(ep, ks, isServer)
    ensures var m := ep.machine;
            && ep.crypto.Udp? && Allocated(ep) == |ks| - 1 <= MAX_EPOCH
            && m.currentEpoch == (if m.phase == Staged then |ks| - 2 else |ks| - 1)
            && m.current == ks[m.currentEpoch]
            && (m.phase == Staged ==> m.staged == ks[|ks| - 1])
            && (m.phase == Retiring ==> m.maxObserved < m.currentEpoch)
  {
  }

  lemma {:induction false} ResolveRing(c: UdpCrypto, ks: seq<KeyPair>, epoch: uint16)
    requires RingOf(c, ks)
    ensures var base := |ks| - |c.ring|;
            Resolve(c.ring, epoch) == if base <= epoch < |ks| then epoch - base else |c.ring|
  {
    var i, base := Resolve(c.ring, epoch), |ks| - |c.ring|;
    if base <= epoch < |ks| {
      assert SlotOf(c.ring[epoch - base], epoch, ks[epoch], c.isServer);
    }
    if i < |c.ring| {
      assert SlotOf(c.ring[i], base + i, ks[base + i], c.isServer);
    }
  }

  /** The slot that resolves an epoch carries that epoch's keys. */
  lemma {:induction false} SlotKeys(c: UdpCrypto, ks: seq<KeyPair>, epoch: uint16)
    requires RingOf(c, ks)
    ensures var i := Resolve(c.ring, epoch);
            i < |c.ring| ==> epoch < |ks| && SlotOf(c.ring[i], epoch, ks[epoch], c.isServer)
  {
    hide Resolve;
    ResolveRing(c, ks, epoch);
    var i, base := Resolve(c.ring, epoch), |ks| - |c.ring|;
    if i < |c.ring| {
      assert SlotOf(c.ring[i], base + i, ks[base + i], c.isServer);
    }
  }

  lemma NewShaped(keys: KeyPair, isServer: bool)
    ensures Shaped(Endpoint(NewMachine(keys), Udp(NewUdp(keys, isServer))), [keys], isServer)
  {
  }

  lemma SealShaped(ep: Endpoint, ks: seq<KeyPair>, isServer: bool, text: Plaintext)
    requires Shaped(ep, ks, isServer)
    ensures var (d, ep') := SealUdp(ep, text);
            && Shaped(ep', ks, isServer) && ep'.machine == ep.machine
            && (d.Some? ==> d.value.epoch == ep.machine.currentEpoch && d.value.text == text
                            && d.value.key == SendKey(ks[ep.machine.currentEpoch], isServer))
  {
    ResolveRing(ep.crypto.udp, ks, ep.machine.currentEpoch);
  }

  lemma OpenShaped(ep: Endpoint, ks: seq<KeyPair>, isServer: bool, d: Datagram)
    requires Shaped(ep, ks, isServer)
    ensures var (text, ep') := OpenUdp(ep, d);
            && Shaped(ep', ks, isServer) && ep'.machine == ep.machine
            && (text.Some? ==> text.value == d.text && d.epoch < |ks|)
  {
    hide Check, Accept, Resolve;
    ResolveRing(ep.crypto.udp, ks, d.epoch);
  }

  lemma ObserveShaped(ep: Endpoint, ks: seq<KeyPair>, isServer: bool, epoch: uint16)
    requires Shaped(ep, ks, isServer)
    ensures var m, m' := ep.machine, ObservePeer(ep, epoch).machine;
            && Shaped(ObservePeer(ep, epoch), ks, isServer)
            && ObservePeer(ep, epoch).crypto == ep.crypto
            && m'.currentEpoch == m.currentEpoch
            && m'.maxObserved == Max(m.maxObserved, epoch)
            && m'.phase == (if m.phase == Retiring && m'.maxObserved >= m.currentEpoch then Idle else m.phase)
  {
  }

  lemma ActivateShaped(ep: Endpoint, ks: seq<KeyPair>, isServer: bool, epoch: uint16)
    requires Shaped(ep, ks, isServer)
    ensures var m, ep' := ep.machine, ActivateSend(ep, epoch);
            && Shaped(ep', ks, isServer)
            && ep'.machine.maxObserved == m.maxObserved
            && (m.phase == Staged && epoch == |ks| - 1 ==>
                  ep'.machine.currentEpoch == epoch
                  && ep'.machine.phase == if m.maxObserved >= epoch then Idle else Retiring)
            && (!(m.phase == Staged && epoch == |ks| - 1) ==> ep' == ep)
  {
  }

  lemma StartShaped(ep: Endpoint, ks: seq<KeyPair>, isServer: bool, keys: KeyPair)
    requires Shaped(ep, ks, isServer)
    ensures var (r, ep') := StartRekey(ep, keys);
            && (!FullSize(keys) ==> r == Err(BadKeySize) && ep' == ep)
            && (FullSize(keys) && ep.machine.phase != Idle ==> r == Err(RekeyInProgress) && ep' == ep)
            && (FullSize(keys) && ep.machine.phase == Idle && |ks| > MAX_EPOCH ==> r == Err(EpochExhausted) && ep' == ep)
            && (FullSize(keys) && ep.machine.phase == Idle && |ks| <= MAX_EPOCH ==>
                  && r == Ok(|ks|)
                  && Shaped(ep', ks + [keys], isServer)
                  && ep'.machine.phase == Staged && ep'.machine.staged == keys
                  && ep'.machine.currentEpoch == ep.machine.currentEpoch
                  && ep'.machine.maxObserved == ep.machine.maxObserved)
  {
    if ep.machine.phase == Idle && |ks| <= MAX_EPOCH {
      StageRing(ep.crypto.udp, ks, keys);
      assert (ks + [keys])[ep.machine.currentEpoch] == ks[ep.machine.currentEpoch];
    }
  }

  lemma StageRing(c: UdpCrypto, ks: seq<KeyPair>, keys: KeyPair)
    requires RingOf(c, ks) && c.sendEpoch == |ks| - 1 < MAX_EPOCH
    ensures UdpStage(c, keys).0 == Ok(|ks|)
    ensures RingOf(UdpStage(c, keys).1, ks + [keys])
  {
    assert SlotOf(c.ring[0], |ks| - |c.ring|, ks[|ks| - |c.ring|], c.isServer);
    var c', ks' := UdpStage(c, keys).1, ks + [keys];
    forall i | 0 <= i < |c'.ring|
      ensures SlotOf(c'.ring[i], |ks'| - |c'.ring| + i, ks'[|ks'| - |c'.ring| + i], c.isServer)
    {
      if i < |c'.ring| - 1 {
        var j := if |c.ring| == RING_CAPACITY then i + 1 else i;
        assert c'.ring[i] == c.ring[j];
        assert SlotOf(c.ring[j], |ks| - |c.ring| + j, ks[|ks| - |c.ring| + j], c.isServer);
      }
    }
  }
}
