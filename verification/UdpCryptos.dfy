/** The UDP crypto object: each method is the back-end function of the same name, in place. */
module UdpCryptos {
  import opened Basics
  import opened Epochs
  import opened Nonces
  import opened UdpSessions

  class Crypto {
    const ring: EpochRing
    const isServer: bool
    var sendEpoch: uint16
    var epochCounter: uint16

    /** Every session the ring can resolve is live: eviction alone clears one, and drops it. */
    ghost predicate Valid()
      reads this, ring, ring.Repr
    {
      this !in ring.Repr && ring.Valid() && ring.capacity == RING_CAPACITY && 0 < |ring.entries| <= RING_CAPACITY
    }

    ghost function Model(): (result: UdpCrypto)
      reads this, ring, ring.Repr
      requires Valid()
    {
      UdpCrypto(ring.Model(), sendEpoch, epochCounter, isServer)
    }

    constructor (keys: KeyPair, isServer: bool)
      ensures Valid() && fresh(ring) && fresh(ring.Repr)
      ensures Model() == NewUdp(keys, isServer)
    {
      var initial := new Session(0, SendKey(keys, isServer), RecvKey(keys, isServer));
      var ring := new EpochRing(RING_CAPACITY, initial);
      this.ring, this.isServer, sendEpoch, epochCounter := ring, isServer, 0, 0;
    }

    method Encrypt(text: Plaintext) returns (d: Option<Datagram>, header: Bytes)
      requires Valid()
      modifies ring.Repr
      ensures Valid() && ring.Repr == old(ring.Repr)
      ensures (d, Model()) == UdpEncrypt(old(Model()), text)
      ensures d.Some? ==> d.value.number <= LAST_COUNTER && header == NonceBytes(d.value.number, d.value.epoch)
    {
      ghost var was := Model();
      var found, i := ring.Resolve(sendEpoch);
      if !found {
        i := |ring.entries| - 1;
      }
      assert i == SendSlot(was);
      d, header := ring.EncryptAt(i, text);
    }

    /** Opens in the session of the epoch the header names; any header but the packet's own is refused. */
    method Decrypt(header: Bytes, d: Datagram) returns (text: Option<Plaintext>)
      requires Valid() && d.number <= LAST_COUNTER
      modifies ring, ring.Repr
      ensures Valid() && fresh(ring.Repr - old(ring.Repr))
      ensures (text, Model()) == if header == NonceBytes(d.number, d.epoch) then UdpDecrypt(old(Model()), d) else (None, old(Model()))
    {
      hide Session.Valid, Session.Model, EpochRing.Valid, EpochRing.Model, NonceBytes;
      if |header| != 12 {
        return None;
      }
      HeaderParts(header, d);
      var found, i := ring.Resolve(Decoded(header[10..12]));
      if !found {
        return None;
      }
      text := ring.DecryptAt(i, header, d);
    }

    /** Installs a session under the next epoch, unless that would evict the one that sends. */
    method StageEpoch(keys: KeyPair) returns (r: Result<uint16, Error>)
      requires Valid()
      modifies this, ring, ring.Repr
      ensures Valid() && fresh(ring.Repr - old(ring.Repr))
      ensures (r, Model()) == UdpStage(old(Model()), keys)
    {
      hide Session.Valid, Session.Model, EpochRing.Valid, EpochRing.Model;
      if epochCounter >= MAX_EPOCH {
        return Err(EpochExhausted);
      }
      var nextEpoch := epochCounter + 1;
      ring.OldestEpoch();
      if |ring.entries| == ring.capacity && ring.entries[0].epoch == sendEpoch {
        return Err(WouldEvictSender);
      }
      var session := new Session(nextEpoch, SendKey(keys, isServer), RecvKey(keys, isServer));
      ring.Insert(session);
      epochCounter := nextEpoch;
      r := Ok(nextEpoch);
    }

    method PromoteSendEpoch(epoch: uint16)
      requires Valid()
      modifies this
      ensures Valid() && Udp(Model()) == Promote(Udp(old(Model())), epoch)
    {
      sendEpoch := epoch;
    }

    /** UDP keeps older sessions until the ring evicts them. */
    method RetirePreviousEpoch() returns (ok: bool)
      requires Valid()
      ensures (ok, Udp(Model())) == RetirePrevious(Udp(Model()))
    {
      ok := true;
    }
  }

  /** What one end seals reaches the other through the header alone: the epoch and number read there are the sender's. */
  method Carry(sender: Crypto, receiver: Crypto, text: Plaintext) returns (got: Option<Plaintext>)
    requires sender.Valid() && receiver.Valid() && {sender} + {sender.ring} + sender.ring.Repr !! {receiver} + {receiver.ring} + receiver.ring.Repr
    modifies sender.ring.Repr, receiver.ring, receiver.ring.Repr
    ensures sender.Valid() && receiver.Valid()
    ensures var (d, c) := UdpEncrypt(old(sender.Model()), text);
            && sender.Model() == c
            && (d.None? ==> got == None && receiver.Model() == old(receiver.Model()))
            && (d.Some? ==> (got, receiver.Model()) == UdpDecrypt(old(receiver.Model()), d.value))
  {
    hide EpochRing.Valid, EpochRing.Model, UdpEncrypt, UdpDecrypt, NonceBytes;
    var d, header := sender.Encrypt(text);
    if d.None? {
      return None;
    }
    got := receiver.Decrypt(header, d.value);
  }
}
