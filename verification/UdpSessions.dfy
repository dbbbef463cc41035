/**
 * The UDP back end as the program keeps it: sessions with a nonce counter and a replay window
 * changed in place, and the bounded ring that resolves an epoch to its session.
 */
module UdpSessions {
  import opened Basics
  import opened Epochs
  import opened Nonces
  import W = ReplayWindow
  import opened SlidingWindows

  class Session {
    const epoch: uint16
    const sendKey: Bytes
    const recvKey: Bytes
    const nonce: Nonce
    const window: SlidingWindow
    var zeroized: bool
    ghost var Repr: set<object>

    ghost predicate Valid()
      reads this, Repr
      ensures Valid() ==> this in Repr
    {
      && this in Repr && nonce in Repr && window in Repr && window.Bitmaps() <= Repr
      && window.Valid()
      && (!zeroized ==> nonce.epoch == epoch)
    }

    ghost function Model(): (result: UdpSlot)
      reads this, Repr
      requires Valid()
    {
      UdpSlot(epoch, sendKey, recvKey, nonce.Value(), window.Model())
    }

    constructor (epoch: uint16, sendKey: Bytes, recvKey: Bytes)
      ensures Valid() && fresh(Repr) && !zeroized
      ensures this.epoch == epoch && Model() == UdpSlot(epoch, sendKey, recvKey, 0, [])
    {
      this.epoch, this.sendKey, this.recvKey, zeroized := epoch, sendKey, recvKey, false;
      nonce := new Nonce(epoch);
      window := new SlidingWindow();
      new;
      Repr := {this, nonce, window};
    }

    /** Seals with the next nonce, or refuses once the last one has been used. */
    method Encrypt(text: Plaintext) returns (d: Option<Datagram>, header: Bytes)
      requires Valid() && !zeroized
      modifies nonce
      ensures Valid() && window.Model() == old(window.Model())
      ensures d == if old(Model()).sent >= LAST_COUNTER then None
                   else Some(Datagram(epoch, old(Model()).sent + 1, sendKey, text))
      ensures Model() == old(Model()).(sent := if d.Some? then d.value.number else old(Model()).sent)
      ensures d.Some? ==> header == NonceBytes(d.value.number, epoch)
    {
      var ok := nonce.Increment();
      if !ok {
        return None, [];
      }
      header := nonce.Encode();
      d := Some(Datagram(epoch, nonce.Value(), sendKey, text));
    }

    /**
     * Reads the number in the header, checks it, opens, and only then commits it to the window.
     * Sealed content opens only beside the header that is its nonce.
     */
    method Decrypt(header: Bytes, d: Datagram) returns (text: Option<Plaintext>)
      requires Valid() && |header| == 12 && d.number <= LAST_COUNTER
      modifies Repr
      ensures Valid() && fresh(Repr - old(Repr)) && zeroized == old(zeroized)
      ensures text == if header == NonceBytes(d.number, d.epoch) && d.key == recvKey
                         && W.Check(old(Model()).window, LowHalf(d.number), HighHalf(d.number))
                      then Some(d.text) else None
      ensures Model() == if text.None? then old(Model())
                         else old(Model()).(window := W.Accept(old(Model()).window, LowHalf(d.number), HighHalf(d.number)))
    {
      HeaderParts(header, d);
      var low, high := Decoded(header[..8]), Decoded(header[8..10]);
      var accepted := window.Check(low, high);
      if !accepted {
        return None;
      }
      if d.key != recvKey || header != NonceBytes(d.number, d.epoch) {
        return None;
      }
      window.Accept(low, high);
      Repr := Repr + window.Bitmaps();
      text := Some(d.text);
    }

    /** Clears the counter and the replay window; the session must not be used again. */
    method Zeroize()
      requires Valid()
      modifies Repr
      ensures Valid() && zeroized && Repr == old(Repr)
    {
      zeroized := true;
      nonce.Zeroize();
      window.Zeroize();
    }
  }

  /** What a receiver reads in a header, and what it reads there when the header is the packet's own. */
  lemma HeaderParts(header: Bytes, d: Datagram)
    requires |header| == 12 && d.number <= LAST_COUNTER
    ensures Decoded(header[..8]) < WORD && Decoded(header[8..10]) < 0x1_0000 && Decoded(header[10..12]) < 0x1_0000
    ensures header == NonceBytes(d.number, d.epoch) ==>
              && Decoded(header[..8]) == LowHalf(d.number) && Decoded(header[8..10]) == HighHalf(d.number)
              && Decoded(header[10..12]) == d.epoch
  {
    hide NonceBytes;
    Bounds();
    DecodedBound(header[..8]);
    DecodedBound(header[8..10]);
    DecodedBound(header[10..12]);
    Layout(d.number, d.epoch);
  }

  datatype RingEntry = RingEntry(epoch: uint16, session: Session)

  class EpochRing {
    const capacity: nat
    var entries: seq<RingEntry>
    ghost var Repr: set<object>

    /** The ring owns its sessions, apart from each other, and none has been zeroized. */
    ghost predicate Valid()
      reads this, Repr
      ensures Valid() ==> this in Repr
    {
      && this in Repr
      && (forall i :: 0 <= i < |entries| ==>
            && entries[i].session in Repr && entries[i].session.Repr <= Repr && this !in entries[i].session.Repr
            && entries[i].session.Valid() && !entries[i].session.zeroized
            && entries[i].epoch == entries[i].session.epoch)
      && (forall i, j :: 0 <= i < j < |entries| ==> entries[i].session.Repr !! entries[j].session.Repr)
    }

    ghost function Model(): (m: seq<UdpSlot>)
      reads this, Repr
      requires Valid()
      ensures |m| == |entries|
    {
      seq(|entries|, i requires 0 <= i < |entries| && Valid() reads this, Repr => entries[i].session.Model())
    }

    constructor (capacity: nat, initial: Session)
      requires initial.Valid() && !initial.zeroized
      ensures Valid() && this.capacity == capacity && fresh(Repr - initial.Repr)
      ensures entries == [RingEntry(initial.epoch, initial)] && Model() == [initial.Model()]
    {
      this.capacity := capacity;
      entries := [RingEntry(initial.epoch, initial)];
      new;
      Repr := {this} + initial.Repr;
    }

    lemma OldestEpoch()
      requires Valid() && entries != []
      ensures Model()[0].epoch == entries[0].epoch
    {
    }

    method Resolve(epoch: uint16) returns (found: bool, i: nat)
      requires Valid()
      ensures i == Epochs.Resolve(Model(), epoch) && found == (i < |entries|)
    {
      i := 0;
      while i < |entries| && entries[i].epoch != epoch
        invariant i <= |entries|
        invariant forall j :: 0 <= j < i ==> entries[j].epoch != epoch
      {
        i := i + 1;
      }
      found := i < |entries|;
      ResolveUnique(Model(), epoch, i);
    }

    /** A live session of the ring, standing for slot. */
    ghost predicate Kept(e: RingEntry, slot: UdpSlot)
      reads e.session, e.session.Repr
    {
      e.session.Valid() && !e.session.zeroized && e.epoch == e.session.epoch && e.session.Model() == slot
    }

    /** The ring around one changed session. */
    twostate lemma Reassembled(i: nat)
      requires old(Valid()) && entries == old(entries) && i < |entries|
      requires entries[i].session.Valid() && Kept(entries[i], entries[i].session.Model()) && this !in entries[i].session.Repr
      requires fresh(entries[i].session.Repr - old(entries[i].session.Repr))
      requires Repr == old(Repr) + entries[i].session.Repr
      requires forall j :: 0 <= j < |entries| && j != i ==> unchanged(old(entries[j].session.Repr))
      ensures Valid() && Model() == old(Model())[i := entries[i].session.Model()]
    {
    }

    /** Seals with one resolved session; the others stay as they are. */
    method EncryptAt(i: nat, text: Plaintext) returns (d: Option<Datagram>, header: Bytes)
      requires Valid() && i < |entries|
      modifies Repr
      ensures Valid() && Repr == old(Repr) && entries == old(entries)
      ensures var slot := old(Model())[i];
              && (slot.sent >= LAST_COUNTER ==> d == None && Model() == old(Model()))
              && (slot.sent < LAST_COUNTER ==>
                    && d == Some(Datagram(slot.epoch, slot.sent + 1, slot.sendKey, text))
                    && header == NonceBytes(slot.sent + 1, slot.epoch)
                    && Model() == old(Model())[i := slot.(sent := slot.sent + 1)])
    {
      ghost var was := Model();
      var session := entries[i].session;
      assert was[i] == session.Model();
      d, header := session.Encrypt(text);
      Reassembled(i);
      assert was[i := was[i]] == was;
    }

    /** Opens with one resolved session; a failure changes nothing. */
    method DecryptAt(i: nat, header: Bytes, d: Datagram) returns (text: Option<Plaintext>)
      requires Valid() && i < |entries| && |header| == 12 && d.number <= LAST_COUNTER
      modifies Repr
      ensures Valid() && fresh(Repr - old(Repr)) && entries == old(entries)
      ensures var slot := old(Model())[i];
              var low, high := LowHalf(d.number), HighHalf(d.number);
              if header == NonceBytes(d.number, d.epoch) && W.Check(slot.window, low, high) && d.key == slot.recvKey
              then text == Some(d.text) && Model() == old(Model())[i := slot.(window := W.Accept(slot.window, low, high))]
              else text == None && Model() == old(Model())
    {
      ghost var was := Model();
      var session := entries[i].session;
      assert was[i] == session.Model();
      text := session.Decrypt(header, d);
      Repr := Repr + session.Repr;
      Reassembled(i);
      assert was[i := was[i]] == was;
    }

    /** Adds a session, evicting and clearing the oldest one of a full ring. */
    method Insert(session: Session)
      requires Valid() && session.Valid() && !session.zeroized
      requires capacity > 0 && session.Repr !! Repr
      modifies Repr
      ensures Valid() && fresh(Repr - old(Repr) - session.Repr)
      ensures |entries| == (if old(|entries|) == capacity then capacity else old(|entries|) + 1)
      ensures Model() == (if old(|entries|) == capacity then old(Model())[1..] else old(Model())) + [old(session.Model())]
      ensures old(|entries|) == capacity ==> old(entries[0].session).zeroized
    {
      if |entries| == capacity {
        Evict();
      }
      Append(session);
    }

    method Append(session: Session)
      requires Valid() && session.Valid() && !session.zeroized && session.Repr !! Repr
      modifies this
      ensures Valid() && Repr == old(Repr) + session.Repr
      ensures entries == old(entries) + [RingEntry(session.epoch, session)]
      ensures Model() == old(Model()) + [session.Model()]
    {
      entries := entries + [RingEntry(session.epoch, session)];
      Repr := Repr + session.Repr;
    }

    /** Clears the oldest session and drops it. */
    method Evict()
      requires Valid() && entries != []
      modifies Repr
      ensures Valid() && Repr == old(Repr) && entries == old(entries)[1..]
      ensures Model() == old(Model())[1..]
      ensures old(entries[0].session).zeroized
    {
      entries[0].session.Zeroize();
      entries := entries[1..];
    }
  }

  lemma {:induction false} ResolveUnique(ring: seq<UdpSlot>, epoch: uint16, n: nat)
    requires n <= |ring|
    requires forall j :: 0 <= j < n ==> ring[j].epoch != epoch
    requires n < |ring| ==> ring[n].epoch == epoch
    ensures Epochs.Resolve(ring, epoch) == n
  {
  }
}
