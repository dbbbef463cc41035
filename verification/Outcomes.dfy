/**
 * What each operation does with whatever it is given: the client with any packet that might be
 * an ack, and the two back ends with any packet to open or seal and any epoch to stage.
 */
module Outcomes {
  import opened Basics
  import opened Coordinators
  import opened Epochs
  import opened Exchange
  import opened Exhaustion
  import opened Nonces
  import opened ReplayWindow
  import TE = TcpEndpoints
  import T = TcpProtocol
  import opened Transcripts
  import UE = UdpEndpoints
  import opened UdpNumbers

  // ---- the client and acks ----

  /** A well-formed ack of the session's version, carried by the epoch that carried the pending init. */
  predicate Meant(suite: Suite, c: Client, carrier: uint16, ack: Plaintext)
  {
    && (match suite
        case V1(_, _, _) => ack.Service? && ack.kind == RekeyAck && |ack.body| == 32
        case V2(_, _, _, _) => ack.Service? && ack.kind == RekeyAckV2 && ack.body != [])
    && c.pending.Some? && c.pending.value.carrier == carrier
  }

  /** Installing keys at the client moves it to the next epoch, under them. */
  lemma Moves(ep: Endpoint, ks: seq<KeyPair>, keys: KeyPair)
    requires Kept(ep, ks, false) && ep.machine.phase == Idle
    ensures Allocated(ep) <= MAX_EPOCH
    ensures var (r, mid) := StartRekey(ep, keys);
            && (!FullSize(keys) ==> r == Err(BadKeySize))
            && (FullSize(keys) && Allocated(ep) == MAX_EPOCH ==> r == Err(EpochExhausted))
            && (FullSize(keys) && Allocated(ep) < MAX_EPOCH ==>
                  && r == Ok(Allocated(ep) + 1)
                  && var m := ActivateSend(mid, r.value).machine;
                     m.current == keys && m.currentEpoch == Allocated(ep) + 1 && m.phase != Staged)
  {
    if UE.Shaped(ep, ks, false) { UdpMoves(ep, ks, keys); } else { TcpMoves(ep, ks, keys); }
  }

  lemma UdpMoves(ep: Endpoint, ks: seq<KeyPair>, keys: KeyPair)
    requires UE.Shaped(ep, ks, false) && ep.machine.phase == Idle
    ensures Allocated(ep) <= MAX_EPOCH
    ensures var (r, mid) := StartRekey(ep, keys);
            && (!FullSize(keys) ==> r == Err(BadKeySize))
            && (FullSize(keys) && Allocated(ep) == MAX_EPOCH ==> r == Err(EpochExhausted))
            && (FullSize(keys) && Allocated(ep) < MAX_EPOCH ==>
                  && r == Ok(Allocated(ep) + 1)
                  && var m := ActivateSend(mid, r.value).machine;
                     m.current == keys && m.currentEpoch == Allocated(ep) + 1 && m.phase != Staged)
  {
    hide UE.Shaped, StartRekey, ActivateSend;
    UE.StartShaped(ep, ks, false, keys);
    UE.ShapedFacts(ep, ks, false);
    var (r, mid) := StartRekey(ep, keys);
    if r.Ok? {
      UE.ActivateShaped(mid, ks + [keys], false, r.value);
      UE.ShapedFacts(ActivateSend(mid, r.value), ks + [keys], false);
    }
  }

  lemma TcpMoves(ep: Endpoint, ks: seq<KeyPair>, keys: KeyPair)
    requires TE.TcpShaped(ep, ks, false) && ep.machine.phase == Idle
    ensures Allocated(ep) <= MAX_EPOCH
    ensures var (r, mid) := StartRekey(ep, keys);
            && (!FullSize(keys) ==> r == Err(BadKeySize))
            && (FullSize(keys) && Allocated(ep) == MAX_EPOCH ==> r == Err(EpochExhausted))
            && (FullSize(keys) && Allocated(ep) < MAX_EPOCH ==>
                  && r == Ok(Allocated(ep) + 1)
                  && var m := ActivateSend(mid, r.value).machine;
                     m.current == keys && m.currentEpoch == Allocated(ep) + 1 && m.phase != Staged)
  {
    hide TE.TcpShaped, StartRekey, ActivateSend;
    TE.TcpStartShaped(ep, ks, false, keys);
    TE.TcpShapedFacts(ep, ks, false);
    TcpRefusals(ep, ks, keys);
    var (r, mid) := StartRekey(ep, keys);
    if r.Ok? {
      TE.TcpActivateShaped(mid, ks + [keys], false, r.value);
      TE.TcpShapedFacts(ActivateSend(mid, r.value), ks + [keys], false);
    }
  }

  lemma TcpRefusals(ep: Endpoint, ks: seq<KeyPair>, keys: KeyPair)
    requires TE.TcpShaped(ep, ks, false) && ep.machine.phase == Idle
    ensures !FullSize(keys) ==> StartRekey(ep, keys).0 == Err(BadKeySize)
    ensures FullSize(keys) && Allocated(ep) == MAX_EPOCH ==> StartRekey(ep, keys).0 == Err(EpochExhausted)
  {
  }

  /**
   * An ack that is not meant for the pending exchange changes nothing. One that is, at an idle
   * client, moves it to the next epoch under the derived keys and ends the exchange; if it derives
   * nothing of use or no epoch is left, the end stays as it was, version 1 keeps the exchange to
   * try again and version 2, whose state is used up, drops it.
   */
  lemma AckExactly(suite: Suite, c: Client, ks: seq<KeyPair>, carrier: uint16, ack: Plaintext)
    requires Kept(c.ep, ks, false) && c.ep.machine.phase == Idle
    ensures var (r, c') := HandleAck(suite, c, carrier, ack);
            && (!Meant(suite, c, carrier, ack) ==> r == Ok(false) && c' == c)
            && (Meant(suite, c, carrier, ack) ==>
                  var p := c.pending.value;
                  var keys := Finish(suite, p.seed, p.startKeys, c.ep.machine.current, ack.body);
                  if keys.Some? && FullSize(keys.value) && Allocated(c.ep) < MAX_EPOCH
                  then
                    && r == Ok(true) && c'.pending == None
                    && c'.ep.machine.current == keys.value && c'.ep.machine.currentEpoch == Allocated(c.ep) + 1
                  else
                    && r == Err(if keys.None? then ExchangeFailed else if FullSize(keys.value) then EpochExhausted else BadKeySize)
                    && c' == c.(pending := if suite.V1? then Some(p) else None))
  {
    hide Kept, Finish, StartRekey, ActivateSend;
    MeantIs(suite, c, carrier, ack);
    if Meant(suite, c, carrier, ack) {
      var keys := Finish(suite, c.pending.value.seed, c.pending.value.startKeys, c.ep.machine.current, ack.body);
      if keys.Some? { Moves(c.ep, ks, keys.value); }
    }
  }

  /**
   * The control plane ends the connection exactly on the notice and on a meant ack whose keys would
   * need an epoch past the last.
   */
  lemma LeavesExactly(suite: Suite, c: Client, ks: seq<KeyPair>, p: Parcel)
    requires Kept(c.ep, ks, false)
    ensures !ClientService(suite, c, p).0 <==>
              || (p.text.Service? && p.text.kind == ExhaustedNotice)
              || (&& Meant(suite, c, p.epoch, p.text) && c.ep.machine.phase == Idle && Allocated(c.ep) == MAX_EPOCH
                  && var q := c.pending.value;
                     var keys := Finish(suite, q.seed, q.startKeys, c.ep.machine.current, p.text.body);
                     keys.Some? && FullSize(keys.value))
  {
    hide Kept, Finish, StartRekey, ActivateSend;
    MeantIs(suite, c, p.epoch, p.text);
    if Meant(suite, c, p.epoch, p.text) {
      var keys := Finish(suite, c.pending.value.seed, c.pending.value.startKeys, c.ep.machine.current, p.text.body);
      if keys.Some? {
        if c.ep.machine.phase == Idle { Moves(c.ep, ks, keys.value); } else { StartRefused(c.ep, keys.value); }
      }
    }
  }

  lemma MeantIs(suite: Suite, c: Client, carrier: uint16, ack: Plaintext)
    ensures Meant(suite, c, carrier, ack) <==> IsAnswer(suite, c, carrier, ack)
  {
  }

  /** After a failed ack, version 1 still completes on a good one; version 2 heeds no further ack and starts afresh. */
  lemma SecondChance(suite: Suite, c: Client, carrier: uint16, bad: Plaintext, good: Plaintext, now: int, draw: Seed)
    requires HandleAck(suite, c, carrier, bad).0.Err?
    ensures var c' := HandleAck(suite, c, carrier, bad).1;
            && (suite.V1? ==> HandleAck(suite, c', carrier, good) == HandleAck(suite, c, carrier, good))
            && (suite.V2? ==>
                  && HandleAck(suite, c', carrier, good) == (Ok(false), c')
                  && (c.ep.machine.phase == Idle && c'.rotateAt <= now ==>
                        MaybeBuildInit(suite, c', now, Some(draw), 0).1.pending
                        == Some(Pending(draw, c.ep.machine.current, c.ep.machine.currentEpoch))))
  {
    hide Finish, StartRekey, ActivateSend;
  }

  // ---- the UDP back end ----

  /**
   * A datagram opens exactly in the slot of its epoch, with that slot's receive key and a number its
   * window lets through, and marks that window only.
   */
  lemma UdpOpensExactly(c: UdpCrypto, d: Datagram)
    requires DistinctEpochs(c.ring) && d.number <= LAST_COUNTER
    ensures UdpDecrypt(c, d).0.Some? <==>
              exists i :: 0 <= i < |c.ring| && c.ring[i].epoch == d.epoch && c.ring[i].recvKey == d.key
                          && Check(c.ring[i].window, d.number % WORD, d.number / WORD)
    ensures UdpDecrypt(c, d).0.Some? ==> UdpDecrypt(c, d).0.value == d.text
    ensures var c' := UdpDecrypt(c, d).1;
            && |c'.ring| == |c.ring| && c' == c.(ring := c'.ring)
            && (UdpDecrypt(c, d).0.None? ==> c' == c)
            && (UdpDecrypt(c, d).0.Some? ==>
                  forall i :: 0 <= i < |c.ring| ==>
                    c'.ring[i] == if c.ring[i].epoch == d.epoch
                                  then c.ring[i].(window := Accept(c.ring[i].window, d.number % WORD, d.number / WORD)) else c.ring[i])
  {
    hide Check, Accept;
    var i := Resolve(c.ring, d.epoch);
    assert d.number / WORD < 0x1_0000;
  }

  /**
   * A packet is sealed in the slot of the send epoch, or the newest when the ring has none, with
   * that slot's send key and its next number; only that slot's counter moves.
   */
  lemma UdpSealsExactly(c: UdpCrypto, text: Plaintext, i: nat)
    requires DistinctEpochs(c.ring) && i < |c.ring|
    requires c.ring[i].epoch == c.sendEpoch || (i == |c.ring| - 1 && forall j :: 0 <= j < |c.ring| ==> c.ring[j].epoch != c.sendEpoch)
    ensures var (d, c') := UdpEncrypt(c, text);
            && (d.None? <==> c.ring[i].sent >= LAST_COUNTER) && (d.None? ==> c' == c)
            && (d.Some? ==>
                  && d.value == Datagram(c.ring[i].epoch, c.ring[i].sent + 1, c.ring[i].sendKey, text)
                  && c' == c.(ring := c.ring[i := c.ring[i].(sent := c.ring[i].sent + 1)]))
  {
  }

  /** Staging never evicts the slot that seals; a full ring whose oldest slot seals refuses instead. */
  lemma UdpStageKeepsSender(c: UdpCrypto, keys: KeyPair)
    requires DistinctEpochs(c.ring) && |c.ring| <= RING_CAPACITY
    requires exists i :: 0 <= i < |c.ring| && c.ring[i].epoch == c.sendEpoch
    ensures var (r, c') := UdpStage(c, keys);
            && (exists i :: 0 <= i < |c'.ring| && c'.ring[i].epoch == c.sendEpoch && c'.ring[i] in c.ring)
            && (r == Err(WouldEvictSender) <==> c.counter < MAX_EPOCH && |c.ring| == RING_CAPACITY && c.ring[0].epoch == c.sendEpoch)
            && (r.Err? ==> c' == c)
  {
    var i :| 0 <= i < |c.ring| && c.ring[i].epoch == c.sendEpoch;
    var (r, c') := UdpStage(c, keys);
    if r.Ok? {
      var j := if |c.ring| == RING_CAPACITY then i - 1 else i;
      assert c'.ring[j] == c.ring[i];
    } else {
      assert c'.ring[i] == c.ring[i];
    }
  }

  // ---- the TCP back end ----

  /** A frame opens exactly in the session of its epoch, with that session's receive key and the number after the last one received. */
  lemma TcpOpensExactly(c: TcpCrypto, f: TcpFrame)
    requires c.previous.Some? ==> c.previous.value.epoch != c.newest.epoch
    ensures TcpDecrypt(c, f).0.Some? <==>
              exists s :: (s == c.newest || c.previous == Some(s)) && s.epoch == f.epoch && s.recvKey == f.key
                          && f.number == s.received + 1 <= LAST_COUNTER
    ensures TcpDecrypt(c, f).0.Some? ==> TcpDecrypt(c, f).0.value == f.text
    ensures TcpDecrypt(c, f).0.None? ==> TcpDecrypt(c, f).1 == c
  {
  }

  /** So no frame opens twice, whatever is read in between. */
  lemma {:induction false} TcpOpensOnce(c: TcpCrypto, f: TcpFrame, between: seq<TcpFrame>)
    requires c.previous.Some? ==> c.previous.value.epoch != c.newest.epoch
    requires TcpDecrypt(c, f).0.Some?
    ensures TcpDecrypt(TcpReads(TcpDecrypt(c, f).1, between), f).0 == None
  {
    PastReads(TcpDecrypt(c, f).1, between, f);
  }

  function TcpReads(c: TcpCrypto, frames: seq<TcpFrame>): (result: TcpCrypto)
    decreases |frames|
  {
    if frames == [] then c else TcpReads(TcpDecrypt(c, frames[0]).1, frames[1..])
  }

  /** Every session of a frame's epoch has received at least its number. */
  predicate Past(c: TcpCrypto, f: TcpFrame)
  {
    && (c.newest.epoch == f.epoch ==> f.number <= c.newest.received)
    && (c.previous.Some? && c.previous.value.epoch == f.epoch ==> f.number <= c.previous.value.received)
  }

  lemma {:induction false} PastReads(c: TcpCrypto, frames: seq<TcpFrame>, f: TcpFrame)
    requires Past(c, f)
    ensures Past(TcpReads(c, frames), f) && TcpDecrypt(TcpReads(c, frames), f).0 == None
    decreases |frames|
  {
    if frames != [] { PastReads(TcpDecrypt(c, frames[0]).1, frames[1..], f); }
  }

  /** Promoting moves the send session only to the newest epoch, and only by its own number. */
  lemma TcpPromotesExactly(c: TcpCrypto, epoch: uint16)
    ensures var c' := TcpPromote(c, epoch);
            c' == c.(sendsNewest := c.sendsNewest || epoch == c.newest.epoch)
  {
  }

  // ---- TCP connections ----

  /**
   * A step ends the client's connection exactly when an IP packet cannot be sealed, the next frame
   * does not open, or the control plane says so; a ping or an init that cannot be sealed does not.
   */
  lemma ClientClosesExactly(suite: Suite, sys: T.System, step: T.Step)
    requires sys.clientOpen
    ensures !T.Next(suite, sys, step).clientOpen <==>
              || (step.ClientSend? && step.text.Data? && SealTcp(sys.client.ep, step.text).0.None?)
              || (step.ClientReceive? && sys.clientTask == Ready && sys.down.got < |sys.down.sent|
                  && OpenTcp(sys.client.ep, sys.down.sent[sys.down.got]).0.None?)
              || (step.ClientAdvance? && sys.clientTask.Observed? && !ClientService(suite, sys.client, sys.clientTask.parcel).0)
  {
    hide SealTcp, OpenTcp, ClientService, MaybeBuildInit, ObservePeer, Record, ServerService, ServerObserve, ServerActivate;
  }

  /** The server's, when an IP packet or an answer cannot be sealed or the next frame does not open; a pong that cannot be sealed is dropped. */
  lemma ServerClosesExactly(suite: Suite, sys: T.System, step: T.Step)
    requires sys.serverOpen
    ensures !T.Next(suite, sys, step).serverOpen <==>
              || (step.ServerSend? && step.text.Data? && SealTcp(sys.server.ep, step.text).0.None?)
              || (step.ServerReceive? && sys.serverTask == Ready && sys.up.got < |sys.up.sent|
                  && OpenTcp(sys.server.ep, sys.up.sent[sys.up.got]).0.None?)
              || (step.ServerAdvance? && sys.serverTask.Replying? && sys.serverTask.reply != Service(Pong, [])
                  && SealTcp(sys.server.ep, sys.serverTask.reply).0.None?)
  {
    hide SealTcp, OpenTcp, ClientService, MaybeBuildInit, ObservePeer, Record, ServerService, ServerObserve, ServerActivate;
  }
}
