/** Packet numbers over a whole UDP run: replay windows never run ahead of what was sent. */
module UdpNumbers {
  import opened Basics
  import opened Coordinators
  import opened Epochs
  import opened Exchange
  import opened Nonces
  import opened ReplayWindow
  import opened Transcripts
  import opened UdpEndpoints
  import P = UdpProtocol

  // ---- packet numbers ----

  /** No datagram in the channel is numbered above what its sender's slot has sent. */
  ghost predicate Numbered(c: UdpCrypto, sent: set<Datagram>)
  {
    && (forall i :: 0 <= i < |c.ring| ==> c.ring[i].epoch <= c.counter)
    && (forall d :: d in sent ==> d.number <= LAST_COUNTER && d.epoch <= c.counter)
    && (forall d, i :: d in sent && 0 <= i < |c.ring| && c.ring[i].epoch == d.epoch ==> d.number <= c.ring[i].sent)
  }

  /** Every window's newest numbers came from the channel. */
  ghost predicate Heard(c: UdpCrypto, sent: set<Datagram>)
  {
    forall i, j :: 0 <= i < |c.ring| && 0 <= j < |c.ring[i].window| ==>
      WasSent(c.ring[i].window[j], c.ring[i].epoch, sent)
  }

  ghost predicate WasSent(e: Entry, epoch: uint16, sent: set<Datagram>)
  {
    exists d :: d in sent && d.epoch == epoch && HighHalf(d.number) == e.high && LowHalf(d.number) == e.max
  }

  ghost predicate DistinctEpochs(ring: seq<UdpSlot>)
  {
    forall i, j :: 0 <= i < j < |ring| ==> ring[i].epoch != ring[j].epoch
  }

  lemma EncryptNumbered(c: UdpCrypto, sent: set<Datagram>, heard: set<Datagram>, text: Plaintext)
    requires Numbered(c, sent) && Heard(c, heard) && DistinctEpochs(c.ring)
    ensures var (d, c') := UdpEncrypt(c, text);
            Numbered(c', P.Sent(sent, d)) && Heard(c', heard)
  {
    var (d, c') := UdpEncrypt(c, text);
    assert forall i :: 0 <= i < |c.ring| ==> c'.ring[i].window == c.ring[i].window && c'.ring[i].epoch == c.ring[i].epoch;
  }

  lemma HeardMore(c: UdpCrypto, sent: set<Datagram>, more: set<Datagram>)
    requires Heard(c, sent) && sent <= more
    ensures Heard(c, more)
  {
    forall i, j | 0 <= i < |c.ring| && 0 <= j < |c.ring[i].window|
      ensures WasSent(c.ring[i].window[j], c.ring[i].epoch, more)
    {
      assert WasSent(c.ring[i].window[j], c.ring[i].epoch, sent);
    }
  }

  lemma AcceptHeard(w: Window, epoch: uint16, sent: set<Datagram>, d: Datagram)
    requires forall j :: 0 <= j < |w| ==> WasSent(w[j], epoch, sent)
    requires d in sent && d.epoch == epoch
    ensures var w' := Accept(w, LowHalf(d.number), HighHalf(d.number));
            forall j :: 0 <= j < |w'| ==> WasSent(w'[j], epoch, sent)
  {
    var low, high := LowHalf(d.number), HighHalf(d.number);
    var i, w' := Find(w, high), Accept(w, low, high);
    forall j | 0 <= j < |w'|
      ensures WasSent(w'[j], epoch, sent)
    {
      if i < |w| {
        assert WasSent(w[j], epoch, sent);
        if j == i && low > w[i].max { assert w'[j].high == high && w'[j].max == low; }
      } else if j == |w'| - 1 {
        assert w'[j].high == high && w'[j].max == low;
      } else {
        var k := if |w| == CAPACITY then j + 1 else j;
        assert w'[j] == w[k];
      }
    }
  }

  lemma DecryptHeard(c: UdpCrypto, sent: set<Datagram>, out: set<Datagram>, d: Datagram)
    requires Heard(c, sent) && Numbered(c, out) && d in sent
    ensures var c' := UdpDecrypt(c, d).1;
            Heard(c', sent) && Numbered(c', out)
  {
    var i, c' := Resolve(c.ring, d.epoch), UdpDecrypt(c, d).1;
    if i < |c.ring| {
      AcceptHeard(c.ring[i].window, d.epoch, sent, d);
      forall k, j | 0 <= k < |c'.ring| && 0 <= j < |c'.ring[k].window|
        ensures WasSent(c'.ring[k].window[j], c'.ring[k].epoch, sent)
      {
        if k != i || c' == c { assert WasSent(c.ring[k].window[j], c.ring[k].epoch, sent); }
      }
      assert forall k :: 0 <= k < |c.ring| ==> c'.ring[k].sent == c.ring[k].sent && c'.ring[k].epoch == c.ring[k].epoch;
    }
  }

  /** Everything the coordinators do to the ring: nothing, or one insertion. */
  ghost predicate KeptOrStaged(c: UdpCrypto, c': UdpCrypto)
  {
    || (c'.ring == c.ring && c'.counter == c.counter)
    || (c'.counter == c.counter + 1 && c'.ring != []
        && var slot := c'.ring[|c'.ring| - 1];
           c'.ring == Insert(c.ring, slot) && slot.epoch == c'.counter && slot.sent == 0 && slot.window == [])
  }

  lemma StageNumbered(c: UdpCrypto, c': UdpCrypto, sent: set<Datagram>, heard: set<Datagram>)
    requires Numbered(c, sent) && Heard(c, heard) && KeptOrStaged(c, c')
    ensures Numbered(c', sent) && Heard(c', heard)
  {
    if c'.ring != c.ring || c'.counter != c.counter {
      var shift := if |c.ring| == RING_CAPACITY then 1 else 0;
      assert forall i :: 0 <= i < |c'.ring| - 1 ==> c'.ring[i] == c.ring[i + shift];
      forall i, j | 0 <= i < |c'.ring| && 0 <= j < |c'.ring[i].window|
        ensures WasSent(c'.ring[i].window[j], c'.ring[i].epoch, heard)
      {
        assert WasSent(c.ring[i + shift].window[j], c.ring[i + shift].epoch, heard);
      }
    }
  }

  ghost predicate EndKeptOrStaged(ep: Endpoint, ep': Endpoint)
  {
    ep.crypto.Udp? && ep'.crypto.Udp? && KeptOrStaged(ep.crypto.udp, ep'.crypto.udp)
  }

  lemma StartKeptOrStaged(ep: Endpoint, keys: KeyPair)
    requires ep.crypto.Udp?
    ensures EndKeptOrStaged(ep, StartRekey(ep, keys).1)
  {
  }

  lemma AckKeptOrStaged(suite: Suite, c: Client, p: Parcel)
    requires c.ep.crypto.Udp?
    ensures EndKeptOrStaged(c.ep, ClientService(suite, c, p).1.ep)
  {
    if IsAck(p.text) && IsAnswer(suite, c, p.epoch, p.text) {
      var q := c.pending.value;
      var keys := Finish(suite, q.seed, q.startKeys, c.ep.machine.current, p.text.body);
      if keys.Some? {
        StartKeptOrStaged(c.ep, keys.value);
      }
    }
  }

  lemma ServiceKeptOrStaged(suite: Suite, s: Server, p: Parcel, seed: Seed)
    requires s.ep.crypto.Udp?
    ensures EndKeptOrStaged(s.ep, ServerService(suite, s, p, seed).1.ep)
  {
    if IsRequest(suite, p.text) {
      var answer := Respond(suite, seed, s.ep.machine.current, p.text.body);
      if answer.Some? {
        StartKeptOrStaged(s.ep, answer.value.keys);
      }
    }
  }

  lemma RingDistinct(c: UdpCrypto, ks: seq<KeyPair>)
    requires RingOf(c, ks)
    ensures DistinctEpochs(c.ring)
  {
    forall i | 0 <= i < |c.ring|
      ensures c.ring[i].epoch == |ks| - |c.ring| + i
    {
      assert SlotOf(c.ring[i], |ks| - |c.ring| + i, ks[|ks| - |c.ring| + i], c.isServer);
    }
  }

  ghost predicate Fresh(sys: P.System)
  {
    && sys.client.ep.crypto.Udp? && sys.server.ep.crypto.Udp?
    && Numbered(sys.client.ep.crypto.udp, sys.up) && Heard(sys.server.ep.crypto.udp, sys.up)
    && Numbered(sys.server.ep.crypto.udp, sys.down) && Heard(sys.client.ep.crypto.udp, sys.down)
  }

  lemma ClientTransmitFresh(suite: Suite, sys: P.System, text: Plaintext)
    requires P.Inv(suite, sys) && Fresh(sys)
    ensures Fresh(P.ClientTransmit(sys, text))
  {
    RingDistinct(sys.client.ep.crypto.udp, sys.log.clientKeys);
    hide P.Inv, UdpEncrypt, Numbered, Heard, DistinctEpochs;
    EncryptNumbered(sys.client.ep.crypto.udp, sys.up, sys.down, text);
    HeardMore(sys.server.ep.crypto.udp, sys.up, P.ClientTransmit(sys, text).up);
  }

  lemma ServerTransmitFresh(suite: Suite, sys: P.System, text: Plaintext)
    requires P.Inv(suite, sys) && Fresh(sys)
    ensures Fresh(P.ServerTransmit(sys, text))
  {
    RingDistinct(sys.server.ep.crypto.udp, sys.log.serverKeys);
    hide P.Inv, UdpEncrypt, Numbered, Heard, DistinctEpochs;
    EncryptNumbered(sys.server.ep.crypto.udp, sys.down, sys.up, text);
    HeardMore(sys.client.ep.crypto.udp, sys.down, P.ServerTransmit(sys, text).down);
  }

  lemma KeptFresh(sys: P.System, sys': P.System)
    requires Fresh(sys) && sys'.up == sys.up && sys'.down == sys.down
    requires EndKeptOrStaged(sys.client.ep, sys'.client.ep) && EndKeptOrStaged(sys.server.ep, sys'.server.ep)
    ensures Fresh(sys')
  {
    hide Numbered, Heard, KeptOrStaged;
    StageNumbered(sys.client.ep.crypto.udp, sys'.client.ep.crypto.udp, sys.up, sys.down);
    StageNumbered(sys.server.ep.crypto.udp, sys'.server.ep.crypto.udp, sys.down, sys.up);
  }

  lemma PhasesKeep(ep: Endpoint, epoch: uint16)
    requires ep.crypto.Udp?
    ensures EndKeptOrStaged(ep, ep)
    ensures EndKeptOrStaged(ep, ObservePeer(ep, epoch)) && EndKeptOrStaged(ep, ActivateSend(ep, epoch))
  {
  }

  /** A packet loop's next call keeps the ring or stages into it; a reply is one more packet. */
  lemma ServerAdvanceKeeps(suite: Suite, sys: P.System, seed: Seed)
    requires sys.client.ep.crypto.Udp? && sys.server.ep.crypto.Udp? && !sys.serverTask.Replying?
    ensures var sys' := P.AdvanceServer(suite, sys, seed);
            && sys'.up == sys.up && sys'.down == sys.down
            && EndKeptOrStaged(sys.client.ep, sys'.client.ep) && EndKeptOrStaged(sys.server.ep, sys'.server.ep)
  {
    hide EndKeptOrStaged, ObservePeer, ActivateSend, ServerService;
    PhasesKeep(sys.client.ep, 0);
    PhasesKeep(sys.server.ep, 0);
    match sys.serverTask
    case Opened(p) => PhasesKeep(sys.server.ep, p.epoch);
    case Observed(p) => PhasesKeep(sys.server.ep, p.epoch);
    case Activated(p) => ServiceKeptOrStaged(suite, sys.server, p, seed);
    case _ =>
  }

  lemma ClientAdvanceKeeps(suite: Suite, sys: P.System)
    requires sys.client.ep.crypto.Udp? && sys.server.ep.crypto.Udp?
    ensures var sys' := P.AdvanceClient(suite, sys);
            && sys'.up == sys.up && sys'.down == sys.down
            && EndKeptOrStaged(sys.client.ep, sys'.client.ep) && EndKeptOrStaged(sys.server.ep, sys'.server.ep)
  {
    hide EndKeptOrStaged, ObservePeer, ActivateSend, ClientService;
    PhasesKeep(sys.client.ep, 0);
    PhasesKeep(sys.server.ep, 0);
    match sys.clientTask
    case Opened(p) => PhasesKeep(sys.client.ep, p.epoch);
    case Observed(p) => PhasesKeep(sys.client.ep, p.epoch);
    case Activated(p) => AckKeptOrStaged(suite, sys.client, p);
    case _ =>
  }

  lemma ServerAdvanceFresh(suite: Suite, sys: P.System, seed: Seed)
    requires P.Inv(suite, sys) && Fresh(sys)
    ensures Fresh(P.AdvanceServer(suite, sys, seed))
  {
    hide P.Inv, Numbered, Heard, EndKeptOrStaged, ObservePeer, ActivateSend, ServerService, UdpEncrypt;
    if sys.serverTask.Replying? {
      P.ServerTaskInv(suite, sys, Ready);
      ServerTransmitFresh(suite, sys.(serverTask := Ready), sys.serverTask.reply);
    } else {
      ServerAdvanceKeeps(suite, sys, seed);
      KeptFresh(sys, P.AdvanceServer(suite, sys, seed));
    }
  }

  lemma ClientAdvanceFresh(suite: Suite, sys: P.System)
    requires Fresh(sys)
    ensures Fresh(P.AdvanceClient(suite, sys))
  {
    hide Numbered, Heard, EndKeptOrStaged, P.AdvanceClient;
    ClientAdvanceKeeps(suite, sys);
    KeptFresh(sys, P.AdvanceClient(suite, sys));
  }

  lemma ServerReceiveFresh(suite: Suite, sys: P.System, d: Datagram)
    requires Fresh(sys)
    ensures Fresh(P.Next(suite, sys, P.ServerReceive(d)))
  {
    hide Numbered, Heard, UdpDecrypt;
    if d in sys.up { DecryptHeard(sys.server.ep.crypto.udp, sys.up, sys.down, d); }
  }

  lemma ClientReceiveFresh(suite: Suite, sys: P.System, d: Datagram)
    requires Fresh(sys)
    ensures Fresh(P.Next(suite, sys, P.ClientReceive(d)))
  {
    hide Numbered, Heard, UdpDecrypt;
    if d in sys.down { DecryptHeard(sys.client.ep.crypto.udp, sys.down, sys.up, d); }
  }

  lemma NextFresh(suite: Suite, sys: P.System, step: P.Step)
    requires P.Inv(suite, sys) && Fresh(sys)
    ensures Fresh(P.Next(suite, sys, step))
  {
    hide P.Inv, MaybeBuildInit, OpenUdp, SealUdp, P.AdvanceClient, P.AdvanceServer, Numbered, Heard;
    match step
    case ClientBuild(now, draw, room) => BuildKeepsEnd(suite, sys.client, now, draw, room);
    case ClientSendBuilt =>
      if sys.open && sys.built.Some? {
        P.BuiltFacts(suite, sys);
        ClientTransmitFresh(suite, sys.(built := None), sys.built.value);
      }
    case ClientSend(text) =>
      if sys.open && IsTraffic(text) { ClientTransmitFresh(suite, sys, text); }
    case ClientReceive(d) => ClientReceiveFresh(suite, sys, d);
    case ClientAdvance => ClientAdvanceFresh(suite, sys);
    case ServerSend(text) =>
      if text.Data? { ServerTransmitFresh(suite, sys, text); }
    case ServerReceive(d) => ServerReceiveFresh(suite, sys, d);
    case ServerAdvance(seed) => ServerAdvanceFresh(suite, sys, seed);
  }

  lemma BuildKeepsEnd(suite: Suite, c: Client, now: int, draw: Option<Seed>, room: nat)
    ensures MaybeBuildInit(suite, c, now, draw, room).1.ep == c.ep
  {
  }

  lemma {:induction false} RunFresh(suite: Suite, keys: KeyPair, interval: nat, steps: seq<P.Step>)
    requires Lawful(suite)
    ensures Fresh(P.Run(suite, keys, interval, steps))
  {
    hide P.Inv, Lawful, P.Next;
    if steps != [] {
      var n := |steps| - 1;
      RunFresh(suite, keys, interval, steps[..n]);
      P.RunInv(suite, keys, interval, steps[..n]);
      NextFresh(suite, P.Run(suite, keys, interval, steps[..n]), steps[n]);
    }
  }
}
