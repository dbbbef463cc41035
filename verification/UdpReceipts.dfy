/** Receipt over a whole UDP run: across rekeys and evicted epochs, no end reads a datagram twice. */
module UdpReceipts {
  import opened Basics
  import opened Coordinators
  import opened Epochs
  import opened Exchange
  import opened ReplayWindow
  import opened Transcripts
  import opened UdpNumbers
  import P = UdpProtocol

  function CounterOf(d: Datagram): (result: Counter) { Counter(LowHalf(d.number), HighHalf(d.number)) }

  /** The counters read under one epoch, in order. */
  function Under(got: seq<Datagram>, epoch: uint16): (result: seq<Counter>)
  {
    if got == [] then []
    else
      var n := |got| - 1;
      Under(got[..n], epoch) + if got[n].epoch == epoch then [CounterOf(got[n])] else []
  }

  lemma {:induction false} UnderHolds(got: seq<Datagram>, d: Datagram)
    requires d in got
    ensures CounterOf(d) in Under(got, d.epoch)
  {
    var n := |got| - 1;
    if d in got[..n] { UnderHolds(got[..n], d); }
  }

  lemma {:induction false} NothingUnder(got: seq<Datagram>, epoch: uint16)
    requires forall d :: d in got ==> d.epoch != epoch
    ensures Under(got, epoch) == []
  {
    if got != [] { NothingUnder(got[..|got| - 1], epoch); }
  }

  /** No epoch's packets have shown more high counter halves than a window has entries. */
  ghost predicate Bounded(got: seq<Datagram>)
  {
    forall epoch: uint16 :: |Highs(Under(got, epoch))| <= CAPACITY
  }

  lemma EarlierBounded(got: seq<Datagram>, read: seq<Datagram>)
    requires Bounded(got + read) && |read| <= 1
    ensures Bounded(got)
  {
    forall epoch: uint16
      ensures |Highs(Under(got, epoch))| <= CAPACITY
    {
      UnderRead(got, read, epoch);
      assert |Highs(Under(got + read, epoch))| <= CAPACITY;
      SubsetCount(Highs(Under(got, epoch)), Highs(Under(got + read, epoch)));
    }
  }

  lemma {:induction false} UnderRead(got: seq<Datagram>, read: seq<Datagram>, epoch: uint16)
    requires |read| <= 1
    ensures Under(got + read, epoch) ==
            Under(got, epoch) + if read != [] && read[0].epoch == epoch then [CounterOf(read[0])] else []
  {
    if read == [] { assert got + read == got; } else { assert (got + read)[..|got|] == got; }
  }

  // ---- one end ----

  /** The arrivals that a list of accepted counters stands for. */
  function Genuine(log: seq<Counter>): (arrivals: seq<Arrival>)
    ensures |arrivals| == |log| && forall i :: 0 <= i < |log| ==> arrivals[i] == Arrival(log[i], true)
  {
    seq(|log|, i requires 0 <= i < |log| => Arrival(log[i], true))
  }

  /** A window that has accepted exactly these counters, in this order. */
  ghost predicate Mirrors(w: Window, log: seq<Counter>)
  {
    Run(Genuine(log)) == Receiver(w, log)
  }

  lemma MirrorsNext(w: Window, log: seq<Counter>, c: Counter)
    requires Mirrors(w, log) && Check(w, c.low, c.high)
    ensures Mirrors(Accept(w, c.low, c.high), log + [c])
  {
    assert Genuine(log + [c]) == Genuine(log) + [Arrival(c, true)];
    RunAppend(Genuine(log), Arrival(c, true));
  }

  /** Every window still in the ring is that of all that was ever read under its epoch. */
  ghost predicate Heeds(c: UdpCrypto, got: seq<Datagram>)
  {
    && DistinctEpochs(c.ring)
    && (forall i :: 0 <= i < |c.ring| ==> c.ring[i].epoch <= c.counter)
    && (forall d :: d in got ==> d.epoch <= c.counter)
    && (forall i :: 0 <= i < |c.ring| ==> Mirrors(c.ring[i].window, Under(got, c.ring[i].epoch)))
  }

  /** What one step does to one end's ring: nothing, an insertion, a packet sealed, or one opened. */
  ghost predicate Moves(c: UdpCrypto, c': UdpCrypto, read: seq<Datagram>)
  {
    || (read == [] && KeptOrStaged(c, c'))
    || (read == [] && exists text :: c' == UdpEncrypt(c, text).1)
    || (|read| == 1 && UdpDecrypt(c, read[0]).0.Some? && c' == UdpDecrypt(c, read[0]).1)
  }

  /** Up to four high halves, a window lets through only what has not been read. */
  lemma CheckedIsNew(w: Window, log: seq<Counter>, c: Counter)
    requires Mirrors(w, log) && Check(w, c.low, c.high) && |Highs(log)| <= CAPACITY
    ensures c !in log
  {
    hide Check, Highs;
    CheckRefinesSet(Genuine(log), c);
  }

  lemma {:induction false} DecryptHeeds(c: UdpCrypto, got: seq<Datagram>, d: Datagram)
    requires Heeds(c, got) && UdpDecrypt(c, d).0.Some?
    ensures Heeds(UdpDecrypt(c, d).1, got + [d])
    ensures |Highs(Under(got, d.epoch))| <= CAPACITY ==> CounterOf(d) !in Under(got, d.epoch)
  {
    hide Mirrors, Check, Accept, Highs, Under;
    var i, c', ctr := Resolve(c.ring, d.epoch), UdpDecrypt(c, d).1, CounterOf(d);
    UnderRead(got, [d], d.epoch);
    MirrorsNext(c.ring[i].window, Under(got, d.epoch), ctr);
    if |Highs(Under(got, d.epoch))| <= CAPACITY { CheckedIsNew(c.ring[i].window, Under(got, d.epoch), ctr); }
    forall k | 0 <= k < |c'.ring|
      ensures c'.ring[k].epoch == c.ring[k].epoch
      ensures Mirrors(c'.ring[k].window, Under(got + [d], c'.ring[k].epoch))
    {
      UnderRead(got, [d], c.ring[k].epoch);
      if k != i {
        assert c.ring[k].epoch != d.epoch && c'.ring[k] == c.ring[k];
        assert Under(got + [d], c.ring[k].epoch) == Under(got, c.ring[k].epoch);
      }
    }
  }

  lemma EncryptHeeds(c: UdpCrypto, got: seq<Datagram>, text: Plaintext)
    requires Heeds(c, got)
    ensures Heeds(UdpEncrypt(c, text).1, got)
  {
    hide Mirrors;
    var c' := UdpEncrypt(c, text).1;
    assert forall k :: 0 <= k < |c.ring| ==> c'.ring[k].epoch == c.ring[k].epoch && c'.ring[k].window == c.ring[k].window;
  }

  lemma StageHeeds(c: UdpCrypto, c': UdpCrypto, got: seq<Datagram>)
    requires Heeds(c, got) && KeptOrStaged(c, c')
    ensures Heeds(c', got)
  {
    if c'.ring != c.ring || c'.counter != c.counter {
      var shift := if |c.ring| == RING_CAPACITY then 1 else 0;
      assert forall i :: 0 <= i < |c'.ring| - 1 ==> c'.ring[i] == c.ring[i + shift];
      NothingUnder(got, c'.counter);
    }
  }

  lemma {:induction false} MoveHeeds(c: UdpCrypto, c': UdpCrypto, got: seq<Datagram>, read: seq<Datagram>)
    requires Heeds(c, got) && Moves(c, c', read)
    ensures Heeds(c', got + read)
    ensures read != [] && |Highs(Under(got, read[0].epoch))| <= CAPACITY ==> CounterOf(read[0]) !in Under(got, read[0].epoch)
  {
    hide Heeds, KeptOrStaged, Highs;
    if read == [] {
      assert got + read == got;
      if KeptOrStaged(c, c') {
        StageHeeds(c, c', got);
      } else {
        var text :| c' == UdpEncrypt(c, text).1;
        EncryptHeeds(c, got, text);
      }
    } else {
      assert read == [read[0]];
      DecryptHeeds(c, got, read[0]);
    }
  }

  // ---- whole runs ----

  function EndOf(sys: P.System, isServer: bool): (result: Endpoint) { if isServer then sys.server.ep else sys.client.ep }

  /** What a step lets one end read. */
  function Read(sys: P.System, step: P.Step, isServer: bool): (result: seq<Datagram>)
  {
    match step
    case ServerReceive(d) =>
      if isServer && sys.serverTask == Ready && d in sys.up && OpenUdp(sys.server.ep, d).0.Some? then [d] else []
    case ClientReceive(d) =>
      if !isServer && sys.open && sys.clientTask == Ready && d in sys.down && OpenUdp(sys.client.ep, d).0.Some? then [d]
      else []
    case _ => []
  }

  /** Every datagram one end reads in a run, in order. */
  function Reads(suite: Suite, keys: KeyPair, interval: nat, steps: seq<P.Step>, isServer: bool): (result: seq<Datagram>)
  {
    if steps == [] then []
    else
      var n := |steps| - 1;
      Reads(suite, keys, interval, steps[..n], isServer)
      + Read(P.Run(suite, keys, interval, steps[..n]), steps[n], isServer)
  }

  ghost predicate EndMoves(ep: Endpoint, ep': Endpoint, read: seq<Datagram>)
  {
    ep.crypto.Udp? && ep'.crypto.Udp? && Moves(ep.crypto.udp, ep'.crypto.udp, read)
  }

  ghost predicate BothMove(sys: P.System, sys': P.System, step: P.Step)
  {
    && EndMoves(sys.client.ep, sys'.client.ep, Read(sys, step, false))
    && EndMoves(sys.server.ep, sys'.server.ep, Read(sys, step, true))
  }

  predicate BothUdp(sys: P.System) { sys.client.ep.crypto.Udp? && sys.server.ep.crypto.Udp? }

  lemma SealMoves(ep: Endpoint, text: Plaintext)
    requires ep.crypto.Udp?
    ensures EndMoves(ep, ep, []) && EndMoves(ep, SealUdp(ep, text).1, [])
  {
    hide UdpEncrypt;
    assert SealUdp(ep, text).1.crypto.udp == UdpEncrypt(ep.crypto.udp, text).1;
  }

  lemma OpenMoves(ep: Endpoint, d: Datagram)
    requires ep.crypto.Udp? && OpenUdp(ep, d).0.Some?
    ensures EndMoves(ep, OpenUdp(ep, d).1, [d])
  {
  }

  lemma NextMoves(suite: Suite, sys: P.System, step: P.Step)
    requires BothUdp(sys)
    ensures BothMove(sys, P.Next(suite, sys, step), step)
  {
    hide MaybeBuildInit, OpenUdp, SealUdp, P.AdvanceClient, Moves, KeptOrStaged, ServerService;
    SealMoves(sys.client.ep, Service(Ping, []));
    SealMoves(sys.server.ep, Service(Ping, []));
    match step
    case ClientBuild(now, draw, room) => BuildKeepsEnd(suite, sys.client, now, draw, room);
    case ClientSendBuilt => if sys.built.Some? { SealMoves(sys.client.ep, sys.built.value); }
    case ClientSend(text) => SealMoves(sys.client.ep, text);
    case ClientReceive(d) => if OpenUdp(sys.client.ep, d).0.Some? { OpenMoves(sys.client.ep, d); }
    case ClientAdvance =>
      ClientAdvanceKeeps(suite, sys);
      StagedMoves(sys, P.AdvanceClient(suite, sys));
    case ServerSend(text) => SealMoves(sys.server.ep, text);
    case ServerReceive(d) => if OpenUdp(sys.server.ep, d).0.Some? { OpenMoves(sys.server.ep, d); }
    case ServerAdvance(seed) =>
      if sys.serverTask.Replying? {
        SealMoves(sys.server.ep, sys.serverTask.reply);
      } else {
        ServerAdvanceKeeps(suite, sys, seed);
        StagedMoves(sys, P.AdvanceServer(suite, sys, seed));
      }
  }

  lemma StagedMoves(sys: P.System, sys': P.System)
    requires EndKeptOrStaged(sys.client.ep, sys'.client.ep) && EndKeptOrStaged(sys.server.ep, sys'.server.ep)
    ensures EndMoves(sys.client.ep, sys'.client.ep, []) && EndMoves(sys.server.ep, sys'.server.ep, [])
  {
  }

  ghost predicate ReadOnce(got: seq<Datagram>)
  {
    forall i, j :: 0 <= i < j < |got| ==> (got[i].epoch, CounterOf(got[i])) != (got[j].epoch, CounterOf(got[j]))
  }

  lemma {:induction false} RunHeeds(suite: Suite, keys: KeyPair, interval: nat, steps: seq<P.Step>, isServer: bool)
    ensures BothUdp(P.Run(suite, keys, interval, steps))
    ensures Heeds(EndOf(P.Run(suite, keys, interval, steps), isServer).crypto.udp, Reads(suite, keys, interval, steps, isServer))
    ensures Bounded(Reads(suite, keys, interval, steps, isServer)) ==> ReadOnce(Reads(suite, keys, interval, steps, isServer))
  {
    hide P.Next, Bounded, Moves, Read, Highs, ReadOnce;
    if steps == [] {
      NothingRead();
    } else {
      var n := |steps| - 1;
      var sys, got := P.Run(suite, keys, interval, steps[..n]), Reads(suite, keys, interval, steps[..n], isServer);
      var sys', read := P.Next(suite, sys, steps[n]), Read(sys, steps[n], isServer);
      ReadAtMostOne(sys, steps[n], isServer);
      RunHeeds(suite, keys, interval, steps[..n], isServer);
      NextMoves(suite, sys, steps[n]);
      MoveHeeds(EndOf(sys, isServer).crypto.udp, EndOf(sys', isServer).crypto.udp, got, read);
      if Bounded(got + read) {
        EarlierBounded(got, read);
        if read != [] { BoundedAt(got, read[0].epoch); }
        OneMore(got, read);
      }
    }
  }

  lemma NothingRead()
    ensures ReadOnce([]) && Run(Genuine([])) == Receiver([], [])
  {
  }

  lemma {:induction false} BoundedAt(got: seq<Datagram>, epoch: uint16)
    requires Bounded(got)
    ensures |Highs(Under(got, epoch))| <= CAPACITY
  {
  }

  lemma ReadAtMostOne(sys: P.System, step: P.Step, isServer: bool)
    ensures |Read(sys, step, isServer)| <= 1
  {
  }

  lemma {:induction false} OneMore(got: seq<Datagram>, read: seq<Datagram>)
    requires ReadOnce(got) && |read| <= 1
    requires read != [] ==> CounterOf(read[0]) !in Under(got, read[0].epoch)
    ensures ReadOnce(got + read)
  {
    if read != [] {
      forall d | d in got
        ensures (d.epoch, CounterOf(d)) != (read[0].epoch, CounterOf(read[0]))
      {
        UnderHolds(got, d);
      }
    }
  }

  /**
   * In every run, under each epoch an end still keeps, some datagram already read would be let
   * through again if and only if that epoch has shown more than four high halves.
   */
  lemma {:induction false} ReplayIffReads(suite: Suite, keys: KeyPair, interval: nat, steps: seq<P.Step>, isServer: bool,
                       ep: Endpoint, got: seq<Datagram>, i: nat)
    requires ep == EndOf(P.Run(suite, keys, interval, steps), isServer) && got == Reads(suite, keys, interval, steps, isServer)
    requires ep.crypto.Udp? && i < |ep.crypto.udp.ring|
    ensures var slot := ep.crypto.udp.ring[i];
            (exists c :: c in Under(got, slot.epoch) && Check(slot.window, c.low, c.high))
            <==> |Highs(Under(got, slot.epoch))| > CAPACITY
  {
    hide P.Run, Reads, Check, Highs, Under;
    RunHeeds(suite, keys, interval, steps, isServer);
    ReplayIff(Genuine(Under(got, ep.crypto.udp.ring[i].epoch)));
  }

  /**
   * Whatever the channel duplicates or delays, and whichever epochs have been staged and evicted
   * since, no end reads the same epoch and counter twice while each epoch shows at most four high halves.
   */
  lemma {:induction false} ReadAtMostOnce(suite: Suite, keys: KeyPair, interval: nat, steps: seq<P.Step>, isServer: bool,
                       got: seq<Datagram>, i: nat, j: nat)
    requires got == Reads(suite, keys, interval, steps, isServer)
    requires forall epoch: uint16 :: |Highs(Under(got, epoch))| <= CAPACITY
    requires i < j < |got|
    ensures (got[i].epoch, CounterOf(got[i])) != (got[j].epoch, CounterOf(got[j]))
  {
    RunHeeds(suite, keys, interval, steps, isServer);
  }

  // ---- the server sends under a new epoch only after reading a datagram sealed under it ----

  ghost predicate ReadUnder(got: seq<Datagram>, epoch: uint16)
  {
    exists d :: d in got && d.epoch == epoch
  }

  /** Where the server's send epoch, and the epoch of the packet in its hands, come from. */
  ghost predicate Proven(s: Server, task: Task, got: seq<Datagram>)
  {
    && (Current(s.ep) > 0 ==> ReadUnder(got, Current(s.ep)))
    && (task.Opened? || task.Observed? ==> ReadUnder(got, task.parcel.epoch))
  }

  lemma HandleKeepsCurrent(suite: Suite, s: Server, parcel: Parcel, seed: Seed)
    ensures var (task, s') := ServerService(suite, s, parcel, seed);
            Current(s'.ep) == Current(s.ep) && !task.Opened? && !task.Observed?
  {
  }

  lemma ReadMore(got: seq<Datagram>, read: seq<Datagram>, s: Server, task: Task)
    requires Proven(s, task, got)
    ensures Proven(s, task, got + read)
  {
    assert forall d :: d in got ==> d in got + read;
  }

  lemma AdvanceProven(suite: Suite, sys: P.System, seed: Seed, got: seq<Datagram>)
    requires Proven(sys.server, sys.serverTask, got)
    ensures var sys' := P.AdvanceServer(suite, sys, seed);
            Proven(sys'.server, sys'.serverTask, got)
  {
    hide ReadUnder, ServerService, UdpEncrypt;
    if sys.serverTask.Activated? { HandleKeepsCurrent(suite, sys.server, sys.serverTask.parcel, seed); }
  }

  lemma NextProven(suite: Suite, sys: P.System, step: P.Step, got: seq<Datagram>)
    requires Proven(sys.server, sys.serverTask, got)
    ensures var sys' := P.Next(suite, sys, step);
            Proven(sys'.server, sys'.serverTask, got + Read(sys, step, true))
  {
    hide MaybeBuildInit, UdpEncrypt, UdpDecrypt, ClientService, P.AdvanceServer, Record;
    var read := Read(sys, step, true);
    ReadMore(got, read, sys.server, sys.serverTask);
    match step
    case ServerReceive(d) => if read != [] { assert read[0] in got + read; }
    case ServerAdvance(seed) =>
      assert got + read == got;
      AdvanceProven(suite, sys, seed, got);
    case _ =>
  }

  lemma {:induction false} RunProven(suite: Suite, keys: KeyPair, interval: nat, steps: seq<P.Step>)
    ensures var sys := P.Run(suite, keys, interval, steps);
            Proven(sys.server, sys.serverTask, Reads(suite, keys, interval, steps, true))
  {
    hide P.Next, Read, Proven;
    if steps == [] {
      StartProven(keys, interval);
    } else {
      var n := |steps| - 1;
      RunProven(suite, keys, interval, steps[..n]);
      NextProven(suite, P.Run(suite, keys, interval, steps[..n]), steps[n], Reads(suite, keys, interval, steps[..n], true));
    }
  }

  lemma StartProven(keys: KeyPair, interval: nat)
    ensures Proven(P.Start(keys, interval).server, P.Start(keys, interval).serverTask, [])
  {
  }

  /** New keys never replace the server's sending keys before the client has shown it holds them. */
  lemma {:induction false} ServerSwitchesAfterProof(suite: Suite, keys: KeyPair, interval: nat, steps: seq<P.Step>,
                                 sys: P.System, got: seq<Datagram>)
    requires sys == P.Run(suite, keys, interval, steps) && got == Reads(suite, keys, interval, steps, true)
    ensures var e := P.ServerEpoch(sys);
            e > 0 ==> exists d :: d in got && d.epoch == e
  {
    RunProven(suite, keys, interval, steps);
  }
}
