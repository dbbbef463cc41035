/** Recovery of a UDP session: from every reachable state a few steps bring both ends to rest. */
module UdpSettles {
  import opened Basics
  import opened Coordinators
  import opened Epochs
  import opened Exchange
  import opened Nonces
  import opened ReplayWindow
  import opened Transcripts
  import opened UdpEndpoints
  import opened UdpNumbers
  import P = UdpProtocol

  /** Every slot can still number n more packets. */
  ghost predicate Spares(c: UdpCrypto, n: nat)
  {
    forall i :: 0 <= i < |c.ring| ==> c.ring[i].sent + n <= LAST_COUNTER
  }

  ghost predicate Spare(sys: P.System, n: nat)
  {
    && sys.client.ep.crypto.Udp? && sys.server.ep.crypto.Udp?
    && Spares(sys.client.ep.crypto.udp, n) && Spares(sys.server.ep.crypto.udp, n)
  }

  /** Both ends idle at one epoch, sending under equal keys. */
  predicate Settled(sys: P.System)
  {
    var c, s := sys.client.ep.machine, sys.server.ep.machine;
    c.phase == Idle && s.phase == Idle && c.currentEpoch == s.currentEpoch && c.current == s.current
  }

  function RunFrom(suite: Suite, sys: P.System, more: seq<P.Step>): (result: P.System)
    decreases |more|
  {
    if more == [] then sys else RunFrom(suite, P.Next(suite, sys, more[0]), more[1..])
  }

  lemma {:induction false} RunContinues(suite: Suite, keys: KeyPair, interval: nat, steps: seq<P.Step>, more: seq<P.Step>)
    ensures P.Run(suite, keys, interval, steps + more) == RunFrom(suite, P.Run(suite, keys, interval, steps), more)
    decreases |more|
  {
    hide P.Next;
    if more == [] {
      assert steps + more == steps;
    } else {
      assert steps + more == (steps + [more[0]]) + more[1..];
      assert (steps + [more[0]])[..|steps + [more[0]]| - 1] == steps;
      RunContinues(suite, keys, interval, steps + [more[0]], more[1..]);
    }
  }

  lemma {:induction false} RunFromAppend(suite: Suite, sys: P.System, a: seq<P.Step>, b: seq<P.Step>)
    ensures RunFrom(suite, sys, a + b) == RunFrom(suite, RunFrom(suite, sys, a), b)
    decreases |a|
  {
    hide P.Next;
    if a == [] {
      assert a + b == b;
    } else {
      assert (a + b)[1..] == a[1..] + b;
      RunFromAppend(suite, P.Next(suite, sys, a[0]), a[1..], b);
    }
  }

  // ---- a datagram just sent is opened ----

  lemma SmallerLow(a: nat, b: nat)
    requires a < b <= LAST_COUNTER && HighHalf(a) == HighHalf(b)
    ensures LowHalf(a) < LowHalf(b)
  {
    assert a / WORD < 0x1_0000 && b / WORD < 0x1_0000;
    assert a / WORD == b / WORD;
  }

  lemma NewerPasses(w: Window, epoch: uint16, sent: set<Datagram>, number: nat)
    requires forall j :: 0 <= j < |w| ==> WasSent(w[j], epoch, sent)
    requires forall d :: d in sent && d.epoch == epoch ==> d.number < number
    requires number <= LAST_COUNTER
    ensures Check(w, LowHalf(number), HighHalf(number))
  {
    hide LowHalf, HighHalf;
    var i := Find(w, HighHalf(number));
    if i < |w| {
      assert WasSent(w[i], epoch, sent);
      var d :| d in sent && d.epoch == epoch && HighHalf(d.number) == w[i].high && LowHalf(d.number) == w[i].max;
      SmallerLow(d.number, number);
    }
  }

  lemma SealedOpens(c: UdpCrypto, ks: seq<KeyPair>, r: UdpCrypto, rks: seq<KeyPair>,
                    sent: set<Datagram>, text: Plaintext)
    requires RingOf(c, ks) && RingOf(r, rks) && c.isServer != r.isServer
    requires Resolve(c.ring, c.sendEpoch) < |c.ring| && Resolve(r.ring, c.sendEpoch) < |r.ring|
    requires c.sendEpoch < |ks| && c.sendEpoch < |rks| && ks[c.sendEpoch] == rks[c.sendEpoch]
    requires Numbered(c, sent) && Heard(r, sent) && Spares(c, 1)
    ensures var d := UdpEncrypt(c, text).0;
            d.Some? && d.value.text == text && d.value.epoch == c.sendEpoch && UdpDecrypt(r, d.value).0 == Some(text)
  {
    hide RingOf, Resolve, Check, Accept, LowHalf, HighHalf;
    var i, j := Resolve(c.ring, c.sendEpoch), Resolve(r.ring, c.sendEpoch);
    SlotKeys(c, ks, c.sendEpoch);
    SlotKeys(r, rks, c.sendEpoch);
    NewerPasses(r.ring[j].window, c.sendEpoch, sent, c.ring[i].sent + 1);
  }

  ghost predicate Good(suite: Suite, sys: P.System, n: nat)
  {
    P.Inv(suite, sys) && Fresh(sys) && Spare(sys, n)
  }

  lemma ClientSealedOpens(suite: Suite, sys: P.System, text: Plaintext, n: nat)
    requires Good(suite, sys, n) && n > 0
    ensures var d := SealUdp(sys.client.ep, text).0;
            && d.Some? && d.value.text == text && d.value.epoch == P.ClientEpoch(sys)
            && OpenUdp(sys.server.ep, d.value).0 == Some(text)
  {
    ResolveRing(sys.client.ep.crypto.udp, sys.log.clientKeys, P.ClientEpoch(sys));
    ResolveRing(sys.server.ep.crypto.udp, sys.log.serverKeys, P.ClientEpoch(sys));
    SealedOpens(sys.client.ep.crypto.udp, sys.log.clientKeys, sys.server.ep.crypto.udp, sys.log.serverKeys, sys.up, text);
  }

  lemma ServerSealedOpens(suite: Suite, sys: P.System, text: Plaintext, n: nat)
    requires Good(suite, sys, n) && n > 0
    ensures var d := SealUdp(sys.server.ep, text).0;
            && d.Some? && d.value.text == text && d.value.epoch == P.ServerEpoch(sys)
            && OpenUdp(sys.client.ep, d.value).0 == Some(text)
  {
    ResolveRing(sys.client.ep.crypto.udp, sys.log.clientKeys, P.ServerEpoch(sys));
    ResolveRing(sys.server.ep.crypto.udp, sys.log.serverKeys, P.ServerEpoch(sys));
    SealedOpens(sys.server.ep.crypto.udp, sys.log.serverKeys, sys.client.ep.crypto.udp, sys.log.clientKeys, sys.down, text);
  }

  // ---- spare packet numbers last ----

  lemma EncryptSpares(c: UdpCrypto, text: Plaintext, n: nat)
    requires Spares(c, n + 1)
    ensures Spares(UdpEncrypt(c, text).1, n)
  {
  }

  lemma DecryptSpares(c: UdpCrypto, d: Datagram, n: nat)
    requires Spares(c, n)
    ensures Spares(UdpDecrypt(c, d).1, n)
  {
  }

  lemma InsertSpares(c: UdpCrypto, c': UdpCrypto, n: nat)
    requires Spares(c, n) && n <= LAST_COUNTER && KeptOrStaged(c, c')
    ensures Spares(c', n)
  {
    var shift := if |c.ring| == RING_CAPACITY then 1 else 0;
    assert c'.ring != c.ring ==> forall i :: 0 <= i < |c'.ring| - 1 ==> c'.ring[i] == c.ring[i + shift];
  }

  lemma KeptSpares(sys: P.System, sys': P.System, n: nat)
    requires Spare(sys, n) && n <= LAST_COUNTER
    requires EndKeptOrStaged(sys.client.ep, sys'.client.ep) && EndKeptOrStaged(sys.server.ep, sys'.server.ep)
    ensures Spare(sys', n)
  {
    hide Spares, KeptOrStaged;
    InsertSpares(sys.client.ep.crypto.udp, sys'.client.ep.crypto.udp, n);
    InsertSpares(sys.server.ep.crypto.udp, sys'.server.ep.crypto.udp, n);
  }

  lemma FewerSpares(sys: P.System, m: nat, n: nat)
    requires Spare(sys, n) && m <= n
    ensures Spare(sys, m)
  {
  }

  lemma ClientTransmitSpare(sys: P.System, text: Plaintext, n: nat)
    requires Spare(sys, n + 1)
    ensures Spare(P.ClientTransmit(sys, text), n)
  {
    hide UdpEncrypt;
    EncryptSpares(sys.client.ep.crypto.udp, text, n);
    FewerSpares(sys, n, n + 1);
  }

  lemma ServerTransmitSpare(sys: P.System, text: Plaintext, n: nat)
    requires Spare(sys, n + 1)
    ensures Spare(P.ServerTransmit(sys, text), n)
  {
    hide UdpEncrypt;
    EncryptSpares(sys.server.ep.crypto.udp, text, n);
    FewerSpares(sys, n, n + 1);
  }

  /** A step uses up at most one spare number of any slot. */
  lemma NextSpare(suite: Suite, sys: P.System, step: P.Step, n: nat)
    requires Spare(sys, n + 1) && n < LAST_COUNTER
    ensures Spare(P.Next(suite, sys, step), n)
  {
    hide Spares, MaybeBuildInit, UdpDecrypt, UdpEncrypt, P.AdvanceClient, P.AdvanceServer;
    FewerSpares(sys, n, n + 1);
    match step
    case ClientBuild(now, draw, room) => BuildKeepsEnd(suite, sys.client, now, draw, room);
    case ClientSendBuilt => if sys.built.Some? { ClientTransmitSpare(sys.(built := None), sys.built.value, n); }
    case ClientSend(text) => ClientTransmitSpare(sys, text, n);
    case ClientReceive(d) => DecryptSpares(sys.client.ep.crypto.udp, d, n);
    case ServerSend(text) => ServerTransmitSpare(sys, text, n);
    case ServerReceive(d) => DecryptSpares(sys.server.ep.crypto.udp, d, n);
    case ClientAdvance =>
      ClientAdvanceKeeps(suite, sys);
      KeptSpares(sys, P.AdvanceClient(suite, sys), n);
    case ServerAdvance(seed) => ServerAdvanceSpare(suite, sys, seed, n);
  }

  lemma ServerAdvanceSpare(suite: Suite, sys: P.System, seed: Seed, n: nat)
    requires Spare(sys, n + 1) && n < LAST_COUNTER
    ensures Spare(P.AdvanceServer(suite, sys, seed), n)
  {
    hide Spares, ServerService, ServerObserve, ServerActivate, SealUdp;
    if sys.serverTask.Replying? {
      ServerTransmitSpare(sys.(serverTask := Ready), sys.serverTask.reply, n);
    } else {
      FewerSpares(sys, n, n + 1);
      ServerAdvanceKeeps(suite, sys, seed);
      KeptSpares(sys, P.AdvanceServer(suite, sys, seed), n);
    }
  }

  lemma NextGood(suite: Suite, sys: P.System, step: P.Step, n: nat)
    requires Lawful(suite) && Good(suite, sys, n + 1) && n < LAST_COUNTER
    ensures Good(suite, P.Next(suite, sys, step), n)
  {
    hide Lawful, P.Inv, Fresh, Spare, P.Next;
    P.NextInv(suite, sys, step);
    NextFresh(suite, sys, step);
    NextSpare(suite, sys, step, n);
  }

  lemma FewerGood(suite: Suite, sys: P.System, m: nat, n: nat)
    requires Good(suite, sys, n) && m <= n
    ensures Good(suite, sys, m)
  {
    hide P.Inv, Fresh;
  }

  // ---- the packet loops come to rest ----

  function Left(task: Task): (result: nat)
  {
    match task
    case Opened(_) => 4
    case Observed(_) => 3
    case Activated(_) => 2
    case Replying(_, _) => 1
    case _ => 0
  }

  /** The client is connected, and has not just read the server's request to reconnect. */
  predicate Connected(sys: P.System)
  {
    sys.open &&
    match sys.clientTask
    case Opened(p) => !IsReconnect(p.text)
    case Observed(p) => !IsReconnect(p.text)
    case Activated(p) => !IsReconnect(p.text)
    case _ => true
  }

  lemma {:induction false} Extend(suite: Suite, sys: P.System, more: seq<P.Step>, step: P.Step)
    ensures RunFrom(suite, sys, more + [step]) == P.Next(suite, RunFrom(suite, sys, more), step)
  {
    hide P.Next;
    RunFromAppend(suite, sys, more, [step]);
    assert RunFrom(suite, RunFrom(suite, sys, more), [step]) == RunFrom(suite, P.Next(suite, RunFrom(suite, sys, more), step), []);
  }

  /** The server's packet loop finishes the packet it is at. */
  lemma {:induction false} ServerDrains(suite: Suite, sys: P.System, n: nat) returns (more: seq<P.Step>)
    requires Lawful(suite) && Good(suite, sys, n + Left(sys.serverTask)) && n + 4 < LAST_COUNTER
    ensures |more| <= Left(sys.serverTask)
    ensures var sys' := RunFrom(suite, sys, more);
            && Good(suite, sys', n) && sys'.serverTask == Ready
            && sys'.clientTask == sys.clientTask && sys'.open == sys.open
    decreases Left(sys.serverTask)
  {
    hide Lawful, Good, ServerService, ServerObserve, ServerActivate, SealUdp;
    if sys.serverTask == Ready {
      more := [];
    } else {
      NoPromotion(suite, sys, n + Left(sys.serverTask));
      var k := Left(sys.serverTask) - 1;
      var sys1 := P.Next(suite, sys, P.ServerAdvance(0));
      NextGood(suite, sys, P.ServerAdvance(0), n + k);
      NoPromotion(suite, sys1, n + k);
      ServiceTasks(suite, sys.server, sys.serverTask);
      FewerGood(suite, sys1, n + Left(sys1.serverTask), n + k);
      var rest := ServerDrains(suite, sys1, n);
      more := [P.ServerAdvance(0)] + rest;
      assert more[1..] == rest;
    }
  }

  lemma NoPromotion(suite: Suite, sys: P.System, n: nat)
    requires Good(suite, sys, n)
    ensures !sys.serverTask.Promoting? && !sys.clientTask.Promoting? && !sys.clientTask.Replying?
  {
  }

  lemma ServiceTasks(suite: Suite, s: Server, task: Task)
    ensures task.Activated? ==> Left(ServerService(suite, s, task.parcel, 0).0) <= 1
  {
    hide Handle;
  }

  /** So does the client's. */
  lemma {:induction false} ClientDrains(suite: Suite, sys: P.System, n: nat) returns (more: seq<P.Step>)
    requires Lawful(suite) && Good(suite, sys, n + Left(sys.clientTask)) && n + 4 < LAST_COUNTER
    requires Connected(sys)
    ensures |more| <= Left(sys.clientTask)
    ensures var sys' := RunFrom(suite, sys, more);
            && Good(suite, sys', n) && sys'.clientTask == Ready
            && sys'.serverTask == sys.serverTask && sys'.open
    decreases Left(sys.clientTask)
  {
    hide Lawful, Good, HandleAck, ClientObserve, ClientActivate;
    if sys.clientTask == Ready {
      more := [];
    } else {
      NoPromotion(suite, sys, n + Left(sys.clientTask));
      var k := Left(sys.clientTask) - 1;
      var sys1 := P.Next(suite, sys, P.ClientAdvance);
      NextGood(suite, sys, P.ClientAdvance, n + k);
      if sys.clientTask.Activated? { AckKeepsOpen(suite, sys, n + k + 1); }
      FewerGood(suite, sys1, n + Left(sys1.clientTask), n + k);
      var rest := ClientDrains(suite, sys1, n);
      more := [P.ClientAdvance] + rest;
      assert more[1..] == rest;
    }
  }

  lemma AckKeepsOpen(suite: Suite, sys: P.System, n: nat)
    requires Good(suite, sys, n) && sys.clientTask.Activated?
    ensures IsAck(sys.clientTask.parcel.text) ==>
              HandleAck(suite, sys.client, sys.clientTask.parcel.epoch, sys.clientTask.parcel.text).0.Ok?
  {
    hide P.Inv, Fresh, Spare;
    if IsAck(sys.clientTask.parcel.text) { P.ClientAckInv(suite, sys, sys.clientTask.parcel); }
  }

  // ---- the steps of a recovery ----

  /** A packet the client seals now is one the server can open. */
  lemma ClientPuts(suite: Suite, sys: P.System, text: Plaintext, n: nat) returns (d: Datagram)
    requires Good(suite, sys, n) && n > 0
    requires IsInit(text) ==> InitOf(suite, text, P.ClientEpoch(sys), sys.log.exchanges)
    ensures var sys' := P.ClientTransmit(sys, text);
            && P.Logged(sys, sys') == sys'
            && sys'.client.ep.machine == sys.client.ep.machine
            && d in sys'.up && d.text == text && d.epoch == P.ClientEpoch(sys)
            && OpenUdp(sys'.server.ep, d).0 == Some(text)
  {
    hide P.Inv, Fresh, Spares, UdpEncrypt, OpenUdp, InitOf;
    ClientSealedOpens(suite, sys, text, n);
    P.ClientTransmitInv(suite, sys, text);
    d := SealUdp(sys.client.ep, text).0.value;
  }

  /** A packet the server seals now is one the client can open. */
  lemma ServerPuts(suite: Suite, sys: P.System, text: Plaintext, n: nat) returns (d: Datagram)
    requires Good(suite, sys, n) && n > 0
    requires IsAck(text) ==> AnswerOf(text, P.ServerEpoch(sys), sys.log.answers)
    ensures var sys' := P.ServerTransmit(sys, text);
            && P.Logged(sys, sys') == sys'
            && sys'.server.ep.machine == sys.server.ep.machine
            && d in sys'.down && d.text == text && d.epoch == P.ServerEpoch(sys)
            && OpenUdp(sys'.client.ep, d).0 == Some(text)
  {
    hide P.Inv, Fresh, Spares, UdpEncrypt, OpenUdp;
    ServerSealedOpens(suite, sys, text, n);
    P.ServerTransmitInv(suite, sys, text);
    d := SealUdp(sys.server.ep, text).0.value;
  }

  /** The server reads a datagram, observes its epoch and activates it. */
  lemma ServerHears(suite: Suite, sys: P.System, d: Datagram, n: nat) returns (sys': P.System, more: seq<P.Step>)
    requires Lawful(suite) && Good(suite, sys, n + 3) && n + 3 < LAST_COUNTER
    requires sys.serverTask == Ready && d in sys.up && OpenUdp(sys.server.ep, d).0 == Some(d.text)
    ensures |more| == 3 && sys' == RunFrom(suite, sys, more) && Good(suite, sys', n)
    ensures sys' == sys.(server := sys'.server, serverTask := Activated(Parcel(d.epoch, d.text)))
    ensures sys'.server == ServerActivate(ServerObserve(sys.server.(ep := OpenUdp(sys.server.ep, d).1), d.epoch), d.epoch)
    ensures d.epoch == P.ServerNewest(sys) ==> sys'.server.ep.machine.phase == Idle
  {
    hide Lawful, P.Inv, Fresh, Spare, OpenUdp, ServerObserve, ServerActivate;
    var sys1 := P.Next(suite, sys, P.ServerReceive(d));
    NextGood(suite, sys, P.ServerReceive(d), n + 2);
    OpenKeepsAllocated(sys.server.ep, d);
    var p := Parcel(d.epoch, d.text);
    var sys2 := P.Next(suite, sys1, P.ServerAdvance(0));
    P.ServerObserveInv(suite, sys1, p);
    NextGood(suite, sys1, P.ServerAdvance(0), n + 1);
    sys' := P.Next(suite, sys2, P.ServerAdvance(0));
    P.ServerActivateInv(suite, sys2, p);
    NextGood(suite, sys2, P.ServerAdvance(0), n);
    more := [P.ServerReceive(d)] + [P.ServerAdvance(0)] + [P.ServerAdvance(0)];
    ThreeSteps(suite, sys, more[0], more[1], more[2]);
  }

  /** The client does the same. */
  lemma ClientHears(suite: Suite, sys: P.System, d: Datagram, n: nat) returns (sys': P.System, more: seq<P.Step>)
    requires Lawful(suite) && Good(suite, sys, n + 3) && n + 3 < LAST_COUNTER
    requires sys.open && sys.clientTask == Ready && d in sys.down && OpenUdp(sys.client.ep, d).0 == Some(d.text)
    ensures |more| == 3 && sys' == RunFrom(suite, sys, more) && Good(suite, sys', n)
    ensures sys' == sys.(client := sys.client.(ep := sys'.client.ep), clientTask := Activated(Parcel(d.epoch, d.text)))
    ensures P.ClientEpoch(sys') == P.ClientEpoch(sys)
    ensures d.epoch == P.ClientEpoch(sys) ==> sys'.client.ep.machine.phase == Idle
  {
    hide Lawful, P.Inv, Fresh, Spare, OpenUdp, ObservePeer, ActivateSend;
    var sys1 := P.Next(suite, sys, P.ClientReceive(d));
    NextGood(suite, sys, P.ClientReceive(d), n + 2);
    OpenKeepsAllocated(sys.client.ep, d);
    var p := Parcel(d.epoch, d.text);
    var sys2 := P.Next(suite, sys1, P.ClientAdvance);
    P.ClientObserveInv(suite, sys1, p);
    NextGood(suite, sys1, P.ClientAdvance, n + 1);
    sys' := P.Next(suite, sys2, P.ClientAdvance);
    P.ClientActivateInv(suite, sys2, p);
    NextGood(suite, sys2, P.ClientAdvance, n);
    more := [P.ClientReceive(d)] + [P.ClientAdvance] + [P.ClientAdvance];
    ThreeSteps(suite, sys, more[0], more[1], more[2]);
  }

  lemma OpenKeepsAllocated(ep: Endpoint, d: Datagram)
    ensures Allocated(OpenUdp(ep, d).1) == Allocated(ep)
    ensures OpenUdp(ep, d).1.machine == ep.machine
  {
  }

  lemma {:induction false} ThreeSteps(suite: Suite, sys: P.System, a: P.Step, b: P.Step, c: P.Step)
    ensures RunFrom(suite, sys, [a] + [b] + [c]) == P.Next(suite, P.Next(suite, P.Next(suite, sys, a), b), c)
  {
    hide P.Next;
    Extend(suite, sys, [a] + [b], c);
    Extend(suite, sys, [a], b);
    Extend(suite, sys, [], a);
    assert [] + [a] == [a];
  }

  /** Every init fits the buffer the TUN loop offers, of one MTU. */
  ghost predicate Small(suite: Suite)
  {
    forall seed, keys :: PacketLen(InitBody(suite, seed, keys)) <= MTU
  }

  lemma V1IsSmall(suite: Suite)
    requires Lawful(suite) && suite.V1?
    ensures Small(suite)
  {
    forall seed, keys ensures PacketLen(InitBody(suite, seed, keys)) <= MTU {
      assert |suite.publicKey(seed)| == KEY_SIZE;
    }
  }

  predicate Quiet(sys: P.System) { sys.open && sys.clientTask == Ready && sys.serverTask == Ready }

  lemma ClientIgnores(suite: Suite, sys: P.System, p: Parcel, n: nat)
    requires Lawful(suite) && Good(suite, sys, n + 1) && n < LAST_COUNTER
    requires sys.open && sys.clientTask == Activated(p) && p.text == Service(Pong, [])
    ensures P.Next(suite, sys, P.ClientAdvance) == sys.(clientTask := Ready)
    ensures Good(suite, sys.(clientTask := Ready), n)
  {
    hide Lawful, Good;
    NextGood(suite, sys, P.ClientAdvance, n);
  }

  lemma {:induction false} TwoAdvances(suite: Suite, sys: P.System)
    ensures RunFrom(suite, sys, [P.ServerAdvance(0)] + [P.ServerAdvance(0)]) ==
            P.Next(suite, P.Next(suite, sys, P.ServerAdvance(0)), P.ServerAdvance(0))
  {
    hide P.Next;
    Extend(suite, sys, [P.ServerAdvance(0)], P.ServerAdvance(0));
    Extend(suite, sys, [], P.ServerAdvance(0));
    assert [] + [P.ServerAdvance(0)] == [P.ServerAdvance(0)];
  }

  /** The server sends the reply it holds. */
  lemma ReplySent(suite: Suite, sys: P.System, n: nat) returns (sys': P.System, d: Datagram)
    requires Lawful(suite) && Good(suite, sys, n + 1) && n < LAST_COUNTER && sys.serverTask.Replying?
    requires IsAck(sys.serverTask.reply) ==> AnswerOf(sys.serverTask.reply, P.ServerEpoch(sys), sys.log.answers)
    ensures sys' == P.Next(suite, sys, P.ServerAdvance(0)) && Good(suite, sys', n)
    ensures sys' == sys.(server := sys'.server, serverTask := Ready, down := sys'.down)
    ensures sys'.server.ep.machine == sys.server.ep.machine
    ensures d in sys'.down && d.epoch == P.ServerEpoch(sys) && d.text == sys.serverTask.reply
    ensures OpenUdp(sys'.client.ep, d).0 == Some(d.text)
  {
    hide Lawful, Good, OpenUdp, P.ServerTransmit;
    var sys1 := sys.(serverTask := Ready);
    TaskGood(suite, sys, n + 1);
    d := ServerPuts(suite, sys1, sys.serverTask.reply, n + 1);
    TransmitKeeps(sys1, sys.serverTask.reply);
    sys' := P.Next(suite, sys, P.ServerAdvance(0));
    NextGood(suite, sys, P.ServerAdvance(0), n);
  }

  /** The server answers a ping. */
  lemma ServerPongs(suite: Suite, sys: P.System, p: Parcel, n: nat) returns (sys': P.System, d: Datagram)
    requires Lawful(suite) && Good(suite, sys, n + 2) && n + 1 < LAST_COUNTER
    requires sys.serverTask == Activated(p) && p.text == Service(Ping, [])
    ensures sys' == RunFrom(suite, sys, [P.ServerAdvance(0)] + [P.ServerAdvance(0)]) && Good(suite, sys', n)
    ensures sys' == sys.(server := sys'.server, serverTask := Ready, down := sys'.down)
    ensures sys'.server.ep.machine == sys.server.ep.machine
    ensures d in sys'.down && d.epoch == P.ServerEpoch(sys) && d.text == Service(Pong, [])
    ensures OpenUdp(sys'.client.ep, d).0 == Some(d.text)
  {
    hide Lawful, Good, OpenUdp, P.Next, RunFrom;
    var sys1 := P.Next(suite, sys, P.ServerAdvance(0));
    PongNext(suite, sys, p);
    NextGood(suite, sys, P.ServerAdvance(0), n + 1);
    sys', d := ReplySent(suite, sys1, n);
    TwoAdvances(suite, sys);
  }

  lemma PongNext(suite: Suite, sys: P.System, p: Parcel)
    requires sys.serverTask == Activated(p) && p.text == Service(Ping, [])
    ensures P.Next(suite, sys, P.ServerAdvance(0)) == sys.(serverTask := Replying(Service(Pong, []), None))
  {
    hide Handle;
  }

  /** A ping from a client that has caught up confirms the newest epoch to the server, and its pong is on the way. */
  lemma ConfirmUp(suite: Suite, sys: P.System, n: nat) returns (sys': P.System, pong: Datagram, more: seq<P.Step>)
    requires Lawful(suite) && Good(suite, sys, n + 6) && n + 6 < LAST_COUNTER && Quiet(sys)
    requires P.ClientEpoch(sys) == P.ServerNewest(sys)
    ensures |more| == 6 && sys' == RunFrom(suite, sys, more) && Good(suite, sys', n) && Quiet(sys')
    ensures P.ClientEpoch(sys') == P.ServerNewest(sys') && sys'.server.ep.machine.phase == Idle
    ensures sys'.log == sys.log && P.ClientEpoch(sys') == P.ClientEpoch(sys)
    ensures pong in sys'.down && pong.text == Service(Pong, []) && pong.epoch == P.ServerEpoch(sys')
    ensures OpenUdp(sys'.client.ep, pong).0 == Some(pong.text)
  {
    hide Lawful, Good, OpenUdp, P.AdvanceServer, P.ClientTransmit;
    var ping := Service(Ping, []);
    var d := ClientPuts(suite, sys, ping, n + 6);
    var sys1 := P.Next(suite, sys, P.ClientSend(ping));
    NextGood(suite, sys, P.ClientSend(ping), n + 5);
    assert P.ClientTransmit(sys, ping) == sys.(client := sys1.client, up := sys1.up) by { TransmitKeeps(sys, ping); }
    var sys2, hears := ServerHears(suite, sys1, d, n + 2);
    sys', pong := ServerPongs(suite, sys2, Parcel(d.epoch, d.text), n);
    more := [P.ClientSend(ping)] + (hears + [P.ServerAdvance(0)]) + [P.ServerAdvance(0)];
    SentHeardAnswered(suite, sys, P.ClientSend(ping), hears, sys1, sys2);
  }

  lemma {:induction false} SentHeardAnswered(suite: Suite, sys: P.System, first: P.Step, hears: seq<P.Step>, sys1: P.System, sys2: P.System)
    requires sys1 == P.Next(suite, sys, first) && sys2 == RunFrom(suite, sys1, hears)
    ensures RunFrom(suite, sys, [first] + (hears + [P.ServerAdvance(0)]) + [P.ServerAdvance(0)]) ==
            RunFrom(suite, sys2, [P.ServerAdvance(0)] + [P.ServerAdvance(0)])
  {
    hide P.Next;
    Sandwich(suite, sys, first, hears + [P.ServerAdvance(0)], P.ServerAdvance(0));
    Extend(suite, sys1, hears, P.ServerAdvance(0));
    Extend(suite, sys2, [P.ServerAdvance(0)], P.ServerAdvance(0));
    Extend(suite, sys2, [], P.ServerAdvance(0));
    assert [] + [P.ServerAdvance(0)] == [P.ServerAdvance(0)];
  }

  /** What sending leaves alone. */
  lemma TransmitKeeps(sys: P.System, text: Plaintext)
    ensures var sys' := P.ClientTransmit(sys, text);
            sys' == sys.(client := sys.client.(ep := sys'.client.ep), up := sys'.up)
    ensures var sys' := P.ServerTransmit(sys, text);
            sys' == sys.(server := sys.server.(ep := sys'.server.ep), down := sys'.down)
  {
    hide SealUdp;
  }

  lemma {:induction false} Sandwich(suite: Suite, sys: P.System, first: P.Step, middle: seq<P.Step>, last: P.Step)
    ensures RunFrom(suite, sys, [first] + middle + [last]) ==
            P.Next(suite, RunFrom(suite, P.Next(suite, sys, first), middle), last)
  {
    hide P.Next;
    Extend(suite, sys, [first] + middle, last);
    assert ([first] + middle)[1..] == middle;
  }

  /** The pong of an idle server confirms the common epoch to the client. */
  lemma ConfirmDown(suite: Suite, sys: P.System, pong: Datagram, n: nat) returns (sys': P.System, more: seq<P.Step>)
    requires Lawful(suite) && Good(suite, sys, n + 4) && n + 4 < LAST_COUNTER && Quiet(sys)
    requires P.ClientEpoch(sys) == P.ServerNewest(sys) && sys.server.ep.machine.phase == Idle
    requires pong in sys.down && pong.text == Service(Pong, []) && pong.epoch == P.ServerEpoch(sys)
    requires OpenUdp(sys.client.ep, pong).0 == Some(pong.text)
    ensures |more| == 4 && sys' == RunFrom(suite, sys, more) && Settled(sys')
    ensures Good(suite, sys', n) && sys'.log == sys.log && P.ClientEpoch(sys') == P.ClientEpoch(sys)
  {
    hide Lawful, Good, OpenUdp, P.AdvanceClient, P.Next, Settled;
    IdleFacts(suite, sys, n + 4);
    var sys1, hears := ClientHears(suite, sys, pong, n + 1);
    ClientIgnores(suite, sys1, Parcel(pong.epoch, pong.text), n);
    sys' := sys1.(clientTask := Ready);
    more := hears + [P.ClientAdvance];
    Extend(suite, sys, hears, P.ClientAdvance);
    IdleFacts(suite, sys', n);
  }

  lemma IdleFacts(suite: Suite, sys: P.System, n: nat)
    requires Good(suite, sys, n)
    ensures sys.server.ep.machine.phase == Idle ==> P.ServerEpoch(sys) == P.ServerNewest(sys)
    ensures (sys.server.ep.machine.phase == Idle && sys.client.ep.machine.phase == Idle
             && P.ClientEpoch(sys) == P.ServerEpoch(sys)) ==> Settled(sys)
  {
    hide Transactions, P.Frames, Exchanges, RingOf, Fresh, Spare;
  }

  // ---- an answer that was lost is asked for again ----

  ghost predicate Behind(sys: P.System) { P.ClientEpoch(sys) + 1 == P.ServerNewest(sys) }

  /** A client one epoch behind still holds the exchange the server has answered. */
  lemma BehindFacts(suite: Suite, sys: P.System, n: nat)
    requires Lawful(suite) && Good(suite, sys, n) && Behind(sys)
    ensures var e := P.ClientEpoch(sys);
            && e == P.ServerEpoch(sys)
            && sys.client.pending.Some? && sys.client.ep.machine.phase == Idle
            && sys.client.pending.value.carrier == e
            && |sys.log.answers| == e + 1
            && sys.server.transaction == Some(sys.log.answers[e].(sendActivated := false, peerObserved := false))
            && sys.log.answers[e].carrier == e && sys.log.answers[e].epoch == e + 1
            && sys.log.answers[e].request == InitPacket(suite, sys.client.pending.value)
            && IsRequest(suite, InitPacket(suite, sys.client.pending.value))
            && IsAck(sys.log.answers[e].response)
            && (sys.built.Some? ==> sys.built.value == InitPacket(suite, sys.client.pending.value))
  {
    hide P.Frames, Fresh, Spare, RingOf, InitOf;
    var e := P.ClientEpoch(sys);
    assert Answers(suite, sys.log.answers[e], e, sys.log.exchanges[e], sys.log.serverKeys[e], sys.log.serverKeys[e + 1]);
    BuiltFacts(suite, sys);
  }

  lemma BuiltFacts(suite: Suite, sys: P.System)
    requires P.Inv(suite, sys)
    ensures sys.built.Some? ==> InitOf(suite, sys.built.value, P.ClientEpoch(sys), sys.log.exchanges)
    ensures sys.built.Some? && sys.client.pending.Some? ==> sys.built.value == InitPacket(suite, sys.client.pending.value)
  {
  }

  /** A due retry builds the very init the server has answered. */
  lemma Rebuilds(suite: Suite, sys: P.System, n: nat) returns (sys': P.System, step: P.Step)
    requires Lawful(suite) && Small(suite) && Good(suite, sys, n + 1) && n < LAST_COUNTER && Quiet(sys) && Behind(sys)
    requires sys.built.None?
    ensures sys' == P.Next(suite, sys, step) && Good(suite, sys', n)
    ensures Quiet(sys') && Behind(sys') && sys'.built.Some?
  {
    hide Good;
    BehindFacts(suite, sys, n + 1);
    step := P.ClientBuild(sys.client.rotateAt, None, MTU);
    sys' := P.Next(suite, sys, step);
    NextGood(suite, sys, step, n);
  }

  lemma TaskGood(suite: Suite, sys: P.System, n: nat)
    requires Good(suite, sys, n)
    ensures Good(suite, sys.(serverTask := Ready), n)
  {
    hide P.Inv, Numbered, Heard, Spares;
    P.ServerTaskInv(suite, sys, Ready);
  }

  /** The server answers the repeated init with its first answer, under the epoch that carried it. */
  lemma ServerRepeats(suite: Suite, sys: P.System, p: Parcel, n: nat) returns (sys': P.System, d: Datagram)
    requires Lawful(suite) && Good(suite, sys, n + 2) && n + 1 < LAST_COUNTER && Behind(sys)
    requires sys.serverTask == Activated(p) && p.epoch == P.ClientEpoch(sys)
    requires sys.client.pending.Some? && p.text == InitPacket(suite, sys.client.pending.value)
    ensures sys' == RunFrom(suite, sys, [P.ServerAdvance(0)] + [P.ServerAdvance(0)]) && Good(suite, sys', n)
    ensures sys' == sys.(server := sys'.server, serverTask := Ready, down := sys'.down)
    ensures d in sys'.down && d.epoch == p.epoch && OpenUdp(sys'.client.ep, d).0 == Some(d.text)
    ensures AnswerOf(d.text, d.epoch, sys'.log.answers)
  {
    hide Lawful, Good, OpenUdp, P.Next, RunFrom;
    BehindFacts(suite, sys, n + 2);
    RepeatNext(suite, sys, p);
    NextGood(suite, sys, P.ServerAdvance(0), n + 1);
    sys', d := ReplySent(suite, P.Next(suite, sys, P.ServerAdvance(0)), n);
    TwoAdvances(suite, sys);
  }

  lemma RepeatNext(suite: Suite, sys: P.System, p: Parcel)
    requires sys.serverTask == Activated(p) && IsRequest(suite, p.text)
    requires sys.server.transaction.Some?
    requires var t := sys.server.transaction.value; t.request == p.text && t.carrier == p.epoch && !t.Complete()
    ensures var t := sys.server.transaction.value;
            P.Next(suite, sys, P.ServerAdvance(0)) == sys.(serverTask := Replying(t.response, Some(t.epoch)))
  {
  }

  /** The repeated answer moves the client to the server's newest epoch. */
  lemma ClientCatchesUp(suite: Suite, sys: P.System, p: Parcel, n: nat) returns (sys': P.System)
    requires Lawful(suite) && Good(suite, sys, n + 1) && n < LAST_COUNTER && Behind(sys)
    requires sys.open && sys.clientTask == Activated(p)
    requires p.epoch == P.ClientEpoch(sys) && AnswerOf(p.text, p.epoch, sys.log.answers)
    ensures sys' == P.Next(suite, sys, P.ClientAdvance) && Good(suite, sys', n)
    ensures sys'.clientTask == Ready && sys'.serverTask == sys.serverTask && sys'.open
    ensures P.ClientEpoch(sys') == P.ServerNewest(sys')
  {
    hide Lawful, Good, HandleAck, IsAnswer;
    BehindFacts(suite, sys, n + 1);
    AckFits(suite, sys, p, n + 1);
    sys' := P.Next(suite, sys, P.ClientAdvance);
    NextGood(suite, sys, P.ClientAdvance, n);
  }

  lemma AckFits(suite: Suite, sys: P.System, p: Parcel, n: nat)
    requires Good(suite, sys, n) && Behind(sys) && sys.clientTask == Activated(p) && IsAck(p.text)
    requires sys.client.pending.Some? && p.epoch == sys.client.pending.value.carrier
    requires AnswerOf(p.text, p.epoch, sys.log.answers)
    ensures var (r, c) := HandleAck(suite, sys.client, p.epoch, p.text);
            r.Ok? && Current(c.ep) == P.ServerNewest(sys)
  {
    hide Fresh, Spare, HandleAck, P.Frames, Shaped, Finish, Answers;
    ShapedFacts(sys.client.ep, sys.log.clientKeys, false);
    AcceptedAck(suite, sys.client, sys.server, sys.log, p);
    P.ClientAckInv(suite, sys, p);
  }

  /** A lost answer is recovered by one retry. */
  lemma CatchUp(suite: Suite, sys: P.System, n: nat) returns (sys': P.System, more: seq<P.Step>)
    requires Lawful(suite) && Small(suite) && Good(suite, sys, n + 11) && n + 11 < LAST_COUNTER && Quiet(sys) && Behind(sys)
    ensures |more| <= 11 && sys' == RunFrom(suite, sys, more)
    ensures Good(suite, sys', n) && Quiet(sys') && P.ClientEpoch(sys') == P.ServerNewest(sys')
  {
    hide Lawful, Good, Quiet, P.Next;
    if sys.built.Some? {
      FewerGood(suite, sys, n + 10, n + 11);
      sys', more := Reask(suite, sys, n);
    } else {
      var sys1, step := Rebuilds(suite, sys, n + 10);
      var rest;
      sys', rest := Reask(suite, sys1, n);
      more := [step] + rest;
      assert more[1..] == rest;
    }
  }

  lemma Reask(suite: Suite, sys: P.System, n: nat) returns (sys': P.System, more: seq<P.Step>)
    requires Lawful(suite) && Good(suite, sys, n + 10) && n + 10 < LAST_COUNTER && Quiet(sys) && Behind(sys)
    requires sys.built.Some?
    ensures |more| == 10 && sys' == RunFrom(suite, sys, more)
    ensures Good(suite, sys', n) && Quiet(sys') && P.ClientEpoch(sys') == P.ServerNewest(sys')
  {
    hide Lawful, Good, OpenUdp, P.Next, RunFrom, AnswerOf;
    BehindFacts(suite, sys, n + 10);
    var sys1, d1 := AsksAgain(suite, sys, n + 9);
    var sys2, hears := ServerHears(suite, sys1, d1, n + 6);
    var sys3, d3 := ServerRepeats(suite, sys2, Parcel(d1.epoch, d1.text), n + 4);
    var sys4, hears' := ClientHears(suite, sys3, d3, n + 1);
    sys' := ClientCatchesUp(suite, sys4, Parcel(d3.epoch, d3.text), n);
    var twice := [P.ServerAdvance(0)] + [P.ServerAdvance(0)];
    more := [P.ClientSendBuilt] + (hears + (twice + hears')) + [P.ClientAdvance];
    Sandwich(suite, sys, P.ClientSendBuilt, hears + (twice + hears'), P.ClientAdvance);
    RunFromAppend(suite, sys1, hears, twice + hears');
    RunFromAppend(suite, sys2, twice, hears');
  }

  /** The init waiting to be sent reaches the server's socket. */
  lemma AsksAgain(suite: Suite, sys: P.System, n: nat) returns (sys': P.System, d: Datagram)
    requires Lawful(suite) && Good(suite, sys, n + 1) && n < LAST_COUNTER && sys.open && sys.built.Some? && Behind(sys)
    ensures sys' == P.Next(suite, sys, P.ClientSendBuilt) && Good(suite, sys', n)
    ensures sys' == sys.(client := sys.client.(ep := sys'.client.ep), built := None, up := sys'.up)
    ensures P.ClientEpoch(sys') == P.ClientEpoch(sys)
    ensures d in sys'.up && d.epoch == P.ClientEpoch(sys) && d.text == InitPacket(suite, sys.client.pending.value)
    ensures OpenUdp(sys'.server.ep, d).0 == Some(d.text)
  {
    hide Lawful, Good, OpenUdp, P.ClientTransmit, InitOf;
    BehindFacts(suite, sys, n + 1);
    SlotGood(suite, sys, n + 1);
    var sys0 := sys.(built := None);
    d := ClientPuts(suite, sys0, sys.built.value, n + 1);
    TransmitKeeps(sys0, sys.built.value);
    sys' := P.Next(suite, sys, P.ClientSendBuilt);
    NextGood(suite, sys, P.ClientSendBuilt, n);
  }

  lemma SlotGood(suite: Suite, sys: P.System, n: nat)
    requires Good(suite, sys, n) && sys.built.Some?
    ensures Good(suite, sys.(built := None), n)
    ensures InitOf(suite, sys.built.value, P.ClientEpoch(sys), sys.log.exchanges)
  {
    hide P.Inv, Numbered, Heard, Spares, InitOf;
    P.BuiltFacts(suite, sys);
  }

  // ---- the theorem ----

  /**
   * From every reachable state, whatever was lost so far, a bounded sequence of the loops'
   * own steps (each loop finishing its packet, one retry, one packet each way) brings both
   * ends to rest at one epoch with equal keys, as long as the client has not been told to
   * reconnect and no slot is that close to its last packet number.
   */
  lemma Recoverable(suite: Suite, keys: KeyPair, interval: nat, steps: seq<P.Step>, sys: P.System)
    returns (more: seq<P.Step>, sys': P.System)
    requires Lawful(suite) && Small(suite) && sys == P.Run(suite, keys, interval, steps)
    requires Connected(sys) && Spare(sys, 30)
    ensures |more| <= 30 && sys' == P.Run(suite, keys, interval, steps + more) && Settled(sys')
  {
    hide Lawful, P.Inv, Fresh, Spare, P.Next, Connected, Settled;
    P.RunInv(suite, keys, interval, steps);
    RunFresh(suite, keys, interval, steps);
    var sys1, quiet := Quieten(suite, sys);
    var sys2, rest := SettleQuiet(suite, sys1);
    more, sys' := quiet + rest, sys2;
    RunFromAppend(suite, sys, quiet, rest);
    RunContinues(suite, keys, interval, steps, more);
  }

  lemma Quieten(suite: Suite, sys: P.System) returns (sys': P.System, more: seq<P.Step>)
    requires Lawful(suite) && Good(suite, sys, 30) && Connected(sys)
    ensures |more| <= 8 && sys' == RunFrom(suite, sys, more) && Good(suite, sys', 22) && Quiet(sys')
  {
    hide Lawful, Good, RunFrom;
    FewerGood(suite, sys, 26 + Left(sys.serverTask), 30);
    var first := ServerDrains(suite, sys, 26);
    var sys1 := RunFrom(suite, sys, first);
    FewerGood(suite, sys1, 22 + Left(sys1.clientTask), 26);
    var second := ClientDrains(suite, sys1, 22);
    sys', more := RunFrom(suite, sys1, second), first + second;
    RunFromAppend(suite, sys, first, second);
  }

  lemma SettleQuiet(suite: Suite, sys: P.System) returns (sys': P.System, more: seq<P.Step>)
    requires Lawful(suite) && Small(suite) && Good(suite, sys, 22) && Quiet(sys)
    ensures |more| <= 21 && sys' == RunFrom(suite, sys, more) && Settled(sys')
  {
    hide Lawful, Good, RunFrom, Settled, Quiet;
    WithinOneOf(suite, sys, 22);
    var sys1, first := sys, [];
    if Behind(sys) {
      sys1, first := CatchUp(suite, sys, 11);
    } else {
      FewerGood(suite, sys, 11, 22);
      EmptyRun(suite, sys);
    }
    var sys2, pong, second := ConfirmUp(suite, sys1, 5);
    var third;
    sys', third := ConfirmDown(suite, sys2, pong, 1);
    more := first + (second + third);
    RunFromAppend(suite, sys, first, second + third);
    RunFromAppend(suite, sys1, second, third);
  }

  lemma {:induction false} EmptyRun(suite: Suite, sys: P.System)
    ensures RunFrom(suite, sys, []) == sys
  {
  }

  lemma WithinOneOf(suite: Suite, sys: P.System, n: nat)
    requires Good(suite, sys, n)
    ensures P.ClientEpoch(sys) <= P.ServerNewest(sys) <= P.ClientEpoch(sys) + 1
  {
  }
}
