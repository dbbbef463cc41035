/**
 * One packet through each of the four loops, as a method over the live objects. Each turn is
 * the composition of the protocol's steps from receiving the packet to being ready again.
 */
module PacketLoops {
  import opened Basics
  import C = Coordinators
  import opened Epochs
  import opened Exchange
  import opened Managers
  import opened Nonces
  import opened RekeyCoordinators
  import opened StateMachines
  import T = TcpProtocol
  import opened Transcripts
  import U = UdpProtocol

  // ---- what one turn does ----

  function UdpServerSends(s: C.Server, task: Task): (result: (Option<Datagram>, C.Server))
  {
    if task.Replying? then
      var (out, ep) := SealUdp(s.ep, task.reply);
      (out, s.(ep := ep))
    else (None, s)
  }

  /** An authenticated datagram at the server: observe, activate, handle, and send the reply. */
  function UdpServerHandles(suite: Suite, s: C.Server, parcel: Parcel, seed: Seed): (result: (Option<Datagram>, C.Server))
  {
    var heard := C.ServerActivate(C.ServerObserve(s, parcel.epoch), parcel.epoch);
    var (task, s') := ServerService(suite, heard, parcel, seed);
    UdpServerSends(s', task)
  }

  function UdpServerTurn(suite: Suite, s: C.Server, d: Datagram, seed: Seed): (result: (Option<Datagram>, C.Server))
  {
    match OpenUdp(s.ep, d)
    case (None, _) => (None, s)
    case (Some(text), ep) => UdpServerHandles(suite, s.(ep := ep), Parcel(d.epoch, text), seed)
  }

  /** The client: open, observe, activate, then the control plane; false means reconnect. */
  function UdpClientTurn(suite: Suite, c: C.Client, d: Datagram): (result: (bool, C.Client))
  {
    match OpenUdp(c.ep, d)
    case (None, _) => (true, c)
    case (Some(text), ep) =>
      ClientService(suite, C.ClientActivate(C.ClientObserve(c.(ep := ep), d.epoch), d.epoch), Parcel(d.epoch, text))
  }

  /** Sends what the handler left to send, and activates only after sending. */
  function TcpServerReplies(s: C.Server, task: Task): (result: (bool, Option<TcpFrame>, C.Server))
  {
    if !task.Replying? then (true, None, s)
    else
      match SealTcp(s.ep, task.reply)
      case (None, _) => (task.reply == Service(Pong, []), None, s)
      case (Some(out), ep) =>
        var sent := s.(ep := ep);
        (true, Some(out), if task.epoch.Some? then C.ServerActivate(sent, task.epoch.value) else sent)
  }

  /** A frame at the TCP server: observe, handle, then reply. */
  function TcpServerHandles(suite: Suite, s: C.Server, parcel: Parcel, seed: Seed): (result: (bool, Option<TcpFrame>, C.Server))
  {
    var (task, s') := ServerService(suite, C.ServerObserve(s, parcel.epoch), parcel, seed);
    TcpServerReplies(s', task)
  }

  function TcpServerTurn(suite: Suite, s: C.Server, f: TcpFrame, seed: Seed): (result: (bool, Option<TcpFrame>, C.Server))
  {
    match OpenTcp(s.ep, f)
    case (None, _) => (false, None, s)
    case (Some(text), ep) => TcpServerHandles(suite, s.(ep := ep), Parcel(f.epoch, text), seed)
  }

  function TcpClientTurn(suite: Suite, c: C.Client, f: TcpFrame): (result: (bool, C.Client))
  {
    match OpenTcp(c.ep, f)
    case (None, _) => (false, c)
    case (Some(text), ep) =>
      ClientService(suite, C.ClientObserve(c.(ep := ep), f.epoch), Parcel(f.epoch, text))
  }

  /** The UDP client's TUN loop: send the packet, then whatever init is due. */
  function UdpTunTurn(suite: Suite, c: C.Client, text: Plaintext, now: int, draw: Option<Seed>, room: nat)
    : (result: (Option<Datagram>, Option<Datagram>, C.Client))
  {
    var (packet, ep) := SealUdp(c.ep, text);
    var (r, c') := C.MaybeBuildInit(suite, c.(ep := ep), now, draw, room);
    if r.Ok? && r.value.Some? then
      var (init, ep') := SealUdp(c'.ep, r.value.value);
      (packet, init, c'.(ep := ep'))
    else (packet, None, c')
  }

  // ---- a turn is a run of the protocol's steps ----

  lemma UdpServerTurnIsSteps(suite: Suite, sys: U.System, d: Datagram, seed: Seed)
    requires sys.serverTask == Ready && d in sys.up
    ensures var t := U.Next(suite, U.Next(suite, U.Next(suite, U.Next(suite, U.Next(suite, sys,
                       U.ServerReceive(d)), U.ServerAdvance(seed)), U.ServerAdvance(seed)), U.ServerAdvance(seed)),
                       U.ServerAdvance(seed));
            var (out, s') := UdpServerTurn(suite, sys.server, d, seed);
            t == sys.(server := s', down := U.Sent(sys.down, out), log := t.log)
  {
    hide OpenUdp, SealUdp, C.ServerObserve, C.ServerActivate, C.Handle, Record;
  }

  lemma UdpClientTurnIsSteps(suite: Suite, sys: U.System, d: Datagram)
    requires sys.open && sys.clientTask == Ready && d in sys.down
    ensures var t := U.Next(suite, U.Next(suite, U.Next(suite, U.Next(suite, sys,
                       U.ClientReceive(d)), U.ClientAdvance), U.ClientAdvance), U.ClientAdvance);
            var (open, c') := UdpClientTurn(suite, sys.client, d);
            t == sys.(client := c', open := open, log := t.log)
  {
    hide OpenUdp, C.ClientObserve, C.ClientActivate, ClientService, Record;
  }

  lemma UdpTunTurnIsSteps(suite: Suite, sys: U.System, text: Plaintext, now: int, draw: Option<Seed>, room: nat)
    requires sys.open && sys.built.None? && IsTraffic(text)
    ensures var t := U.Next(suite, U.Next(suite, U.Next(suite, sys, U.ClientSend(text)),
                                          U.ClientBuild(now, draw, room)), U.ClientSendBuilt);
            var (packet, init, c') := UdpTunTurn(suite, sys.client, text, now, draw, room);
            t == sys.(client := c', up := U.Sent(U.Sent(sys.up, packet), init), log := t.log)
  {
    hide SealUdp, C.MaybeBuildInit, Record;
  }

  lemma TcpServerRepliesIsSteps(suite: Suite, sys: T.System, seed: Seed)
    requires sys.serverOpen && (sys.serverTask.Ready? || sys.serverTask.Replying?)
    ensures var t := T.Next(suite, T.Next(suite, sys, T.ServerAdvance(seed)), T.ServerAdvance(seed));
            var (open, out, s') := TcpServerReplies(sys.server, sys.serverTask);
            && t.serverOpen == open && t.server == s'
            && t.down == (if out.Some? then sys.down.(sent := sys.down.sent + [out.value]) else sys.down)
            && (open ==> t.serverTask == Ready)
  {
    hide SealTcp, C.ServerActivate, Record;
  }

  lemma TcpServerTurnIsSteps(suite: Suite, sys: T.System, seed: Seed)
    requires sys.serverOpen && sys.serverTask == Ready && sys.up.got < |sys.up.sent|
    ensures var t := T.Next(suite, T.Next(suite, T.Next(suite, T.Next(suite, T.Next(suite, sys,
                       T.ServerReceive), T.ServerAdvance(seed)), T.ServerAdvance(seed)), T.ServerAdvance(seed)),
                       T.ServerAdvance(seed));
            var (open, out, s') := TcpServerTurn(suite, sys.server, sys.up.sent[sys.up.got], seed);
            && t.serverOpen == open && t.server == s'
            && t.down == (if out.Some? then sys.down.(sent := sys.down.sent + [out.value]) else sys.down)
            && (open ==> t.serverTask == Ready)
  {
    hide OpenTcp, SealTcp, C.ServerObserve, C.ServerActivate, C.Handle, Record, TcpServerReplies;
    var f := sys.up.sent[sys.up.got];
    if OpenTcp(sys.server.ep, f).0.Some? {
      var t3 := T.Next(suite, T.Next(suite, T.Next(suite, sys, T.ServerReceive), T.ServerAdvance(seed)), T.ServerAdvance(seed));
      TcpServerRepliesIsSteps(suite, t3, seed);
    }
  }

  lemma TcpClientTurnIsSteps(suite: Suite, sys: T.System)
    requires sys.clientOpen && sys.clientTask == Ready && sys.down.got < |sys.down.sent|
    ensures var t := T.Next(suite, T.Next(suite, T.Next(suite, sys, T.ClientReceive), T.ClientAdvance), T.ClientAdvance);
            var (open, c') := TcpClientTurn(suite, sys.client, sys.down.sent[sys.down.got]);
            t.clientOpen == open && t.client == c' && t.clientTask == Ready
  {
    hide OpenTcp, C.ClientObserve, ClientService, Record;
  }

  // ---- the turns over the live objects ----

  /** A datagram beside the 12 bytes that came with it, which open it only if they are its own nonce. */
  function OpenWith(ep: Endpoint, header: Bytes, d: Datagram): (result: (Option<Plaintext>, Endpoint))
    requires d.number <= LAST_COUNTER
  {
    if header == NonceBytes(d.number, d.epoch) then OpenUdp(ep, d) else (None, ep)
  }

  /** A frame behind the two bytes that came before it, which must name its epoch. */
  function OpenBehind(ep: Endpoint, prefix: Bytes, f: TcpFrame): (result: (Option<Plaintext>, Endpoint))
  {
    if |prefix| == 2 && Decoded(prefix) == f.epoch then OpenTcp(ep, f) else (None, ep)
  }

  lemma RefusedUnchanged(ep: Endpoint, d: Datagram, f: TcpFrame)
    ensures OpenUdp(ep, d).0.None? ==> OpenUdp(ep, d).1 == ep
    ensures OpenTcp(ep, f).0.None? ==> OpenTcp(ep, f).1 == ep
    ensures SealTcp(ep, f.text).0.None? ==> SealTcp(ep, f.text).1 == ep
  {
  }

  method OpenDatagram(controller: StateMachine, header: Bytes, d: Datagram) returns (text: Option<Plaintext>)
    requires controller.Valid() && controller.manager.UdpManager? && d.number <= LAST_COUNTER
    modifies controller.manager.Repr()
    ensures controller.Valid() && controller.state.Repr() == old(controller.state.Repr())
    ensures fresh(controller.manager.Repr() - old(controller.manager.Repr()))
    ensures (text, controller.End()) == OpenWith(old(controller.End()), header, d)
  {
    hide State.Valid, State.Model, UdpDecrypt, NonceBytes;
    text := controller.manager.udp.Decrypt(header, d);
    controller.StateKept();
  }

  method SealDatagram(controller: StateMachine, text: Plaintext) returns (d: Option<Datagram>)
    requires controller.Valid() && controller.manager.UdpManager?
    modifies controller.manager.Repr()
    ensures controller.Valid() && controller.state.Repr() == old(controller.state.Repr())
    ensures fresh(controller.manager.Repr() - old(controller.manager.Repr()))
    ensures (d, controller.End()) == SealUdp(old(controller.End()), text)
  {
    hide State.Valid, State.Model, UdpEncrypt;
    var header;
    d, header := controller.manager.udp.Encrypt(text);
    controller.StateKept();
  }

  method OpenFrame(controller: StateMachine, prefix: Bytes, f: TcpFrame) returns (text: Option<Plaintext>)
    requires controller.Valid() && controller.manager.TcpManager? && f.number <= LAST_COUNTER
    modifies controller.manager.Repr()
    ensures controller.Valid() && controller.state.Repr() == old(controller.state.Repr())
    ensures fresh(controller.manager.Repr() - old(controller.manager.Repr()))
    ensures (text, controller.End()) == OpenBehind(old(controller.End()), prefix, f)
  {
    hide State.Valid, State.Model, TcpDecrypt, Decoded;
    text := controller.manager.tcp.Decrypt(prefix, f);
    controller.StateKept();
  }

  method SealFrame(controller: StateMachine, text: Plaintext) returns (f: Option<TcpFrame>)
    requires controller.Valid() && controller.manager.TcpManager?
    modifies controller.manager.Repr()
    ensures controller.Valid() && controller.state.Repr() == old(controller.state.Repr())
    ensures fresh(controller.manager.Repr() - old(controller.manager.Repr()))
    ensures (f, controller.End()) == SealTcp(old(controller.End()), text)
  {
    hide State.Valid, State.Model, TcpEncrypt;
    var prefix;
    f, prefix := controller.manager.tcp.Encrypt(text);
    controller.StateKept();
  }

  /** A footprint that grows by new objects, call after call. */
  twostate lemma GrowsFresh(r0: set<object>, new r1: set<object>, new r2: set<object>)
    requires fresh(r1 - r0) && fresh(r2 - r1)
    ensures fresh(r2 - r0)
  {
    forall o | o in r2 - r0 ensures fresh(o)
    {
      if o in r1 { assert o in r1 - r0; } else { assert o in r2 - r1; }
    }
  }

  /** A peer as the server's loops see it: its crypto, behind its rekey coordinator. */
  class Peer {
    const rekey: ServerRekeyCoordinator

    constructor (rekey: ServerRekeyCoordinator)
      ensures this.rekey == rekey
    {
      this.rekey := rekey;
    }

    method DecryptDatagram(header: Bytes, d: Datagram) returns (text: Option<Plaintext>)
      requires rekey.Valid() && rekey.controller.manager.UdpManager? && d.number <= LAST_COUNTER
      modifies rekey.Repr()
      ensures rekey.Valid() && fresh(rekey.Repr() - old(rekey.Repr()))
      ensures (text, rekey.Model()) == 
              (OpenWith(old(rekey.Model()).ep, header, d).0, old(rekey.Model()).(ep := OpenWith(old(rekey.Model()).ep, header, d).1))
    {
      hide OpenWith, StateMachine.Valid, StateMachine.End;
      text := OpenDatagram(rekey.controller, header, d);
    }

    method SendDatagram(text: Plaintext) returns (d: Option<Datagram>)
      requires rekey.Valid() && rekey.controller.manager.UdpManager?
      modifies rekey.Repr()
      ensures rekey.Valid() && fresh(rekey.Repr() - old(rekey.Repr()))
      ensures (d, rekey.Model()) == (SealUdp(old(rekey.Model()).ep, text).0, old(rekey.Model()).(ep := SealUdp(old(rekey.Model()).ep, text).1))
    {
      hide SealUdp, StateMachine.Valid, StateMachine.End;
      d := SealDatagram(rekey.controller, text);
    }

    method DecryptFrame(prefix: Bytes, f: TcpFrame) returns (text: Option<Plaintext>)
      requires rekey.Valid() && rekey.controller.manager.TcpManager? && f.number <= LAST_COUNTER
      modifies rekey.Repr()
      ensures rekey.Valid() && fresh(rekey.Repr() - old(rekey.Repr()))
      ensures (text, rekey.Model()) == 
              (OpenBehind(old(rekey.Model()).ep, prefix, f).0, old(rekey.Model()).(ep := OpenBehind(old(rekey.Model()).ep, prefix, f).1))
    {
      hide OpenBehind, StateMachine.Valid, StateMachine.End;
      text := OpenFrame(rekey.controller, prefix, f);
    }

    method SendFrame(text: Plaintext) returns (f: Option<TcpFrame>)
      requires rekey.Valid() && rekey.controller.manager.TcpManager?
      modifies rekey.Repr()
      ensures rekey.Valid() && fresh(rekey.Repr() - old(rekey.Repr()))
      ensures (f, rekey.Model()) == (SealTcp(old(rekey.Model()).ep, text).0, old(rekey.Model()).(ep := SealTcp(old(rekey.Model()).ep, text).1))
    {
      hide SealTcp, StateMachine.Valid, StateMachine.End;
      f := SealFrame(rekey.controller, text);
    }

    /** The answer to a service packet; what to send is left to the caller. */
    method HandleService(parcel: Parcel, seed: Seed) returns (task: Task)
      requires rekey.Valid()
      modifies rekey.Repr()
      ensures rekey.Valid() && fresh(rekey.Repr() - old(rekey.Repr()))
      ensures (task, rekey.Model()) == ServerService(rekey.suite, old(rekey.Model()), parcel, seed)
    {
      hide C.Handle, ServerRekeyCoordinator.Valid, ServerRekeyCoordinator.Model;
      if IsInit(parcel.text) {
        var r := rekey.Handle(parcel.epoch, parcel.text, seed);
        match r
        case Err(e) => task := if e == EpochExhausted then Replying(Service(ExhaustedNotice, []), None) else Ready;
        case Ok(None) => task := Ready;
        case Ok(Some(reply)) => task := Replying(reply.response, Some(reply.epoch));
      } else if parcel.text.Service? && parcel.text.kind == Ping {
        task := Replying(Service(Pong, []), None);
      } else {
        task := Ready;
      }
    }

    method SendReply(task: Task) returns (reply: Option<Datagram>)
      requires rekey.Valid() && rekey.controller.manager.UdpManager?
      modifies rekey.Repr()
      ensures rekey.Valid() && fresh(rekey.Repr() - old(rekey.Repr()))
      ensures (reply, rekey.Model()) == UdpServerSends(old(rekey.Model()), task)
    {
      hide SealUdp, ServerRekeyCoordinator.Valid, ServerRekeyCoordinator.Model, ServerRekeyCoordinator.Repr;
      if !task.Replying? {
        return None;
      }
      reply := SendDatagram(task.reply);
    }

    method ServeDatagram(parcel: Parcel, seed: Seed) returns (reply: Option<Datagram>)
      requires rekey.Valid() && rekey.controller.manager.UdpManager?
      modifies rekey.Repr()
      ensures rekey.Valid() && fresh(rekey.Repr() - old(rekey.Repr()))
      ensures var (task, s) := ServerService(rekey.suite, old(rekey.Model()), parcel, seed);
              (reply, rekey.Model()) == UdpServerSends(s, task)
    {
      hide UdpServerSends, ServerService, ServerRekeyCoordinator.Valid, ServerRekeyCoordinator.Model, ServerRekeyCoordinator.Repr;
      var task := HandleService(parcel, seed);
      ghost var r := rekey.Repr();
      label Then:
      reply := SendReply(task);
      assert allocated(rekey.Repr());
      forall o | o in rekey.Repr() - r ensures fresh(o) { assert fresh@Then(o); }
      GrowsFresh(old(rekey.Repr()), r, rekey.Repr());
    }

    method ObserveAndActivate(epoch: uint16)
      requires rekey.Valid()
      modifies rekey.Repr()
      ensures rekey.Valid() && fresh(rekey.Repr() - old(rekey.Repr()))
      ensures rekey.Model() == C.ServerActivate(C.ServerObserve(old(rekey.Model()), epoch), epoch)
    {
      hide C.ServerObserve, C.ServerActivate, ServerRekeyCoordinator.Valid, ServerRekeyCoordinator.Model, ServerRekeyCoordinator.Repr;
      rekey.ObservePeerEpoch(epoch);
      ghost var r := rekey.Repr();
      label Then:
      rekey.ActivateSendEpoch(epoch);
      assert allocated(rekey.Repr());
      forall o | o in rekey.Repr() - r ensures fresh(o) { assert fresh@Then(o); }
      GrowsFresh(old(rekey.Repr()), r, rekey.Repr());
    }

    /** Observe, activate, and only then look at the packet. */
    method HandleDecrypted(parcel: Parcel, seed: Seed) returns (reply: Option<Datagram>)
      requires rekey.Valid() && rekey.controller.manager.UdpManager?
      modifies rekey.Repr()
      ensures rekey.Valid() && fresh(rekey.Repr() - old(rekey.Repr()))
      ensures (reply, rekey.Model()) == UdpServerHandles(rekey.suite, old(rekey.Model()), parcel, seed)
    {
      hide C.ServerObserve, C.ServerActivate, UdpServerSends, ServerService,
           ServerRekeyCoordinator.Valid, ServerRekeyCoordinator.Model, ServerRekeyCoordinator.Repr;
      ObserveAndActivate(parcel.epoch);
      ghost var r := rekey.Repr();
      label Then:
      reply := ServeDatagram(parcel, seed);
      assert allocated(rekey.Repr());
      forall o | o in rekey.Repr() - r ensures fresh(o) { assert fresh@Then(o); }
      GrowsFresh(old(rekey.Repr()), r, rekey.Repr());
    }

    /** The UDP server's turn. */
    method HandleEstablished(header: Bytes, d: Datagram, seed: Seed) returns (reply: Option<Datagram>)
      requires rekey.Valid() && rekey.controller.manager.UdpManager? && d.number <= LAST_COUNTER
      modifies rekey.Repr()
      ensures rekey.Valid() && fresh(rekey.Repr() - old(rekey.Repr()))
      ensures (reply, rekey.Model()) == if header == NonceBytes(d.number, d.epoch)
                                        then UdpServerTurn(rekey.suite, old(rekey.Model()), d, seed) else (None, old(rekey.Model()))
    {
      hide OpenUdp, NonceBytes, UdpServerHandles, ServerRekeyCoordinator.Valid, ServerRekeyCoordinator.Model, ServerRekeyCoordinator.Repr;
      var text := DecryptDatagram(header, d);
      if text.None? {
        RefusedUnchanged(old(rekey.Model()).ep, d, TcpFrame(0, 0, [], Data([])));
        return None;
      }
      ghost var r := rekey.Repr();
      label Then:
      reply := HandleDecrypted(Parcel(d.epoch, text.value), seed);
      assert allocated(rekey.Repr());
      forall o | o in rekey.Repr() - r ensures fresh(o) { assert fresh@Then(o); }
      GrowsFresh(old(rekey.Repr()), r, rekey.Repr());
    }

    /** Sends what the handler left, and activates a new epoch only once its ack is out. */
    method Reply(task: Task) returns (open: bool, reply: Option<TcpFrame>)
      requires rekey.Valid() && rekey.controller.manager.TcpManager?
      modifies rekey.Repr()
      ensures rekey.Valid() && fresh(rekey.Repr() - old(rekey.Repr()))
      ensures (open, reply, rekey.Model()) == TcpServerReplies(old(rekey.Model()), task)
    {
      hide SealTcp, C.ServerActivate, ServerRekeyCoordinator.Valid, ServerRekeyCoordinator.Model, ServerRekeyCoordinator.Repr;
      if !task.Replying? {
        return true, None;
      }
      reply := SendFrame(task.reply);
      if reply.None? {
        RefusedUnchanged(old(rekey.Model()).ep, Datagram(0, 0, [], Data([])), TcpFrame(0, 0, [], task.reply));
        return task.reply == Service(Pong, []), None;
      }
      if task.epoch.Some? {
        ghost var r := rekey.Repr();
        label Then:
        rekey.ActivateSendEpoch(task.epoch.value);
        assert allocated(rekey.Repr());
        forall o | o in rekey.Repr() - r ensures fresh(o) { assert fresh@Then(o); }
        GrowsFresh(old(rekey.Repr()), r, rekey.Repr());
      }
      open := true;
    }

    method ServeFrame(parcel: Parcel, seed: Seed) returns (open: bool, reply: Option<TcpFrame>)
      requires rekey.Valid() && rekey.controller.manager.TcpManager?
      modifies rekey.Repr()
      ensures rekey.Valid() && fresh(rekey.Repr() - old(rekey.Repr()))
      ensures var (task, s) := ServerService(rekey.suite, old(rekey.Model()), parcel, seed);
              (open, reply, rekey.Model()) == TcpServerReplies(s, task)
    {
      hide TcpServerReplies, ServerService, ServerRekeyCoordinator.Valid, ServerRekeyCoordinator.Model, ServerRekeyCoordinator.Repr;
      var task := HandleService(parcel, seed);
      ghost var r := rekey.Repr();
      label Then:
      open, reply := Reply(task);
      assert allocated(rekey.Repr());
      forall o | o in rekey.Repr() - r ensures fresh(o) { assert fresh@Then(o); }
      GrowsFresh(old(rekey.Repr()), r, rekey.Repr());
    }

    /** Observe, and only then look at the frame. */
    method HandleDecryptedFrame(parcel: Parcel, seed: Seed) returns (open: bool, reply: Option<TcpFrame>)
      requires rekey.Valid() && rekey.controller.manager.TcpManager?
      modifies rekey.Repr()
      ensures rekey.Valid() && fresh(rekey.Repr() - old(rekey.Repr()))
      ensures (open, reply, rekey.Model()) == TcpServerHandles(rekey.suite, old(rekey.Model()), parcel, seed)
    {
      hide C.ServerObserve, TcpServerReplies, ServerService,
           ServerRekeyCoordinator.Valid, ServerRekeyCoordinator.Model, ServerRekeyCoordinator.Repr;
      rekey.ObservePeerEpoch(parcel.epoch);
      ghost var r := rekey.Repr();
      label Then:
      open, reply := ServeFrame(parcel, seed);
      assert allocated(rekey.Repr());
      forall o | o in rekey.Repr() - r ensures fresh(o) { assert fresh@Then(o); }
      GrowsFresh(old(rekey.Repr()), r, rekey.Repr());
    }

    /** The TCP server's turn; false closes the connection. A frame too short for its prefix is skipped. */
    method HandleFrame(prefix: Bytes, f: TcpFrame, seed: Seed) returns (open: bool, reply: Option<TcpFrame>)
      requires rekey.Valid() && rekey.controller.manager.TcpManager? && f.number <= LAST_COUNTER
      modifies rekey.Repr()
      ensures rekey.Valid() && fresh(rekey.Repr() - old(rekey.Repr()))
      ensures (open, reply, rekey.Model()) == if |prefix| != 2 then (true, None, old(rekey.Model()))
                                              else if Decoded(prefix) == f.epoch
                                              then TcpServerTurn(rekey.suite, old(rekey.Model()), f, seed)
                                              else (false, None, old(rekey.Model()))
    {
      hide OpenTcp, Decoded, TcpServerHandles, ServerRekeyCoordinator.Valid, ServerRekeyCoordinator.Model, ServerRekeyCoordinator.Repr;
      if |prefix| != 2 {
        return true, None;
      }
      var text := DecryptFrame(prefix, f);
      if text.None? {
        RefusedUnchanged(old(rekey.Model()).ep, Datagram(0, 0, [], Data([])), f);
        return false, None;
      }
      ghost var r := rekey.Repr();
      label Then:
      open, reply := HandleDecryptedFrame(Parcel(f.epoch, text.value), seed);
      assert allocated(rekey.Repr());
      forall o | o in rekey.Repr() - r ensures fresh(o) { assert fresh@Then(o); }
      GrowsFresh(old(rekey.Repr()), r, rekey.Repr());
    }
  }

  /** The client's side of a connection: its crypto, behind its rekey coordinator. */
  class Transport {
    const rekey: ClientRekeyCoordinator

    constructor (rekey: ClientRekeyCoordinator)
      ensures this.rekey == rekey
    {
      this.rekey := rekey;
    }

    method DecryptDatagram(header: Bytes, d: Datagram) returns (text: Option<Plaintext>)
      requires rekey.Valid() && rekey.controller.manager.UdpManager? && d.number <= LAST_COUNTER
      modifies rekey.Repr()
      ensures rekey.Valid() && fresh(rekey.Repr() - old(rekey.Repr()))
      ensures (text, rekey.Model()) == 
              (OpenWith(old(rekey.Model()).ep, header, d).0, old(rekey.Model()).(ep := OpenWith(old(rekey.Model()).ep, header, d).1))
    {
      hide OpenWith, StateMachine.Valid, StateMachine.End;
      text := OpenDatagram(rekey.controller, header, d);
    }

    method SendDatagram(text: Plaintext) returns (d: Option<Datagram>)
      requires rekey.Valid() && rekey.controller.manager.UdpManager?
      modifies rekey.Repr()
      ensures rekey.Valid() && fresh(rekey.Repr() - old(rekey.Repr()))
      ensures (d, rekey.Model()) == (SealUdp(old(rekey.Model()).ep, text).0, old(rekey.Model()).(ep := SealUdp(old(rekey.Model()).ep, text).1))
    {
      hide SealUdp, StateMachine.Valid, StateMachine.End;
      d := SealDatagram(rekey.controller, text);
    }

    method DecryptFrame(prefix: Bytes, f: TcpFrame) returns (text: Option<Plaintext>)
      requires rekey.Valid() && rekey.controller.manager.TcpManager? && f.number <= LAST_COUNTER
      modifies rekey.Repr()
      ensures rekey.Valid() && fresh(rekey.Repr() - old(rekey.Repr()))
      ensures (text, rekey.Model()) == 
              (OpenBehind(old(rekey.Model()).ep, prefix, f).0, old(rekey.Model()).(ep := OpenBehind(old(rekey.Model()).ep, prefix, f).1))
    {
      hide OpenBehind, StateMachine.Valid, StateMachine.End;
      text := OpenFrame(rekey.controller, prefix, f);
    }

    /** Service packets for the client; false means reconnect. */
    method HandleControlplane(parcel: Parcel) returns (open: bool)
      requires rekey.Valid()
      modifies rekey.Repr()
      ensures rekey.Valid() && fresh(rekey.Repr() - old(rekey.Repr()))
      ensures (open, rekey.Model()) == ClientService(rekey.suite, old(rekey.Model()), parcel)
    {
      hide C.HandleAck, ClientRekeyCoordinator.Valid, ClientRekeyCoordinator.Model;
      if IsReconnect(parcel.text) {
        return false;
      }
      open := true;
      if IsAck(parcel.text) {
        var r := rekey.HandleRekeyAck(parcel.epoch, parcel.text);
        open := r != Err(EpochExhausted);
      }
    }

    method ActivateAndHandle(parcel: Parcel) returns (open: bool)
      requires rekey.Valid()
      modifies rekey.Repr()
      ensures rekey.Valid() && fresh(rekey.Repr() - old(rekey.Repr()))
      ensures (open, rekey.Model()) == ClientService(rekey.suite, C.ClientActivate(old(rekey.Model()), parcel.epoch), parcel)
    {
      hide C.ClientActivate, ClientService, ClientRekeyCoordinator.Valid, ClientRekeyCoordinator.Model, ClientRekeyCoordinator.Repr;
      rekey.ActivateSendEpoch(parcel.epoch);
      ghost var r := rekey.Repr();
      label Then:
      open := HandleControlplane(parcel);
      assert allocated(rekey.Repr());
      forall o | o in rekey.Repr() - r ensures fresh(o) { assert fresh@Then(o); }
      GrowsFresh(old(rekey.Repr()), r, rekey.Repr());
    }

    method HandleDecrypted(parcel: Parcel) returns (open: bool)
      requires rekey.Valid()
      modifies rekey.Repr()
      ensures rekey.Valid() && fresh(rekey.Repr() - old(rekey.Repr()))
      ensures (open, rekey.Model()) ==
              ClientService(rekey.suite, C.ClientActivate(C.ClientObserve(old(rekey.Model()), parcel.epoch), parcel.epoch), parcel)
    {
      hide C.ClientObserve, C.ClientActivate, ClientService,
           ClientRekeyCoordinator.Valid, ClientRekeyCoordinator.Model, ClientRekeyCoordinator.Repr;
      rekey.ObservePeerEpoch(parcel.epoch);
      ghost var r := rekey.Repr();
      label Then:
      open := ActivateAndHandle(parcel);
      assert allocated(rekey.Repr());
      forall o | o in rekey.Repr() - r ensures fresh(o) { assert fresh@Then(o); }
      GrowsFresh(old(rekey.Repr()), r, rekey.Repr());
    }

    /** The UDP client's turn; a datagram that does not open is dropped. */
    method HandleDatagram(header: Bytes, d: Datagram) returns (open: bool)
      requires rekey.Valid() && rekey.controller.manager.UdpManager? && d.number <= LAST_COUNTER
      modifies rekey.Repr()
      ensures rekey.Valid() && fresh(rekey.Repr() - old(rekey.Repr()))
      ensures (open, rekey.Model()) == if header == NonceBytes(d.number, d.epoch)
                                       then UdpClientTurn(rekey.suite, old(rekey.Model()), d) else (true, old(rekey.Model()))
    {
      hide OpenUdp, NonceBytes, C.ClientObserve, C.ClientActivate, ClientService,
           ClientRekeyCoordinator.Valid, ClientRekeyCoordinator.Model, ClientRekeyCoordinator.Repr;
      var text := DecryptDatagram(header, d);
      if text.None? {
        RefusedUnchanged(old(rekey.Model()).ep, d, TcpFrame(0, 0, [], Data([])));
        return true;
      }
      ghost var r := rekey.Repr();
      label Then:
      open := HandleDecrypted(Parcel(d.epoch, text.value));
      assert allocated(rekey.Repr());
      forall o | o in rekey.Repr() - r ensures fresh(o) { assert fresh@Then(o); }
      GrowsFresh(old(rekey.Repr()), r, rekey.Repr());
    }

    method ObserveAndHandle(parcel: Parcel) returns (open: bool)
      requires rekey.Valid()
      modifies rekey.Repr()
      ensures rekey.Valid() && fresh(rekey.Repr() - old(rekey.Repr()))
      ensures (open, rekey.Model()) == ClientService(rekey.suite, C.ClientObserve(old(rekey.Model()), parcel.epoch), parcel)
    {
      hide C.ClientObserve, ClientService, ClientRekeyCoordinator.Valid, ClientRekeyCoordinator.Model, ClientRekeyCoordinator.Repr;
      rekey.ObservePeerEpoch(parcel.epoch);
      ghost var r := rekey.Repr();
      label Then:
      open := HandleControlplane(parcel);
      assert allocated(rekey.Repr());
      forall o | o in rekey.Repr() - r ensures fresh(o) { assert fresh@Then(o); }
      GrowsFresh(old(rekey.Repr()), r, rekey.Repr());
    }

    /** The TCP client's turn; a frame that does not open ends the connection, one too short for its prefix is skipped. */
    method HandleFrame(prefix: Bytes, f: TcpFrame) returns (open: bool)
      requires rekey.Valid() && rekey.controller.manager.TcpManager? && f.number <= LAST_COUNTER
      modifies rekey.Repr()
      ensures rekey.Valid() && fresh(rekey.Repr() - old(rekey.Repr()))
      ensures (open, rekey.Model()) == if |prefix| != 2 then (true, old(rekey.Model()))
                                       else if Decoded(prefix) == f.epoch
                                       then TcpClientTurn(rekey.suite, old(rekey.Model()), f) else (false, old(rekey.Model()))
    {
      hide OpenTcp, Decoded, C.ClientObserve, ClientService,
           ClientRekeyCoordinator.Valid, ClientRekeyCoordinator.Model, ClientRekeyCoordinator.Repr;
      if |prefix| != 2 {
        return true;
      }
      var text := DecryptFrame(prefix, f);
      if text.None? {
        RefusedUnchanged(old(rekey.Model()).ep, Datagram(0, 0, [], Data([])), f);
        return false;
      }
      ghost var r := rekey.Repr();
      label Then:
      open := ObserveAndHandle(Parcel(f.epoch, text.value));
      assert allocated(rekey.Repr());
      forall o | o in rekey.Repr() - r ensures fresh(o) { assert fresh@Then(o); }
      GrowsFresh(old(rekey.Repr()), r, rekey.Repr());
    }

    method SendDueInit(now: int, draw: Option<Seed>, room: nat) returns (init: Option<Datagram>)
      requires rekey.Valid() && rekey.controller.manager.UdpManager?
      modifies rekey.Repr()
      ensures rekey.Valid() && fresh(rekey.Repr() - old(rekey.Repr()))
      ensures var (r, c) := C.MaybeBuildInit(rekey.suite, old(rekey.Model()), now, draw, room);
              if r.Ok? && r.value.Some?
              then (init, rekey.Model()) == (SealUdp(c.ep, r.value.value).0, c.(ep := SealUdp(c.ep, r.value.value).1))
              else (init, rekey.Model()) == (None, c)
    {
      hide SealUdp, C.MaybeBuildInit, ClientRekeyCoordinator.Valid, ClientRekeyCoordinator.Model;
      var built := rekey.MaybeBuildRekeyInit(now, draw, room);
      init := None;
      if built.Ok? && built.value.Some? {
        init := SendDatagram(built.value.value);
      }
    }

    /** The UDP client's TUN turn. */
    method HandleTun(text: Plaintext, now: int, draw: Option<Seed>, room: nat)
      returns (packet: Option<Datagram>, init: Option<Datagram>)
      requires rekey.Valid() && rekey.controller.manager.UdpManager?
      modifies rekey.Repr()
      ensures rekey.Valid() && fresh(rekey.Repr() - old(rekey.Repr()))
      ensures (packet, init, rekey.Model()) == UdpTunTurn(rekey.suite, old(rekey.Model()), text, now, draw, room)
    {
      hide SealUdp, C.MaybeBuildInit,
           ClientRekeyCoordinator.Valid, ClientRekeyCoordinator.Model, ClientRekeyCoordinator.Repr;
      packet := SendDatagram(text);
      ghost var r := rekey.Repr();
      label Then:
      init := SendDueInit(now, draw, room);
      assert allocated(rekey.Repr());
      forall o | o in rekey.Repr() - r ensures fresh(o) { assert fresh@Then(o); }
      GrowsFresh(old(rekey.Repr()), r, rekey.Repr());
    }
  }
}
