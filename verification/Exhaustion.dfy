/**
 * What the server says to a service packet, and how a session ends once its epochs are used up:
 * the server's notice, over either transport, and the client that reconnects on it.
 */
module Exhaustion {
  import opened Basics
  import opened Coordinators
  import opened Epochs
  import opened Exchange
  import opened PacketLoops
  import opened Transcripts
  import TA = TcpAnswers
  import TE = TcpEndpoints
  import TK = TcpKeys
  import T = TcpProtocol
  import TT = TcpTheorems
  import U = UdpProtocol
  import UE = UdpEndpoints
  import UN = UdpNumbers
  import US = UdpSettles

  // ---- the server's answer ----

  function Notice(): (result: Plaintext) { Service(ExhaustedNotice, []) }

  /** A well-formed init of the session's version. */
  predicate Asks(suite: Suite, text: Plaintext)
  {
    match suite
    case V1(_, _, _) => text.Service? && text.kind == RekeyInit && |text.body| == 32
    case V2(_, _, _, _) => text.Service? && text.kind == RekeyInitV2 && text.body != []
  }

  /** A request the server would open a transaction for, had it an epoch left to stage. */
  predicate WouldOpen(suite: Suite, s: Server, p: Parcel, seed: Seed)
  {
    && Asks(suite, p.text)
    && (s.transaction.Some? ==>
          var t := s.transaction.value;
          t.request != p.text && t.sendActivated && t.peerObserved && t.epoch == p.epoch)
    && s.ep.machine.phase == Idle
    && var answer := Respond(suite, seed, s.ep.machine.current, p.text.body);
       answer.Some? && FullSize(answer.value.keys)
  }

  /** A request the server has answered under the same epoch, and whose epoch is not yet confirmed both ways. */
  predicate Repeats(suite: Suite, s: Server, p: Parcel)
  {
    && Asks(suite, p.text) && s.transaction.Some?
    && var t := s.transaction.value;
       t.request == p.text && t.carrier == p.epoch && !(t.sendActivated && t.peerObserved)
  }

  /** An end of either transport, as every run leaves it. */
  ghost predicate Kept(ep: Endpoint, ks: seq<KeyPair>, isServer: bool)
  {
    UE.Shaped(ep, ks, isServer) || TE.TcpShaped(ep, ks, isServer)
  }

  /** The remembered response is an ack of the session's version. */
  predicate Remembers(suite: Suite, s: Server)
  {
    s.transaction.Some? ==> s.transaction.value.response.Service? && s.transaction.value.response.kind == AckKind(suite)
  }

  lemma StartsBelowLimit(ep: Endpoint, ks: seq<KeyPair>, keys: KeyPair)
    requires Kept(ep, ks, true) && ep.machine.phase == Idle && FullSize(keys)
    ensures Allocated(ep) <= MAX_EPOCH
    ensures var r := StartRekey(ep, keys).0;
            r == if Allocated(ep) == MAX_EPOCH then Err(EpochExhausted) else Ok(Allocated(ep) + 1)
  {
    hide StartRekey, UE.RingOf, TE.SessionsOf;
    if UE.Shaped(ep, ks, true) {
      UE.StartShaped(ep, ks, true, keys);
      UE.ShapedFacts(ep, ks, true);
    } else {
      TE.TcpStartShaped(ep, ks, true, keys);
      TE.TcpShapedFacts(ep, ks, true);
      TcpExhausted(ep, ks, keys);
    }
  }

  lemma TcpExhausted(ep: Endpoint, ks: seq<KeyPair>, keys: KeyPair)
    requires TE.TcpShaped(ep, ks, true) && ep.machine.phase == Idle && FullSize(keys)
    ensures Allocated(ep) == MAX_EPOCH ==> StartRekey(ep, keys).0 == Err(EpochExhausted)
  {
  }

  /**
   * What the server does with a packet: the notice for a request it would open but has no epoch
   * for, a new answer while it has one, the same answer to a repeat, a pong to a ping, and
   * nothing to anything else. Only a new answer changes it.
   */
  lemma RepliesExactly(suite: Suite, s: Server, ks: seq<KeyPair>, p: Parcel, seed: Seed)
    requires Kept(s.ep, ks, true) && Remembers(suite, s)
    ensures var (task, s') := ServerService(suite, s, p, seed);
            var last := Allocated(s.ep) == MAX_EPOCH;
            && (task == Replying(Notice(), None) <==> WouldOpen(suite, s, p, seed) && last)
            && (task == Replying(Service(Pong, []), None) <==> p.text.Service? && p.text.kind == Ping)
            && (WouldOpen(suite, s, p, seed) && !last ==>
                  var answer := Respond(suite, seed, s.ep.machine.current, p.text.body).value;
                  && task == Replying(Service(AckKind(suite), answer.body), Some(Allocated(s.ep) + 1))
                  && s'.ep == StartRekey(s.ep, answer.keys).1
                  && s'.transaction == Some(Transaction(p.text, task.reply, p.epoch, Allocated(s.ep) + 1, false, false)))
            && (Repeats(suite, s, p) ==> task == Replying(s.transaction.value.response, Some(s.transaction.value.epoch)))
            && (task == Ready <==> !WouldOpen(suite, s, p, seed) && !Repeats(suite, s, p) && !(p.text.Service? && p.text.kind == Ping))
            && (s' != s ==> WouldOpen(suite, s, p, seed) && !last)
            && Remembers(suite, s') && (task.Replying? && task.epoch.Some? ==> IsAck(task.reply))
  {
    hide Kept, StartRekey, Respond;
    RequestAsks(suite, p.text);
    if Asks(suite, p.text) {
      var answer := Respond(suite, seed, s.ep.machine.current, p.text.body);
      if answer.Some? && FullSize(answer.value.keys) && s.ep.machine.phase == Idle {
        StartsBelowLimit(s.ep, ks, answer.value.keys);
      } else if answer.Some? {
        StartRefused(s.ep, answer.value.keys);
      }
    }
  }

  lemma RequestAsks(suite: Suite, text: Plaintext)
    ensures Asks(suite, text) <==> IsRequest(suite, text)
  {
  }

  lemma StartRefused(ep: Endpoint, keys: KeyPair)
    requires !FullSize(keys) || ep.machine.phase != Idle
    ensures StartRekey(ep, keys).0.Err? && StartRekey(ep, keys).0 != Err(EpochExhausted) && StartRekey(ep, keys).1 == ep
  {
  }

  // ---- the client's end ----

  /** The control plane ends the connection on the notice, and on nothing else before the last epoch. */
  lemma LeavesOnly(suite: Suite, c: Client, p: Parcel)
    ensures var (open, c') := ClientService(suite, c, p);
            && (p.text.Service? && p.text.kind == ExhaustedNotice ==> !open && c' == c)
            && (!open ==> (p.text.Service? && p.text.kind == ExhaustedNotice) || Allocated(c.ep) >= MAX_EPOCH)
  {
    hide Finish, ActivateSend;
    if IsAnswer(suite, c, p.epoch, p.text) {
      var q := c.pending.value;
      var keys := Finish(suite, q.seed, q.startKeys, c.ep.machine.current, p.text.body);
      if keys.Some? { ExhaustedAtLast(c.ep, keys.value); }
    }
  }

  lemma ExhaustedAtLast(ep: Endpoint, keys: KeyPair)
    ensures StartRekey(ep, keys).0 == Err(EpochExhausted) ==> Allocated(ep) >= MAX_EPOCH
  {
  }

  lemma PhasesAllocate(ep: Endpoint, epoch: uint16)
    ensures Allocated(ObservePeer(ep, epoch)) == Allocated(ep) && Allocated(ActivateSend(ep, epoch)) == Allocated(ep)
  {
  }

  lemma UdpOpenAllocates(ep: Endpoint, d: Datagram)
    ensures Allocated(OpenUdp(ep, d).1) == Allocated(ep) && OpenUdp(ep, d).1.machine == ep.machine
    ensures OpenUdp(ep, d).0.Some? ==> OpenUdp(ep, d).0.value == d.text
  {
  }

  lemma TcpOpenAllocates(ep: Endpoint, f: TcpFrame)
    ensures Allocated(OpenTcp(ep, f).1) == Allocated(ep) && OpenTcp(ep, f).1.machine == ep.machine
    ensures OpenTcp(ep, f).0.Some? ==> OpenTcp(ep, f).0.value == f.text
  {
  }

  /** One datagram at a client in any state: an authentic notice makes it reconnect; nothing else does while it has epochs left. */
  lemma UdpClientLeaves(suite: Suite, c: Client, d: Datagram)
    ensures var open, told := UdpClientTurn(suite, c, d).0,
                              OpenUdp(c.ep, d).0.Some? && d.text.Service? && d.text.kind == ExhaustedNotice;
            && (told ==> !open)
            && (!open ==> told || (OpenUdp(c.ep, d).0.Some? && Allocated(c.ep) >= MAX_EPOCH))
  {
    hide OpenUdp, ObservePeer, ActivateSend, ClientService;
    UdpOpenAllocates(c.ep, d);
    var ep := OpenUdp(c.ep, d).1;
    PhasesAllocate(ep, d.epoch);
    PhasesAllocate(ObservePeer(ep, d.epoch), d.epoch);
    LeavesOnly(suite, ClientActivate(ClientObserve(c.(ep := ep), d.epoch), d.epoch), Parcel(d.epoch, d.text));
  }

  /** One frame at a client in any state; over TCP a frame that does not open ends the connection too. */
  lemma TcpClientLeaves(suite: Suite, c: Client, f: TcpFrame)
    ensures var open, opens := TcpClientTurn(suite, c, f).0, OpenTcp(c.ep, f).0.Some?;
            var told := opens && f.text.Service? && f.text.kind == ExhaustedNotice;
            && (told || !opens ==> !open)
            && (!open ==> told || !opens || Allocated(c.ep) >= MAX_EPOCH)
  {
    hide OpenTcp, ObservePeer, ClientService;
    TcpOpenAllocates(c.ep, f);
    var ep := OpenTcp(c.ep, f).1;
    PhasesAllocate(ep, f.epoch);
    LeavesOnly(suite, ClientObserve(c.(ep := ep), f.epoch), Parcel(f.epoch, f.text));
  }

  // ---- every UDP run ----

  /** The server once it has opened a datagram, observed its epoch and activated it. */
  function UdpHeard(s: Server, d: Datagram): (result: Server)
  {
    ServerActivate(ServerObserve(s.(ep := OpenUdp(s.ep, d).1), d.epoch), d.epoch)
  }

  lemma UdpHeardKept(suite: Suite, sys: U.System, d: Datagram)
    requires U.Inv(suite, sys)
    ensures Kept(UdpHeard(sys.server, d).ep, sys.log.serverKeys, true) && Remembers(suite, UdpHeard(sys.server, d))
    ensures Allocated(UdpHeard(sys.server, d).ep) == Allocated(sys.server.ep)
  {
    hide U.Inv, UE.Shaped, OpenUdp, ObservePeer, ActivateSend;
    UdpServerFacts(suite, sys);
    var ks, ep := sys.log.serverKeys, OpenUdp(sys.server.ep, d).1;
    UE.OpenShaped(sys.server.ep, ks, true, d);
    UE.ObserveShaped(ep, ks, true, d.epoch);
    UE.ActivateShaped(ObservePeer(ep, d.epoch), ks, true, d.epoch);
    UE.ShapedFacts(sys.server.ep, ks, true);
    UE.ShapedFacts(UdpHeard(sys.server, d).ep, ks, true);
  }

  lemma UdpServerFacts(suite: Suite, sys: U.System)
    requires U.Inv(suite, sys)
    ensures UE.Shaped(sys.server.ep, sys.log.serverKeys, true) && Remembers(suite, sys.server)
  {
    hide UE.Shaped, U.Frames, U.Tasks;
    var n := Newest(sys.log);
    if n > 0 {
      assert Answers(suite, sys.log.answers[n - 1], n - 1, sys.log.exchanges[n - 1], sys.log.serverKeys[n - 1], sys.log.serverKeys[n]);
    }
  }

  /**
   * In every UDP run the server's reply to a datagram is the notice exactly when the datagram opens
   * to a request it would open a transaction for and the last epoch is allocated, and the reply can
   * still be numbered.
   */
  lemma {:induction false} UdpNotice(suite: Suite, keys: KeyPair, interval: nat, steps: seq<U.Step>, sys: U.System,
                                     d: Datagram, seed: Seed)
    requires Lawful(suite) && sys == U.Run(suite, keys, interval, steps)
    ensures var out := UdpServerTurn(suite, sys.server, d, seed).0;
            out.Some? && out.value.text == Notice() <==>
              && OpenUdp(sys.server.ep, d).0.Some?
              && WouldOpen(suite, UdpHeard(sys.server, d), Parcel(d.epoch, d.text), seed)
              && Allocated(sys.server.ep) == MAX_EPOCH
              && SealUdp(UdpHeard(sys.server, d).ep, Notice()).0.Some?
  {
    hide U.Run, U.Inv, Lawful, OpenUdp, SealUdp, UdpHeard, WouldOpen, ServerService, Kept;
    U.RunInv(suite, keys, interval, steps);
    UdpHeardKept(suite, sys, d);
    UdpOpenAllocates(sys.server.ep, d);
    var heard, p := UdpHeard(sys.server, d), Parcel(d.epoch, d.text);
    UdpTurnSplits(suite, sys.server, d, seed);
    RepliesExactly(suite, heard, sys.log.serverKeys, p, seed);
    var (task, s') := ServerService(suite, heard, p, seed);
    if task.Replying? { SealsText(s'.ep, task.reply); }
    NoticeOnly(suite, heard, p, seed);
  }

  lemma UdpTurnSplits(suite: Suite, s: Server, d: Datagram, seed: Seed)
    ensures OpenUdp(s.ep, d).0.None? ==> UdpServerTurn(suite, s, d, seed).0 == None
    ensures OpenUdp(s.ep, d).0.Some? ==>
              var (task, s') := ServerService(suite, UdpHeard(s, d), Parcel(d.epoch, d.text), seed);
              UdpServerTurn(suite, s, d, seed).0 == if task.Replying? then SealUdp(s'.ep, task.reply).0 else None
  {
    hide OpenUdp, SealUdp, ServerService, ServerObserve, ServerActivate;
    UdpOpenAllocates(s.ep, d);
  }

  lemma SealsText(ep: Endpoint, text: Plaintext)
    ensures SealUdp(ep, text).0.Some? ==> SealUdp(ep, text).0.value.text == text
    ensures SealTcp(ep, text).0.Some? ==> SealTcp(ep, text).0.value.text == text
  {
  }

  /** A reply with the notice's text is the notice, and leaves the server as it was. */
  lemma NoticeOnly(suite: Suite, s: Server, p: Parcel, seed: Seed)
    requires Remembers(suite, s)
    ensures var (task, s') := ServerService(suite, s, p, seed);
            task.Replying? && task.reply == Notice() ==> task == Replying(Notice(), None) && s' == s
  {
    hide StartRekey, Respond;
    StartErrKeeps(suite, s, p, seed);
  }

  lemma StartErrKeeps(suite: Suite, s: Server, p: Parcel, seed: Seed)
    ensures Handle(suite, s, p.epoch, p.text, seed).0.Err? ==> Handle(suite, s, p.epoch, p.text, seed).1 == s
  {
    hide StartRekey, Respond;
  }

  /** In every UDP run a connected client reconnects on an authentic notice and on no other datagram. */
  lemma {:induction false} UdpReconnects(suite: Suite, keys: KeyPair, interval: nat, steps: seq<U.Step>, sys: U.System, d: Datagram)
    requires Lawful(suite) && sys == U.Run(suite, keys, interval, steps)
    requires sys.open && sys.clientTask == Ready && d in sys.down
    ensures UdpClientTurn(suite, sys.client, d).0 <==>
            !(OpenUdp(sys.client.ep, d).0.Some? && d.text.Service? && d.text.kind == ExhaustedNotice)
  {
    hide U.Run, U.Inv, Lawful, OpenUdp, ObservePeer, ActivateSend, HandleAck, U.Next;
    UdpOpenAllocates(sys.client.ep, d);
    if OpenUdp(sys.client.ep, d).0.Some? && IsAck(d.text) {
      U.RunInv(suite, keys, interval, steps);
      UdpAckHeard(suite, sys, d);
    }
  }

  /** An ack the client has just opened, observed and activated is not refused. */
  lemma UdpAckHeard(suite: Suite, sys: U.System, d: Datagram)
    requires Lawful(suite) && U.Inv(suite, sys) && sys.open && sys.clientTask == Ready && d in sys.down
    requires OpenUdp(sys.client.ep, d).0.Some? && IsAck(d.text)
    ensures var ep := OpenUdp(sys.client.ep, d).1;
            HandleAck(suite, ClientActivate(ClientObserve(sys.client.(ep := ep), d.epoch), d.epoch), d.epoch, d.text).0.Ok?
  {
    hide U.Inv, Lawful, OpenUdp, ObservePeer, ActivateSend, HandleAck, Record;
    UdpOpenAllocates(sys.client.ep, d);
    var p := Parcel(d.epoch, d.text);
    var sys1 := U.Next(suite, sys, U.ClientReceive(d));
    U.NextInv(suite, sys, U.ClientReceive(d));
    var sys2 := U.Next(suite, sys1, U.ClientAdvance);
    U.NextInv(suite, sys1, U.ClientAdvance);
    var sys3 := U.Next(suite, sys2, U.ClientAdvance);
    U.NextInv(suite, sys2, U.ClientAdvance);
    U.ClientAckInv(suite, sys3, p);
  }

  // ---- end to end over UDP ----

  /** At the last epoch a fresh request is answered with the notice, and the notice makes the client reconnect. */
  lemma {:induction false} UdpEnds(suite: Suite, keys: KeyPair, interval: nat, steps: seq<U.Step>, sys: U.System,
                                   d: Datagram, seed: Seed)
    requires Lawful(suite) && sys == U.Run(suite, keys, interval, steps) && US.Spare(sys, 5)
    requires sys.serverTask == Ready && d in sys.up && OpenUdp(sys.server.ep, d).0.Some?
    requires WouldOpen(suite, UdpHeard(sys.server, d), Parcel(d.epoch, d.text), seed) && Allocated(sys.server.ep) == MAX_EPOCH
    ensures var out := UdpServerTurn(suite, sys.server, d, seed).0;
            out.Some? && out.value.text == Notice() && !UdpClientTurn(suite, sys.client, out.value).0
  {
    hide U.Run, U.Inv, Lawful, OpenUdp, SealUdp, UdpHeard, WouldOpen, UN.Fresh, US.Spare, UdpServerTurn, UdpClientTurn;
    U.RunInv(suite, keys, interval, steps);
    UN.RunFresh(suite, keys, interval, steps);
    UdpNotice(suite, keys, interval, steps, sys, d, seed);
    var out := NoticeArrives(suite, sys, d, seed);
    UdpClientLeaves(suite, sys.client, out);
    SealsText(UdpHeard(sys.server, d).ep, Notice());
    NoticeTurn(suite, sys, d, seed);
  }

  lemma NoticeTurn(suite: Suite, sys: U.System, d: Datagram, seed: Seed)
    requires U.Inv(suite, sys) && OpenUdp(sys.server.ep, d).0.Some?
    requires WouldOpen(suite, UdpHeard(sys.server, d), Parcel(d.epoch, d.text), seed) && Allocated(sys.server.ep) == MAX_EPOCH
    ensures UdpServerTurn(suite, sys.server, d, seed).0 == SealUdp(UdpHeard(sys.server, d).ep, Notice()).0
    ensures ServerService(suite, UdpHeard(sys.server, d), Parcel(d.epoch, d.text), seed)
            == (Replying(Notice(), None), UdpHeard(sys.server, d))
  {
    hide U.Inv, OpenUdp, SealUdp, UdpHeard, WouldOpen, ServerService, Kept;
    UdpHeardKept(suite, sys, d);
    UdpTurnSplits(suite, sys.server, d, seed);
    RepliesExactly(suite, UdpHeard(sys.server, d), sys.log.serverKeys, Parcel(d.epoch, d.text), seed);
    NoticeOnly(suite, UdpHeard(sys.server, d), Parcel(d.epoch, d.text), seed);
  }

  /** The sealed notice opens at the client. */
  lemma NoticeArrives(suite: Suite, sys: U.System, d: Datagram, seed: Seed) returns (out: Datagram)
    requires Lawful(suite) && US.Good(suite, sys, 5)
    requires sys.serverTask == Ready && d in sys.up && OpenUdp(sys.server.ep, d).0.Some?
    requires WouldOpen(suite, UdpHeard(sys.server, d), Parcel(d.epoch, d.text), seed) && Allocated(sys.server.ep) == MAX_EPOCH
    ensures SealUdp(UdpHeard(sys.server, d).ep, Notice()).0 == Some(out) && out.text == Notice()
    ensures OpenUdp(sys.client.ep, out).0 == Some(Notice())
  {
    hide Lawful, US.Good, OpenUdp, SealUdp, ServerObserve, ServerActivate, WouldOpen, ServerService, Record;
    GoodInv(suite, sys, 5);
    UdpOpenAllocates(sys.server.ep, d);
    NoticeTurn(suite, sys, d, seed);
    var p := Parcel(d.epoch, d.text);
    var sys1 := U.Next(suite, sys, U.ServerReceive(d));
    US.NextGood(suite, sys, U.ServerReceive(d), 4);
    var sys2 := U.Next(suite, sys1, U.ServerAdvance(seed));
    US.NextGood(suite, sys1, U.ServerAdvance(seed), 3);
    var sys3 := U.Next(suite, sys2, U.ServerAdvance(seed));
    US.NextGood(suite, sys2, U.ServerAdvance(seed), 2);
    var sys4 := U.Next(suite, sys3, U.ServerAdvance(seed));
    US.NextGood(suite, sys3, U.ServerAdvance(seed), 1);
    assert sys3.server == UdpHeard(sys.server, d) && sys3.serverTask == Activated(p);
    assert sys4.server == sys3.server && sys4.client == sys.client;
    US.ServerSealedOpens(suite, sys4, Notice(), 1);
    out := SealUdp(sys4.server.ep, Notice()).0.value;
  }

  lemma GoodInv(suite: Suite, sys: U.System, n: nat)
    requires US.Good(suite, sys, n)
    ensures U.Inv(suite, sys)
  {
  }

  // ---- every TCP run ----

  /** The server once it has opened a frame and observed its epoch. */
  function TcpHeard(s: Server, f: TcpFrame): (result: Server)
  {
    ServerObserve(s.(ep := OpenTcp(s.ep, f).1), f.epoch)
  }

  lemma {:induction false} TcpHeardKept(suite: Suite, keys: KeyPair, interval: nat, steps: seq<T.Step>, sys: T.System, f: TcpFrame)
    requires sys == T.Run(suite, keys, interval, steps)
    ensures Kept(TcpHeard(sys.server, f).ep, sys.log.serverKeys, true) && Remembers(suite, TcpHeard(sys.server, f))
    ensures Allocated(TcpHeard(sys.server, f).ep) == Allocated(sys.server.ep)
  {
    hide T.Run, TE.TcpShaped, OpenTcp, ObservePeer, TK.Keyed;
    TK.RunKeys(suite, keys, interval, steps);
    TA.RunKnown(suite, keys, interval, steps);
    var ks, ep := sys.log.serverKeys, OpenTcp(sys.server.ep, f).1;
    TE.TcpOpenShaped(sys.server.ep, ks, true, f);
    TE.TcpObserveShaped(ep, ks, true, f.epoch);
    TE.TcpShapedFacts(sys.server.ep, ks, true);
    TE.TcpShapedFacts(TcpHeard(sys.server, f).ep, ks, true);
  }

  /** In every TCP run, mistakes or not, the reply is the notice in exactly the same case. */
  lemma {:induction false} TcpNotice(suite: Suite, keys: KeyPair, interval: nat, steps: seq<T.Step>, sys: T.System,
                                     f: TcpFrame, seed: Seed)
    requires sys == T.Run(suite, keys, interval, steps)
    ensures var (open, out, s') := TcpServerTurn(suite, sys.server, f, seed);
            out.Some? && out.value.text == Notice() <==>
              && OpenTcp(sys.server.ep, f).0.Some?
              && WouldOpen(suite, TcpHeard(sys.server, f), Parcel(f.epoch, f.text), seed)
              && Allocated(sys.server.ep) == MAX_EPOCH
              && SealTcp(TcpHeard(sys.server, f).ep, Notice()).0.Some?
  {
    hide T.Run, OpenTcp, SealTcp, TcpHeard, WouldOpen, ServerService, Kept;
    TcpHeardKept(suite, keys, interval, steps, sys, f);
    TcpOpenAllocates(sys.server.ep, f);
    var heard, p := TcpHeard(sys.server, f), Parcel(f.epoch, f.text);
    TcpTurnSplits(suite, sys.server, f, seed);
    RepliesExactly(suite, heard, sys.log.serverKeys, p, seed);
    var (task, s') := ServerService(suite, heard, p, seed);
    if task.Replying? { SealsText(s'.ep, task.reply); }
    NoticeOnly(suite, heard, p, seed);
  }

  lemma TcpTurnSplits(suite: Suite, s: Server, f: TcpFrame, seed: Seed)
    ensures OpenTcp(s.ep, f).0.None? ==> TcpServerTurn(suite, s, f, seed) == (false, None, s)
    ensures OpenTcp(s.ep, f).0.Some? ==>
              var (task, s') := ServerService(suite, TcpHeard(s, f), Parcel(f.epoch, f.text), seed);
              && TcpServerTurn(suite, s, f, seed).1 == (if task.Replying? then SealTcp(s'.ep, task.reply).0 else None)
              && (TcpServerTurn(suite, s, f, seed).0 <==>
                    !task.Replying? || SealTcp(s'.ep, task.reply).0.Some? || task.reply == Service(Pong, []))
  {
    hide OpenTcp, SealTcp, ServerService, ServerObserve, ServerActivate;
    TcpOpenAllocates(s.ep, f);
  }

  /** In every TCP run the server's turn ends the session exactly on a frame that does not open or a reply, not a pong, it cannot seal. */
  lemma {:induction false} TcpServerCloses(suite: Suite, keys: KeyPair, interval: nat, steps: seq<T.Step>, sys: T.System,
                                           f: TcpFrame, seed: Seed)
    requires sys == T.Run(suite, keys, interval, steps)
    ensures var heard, p := TcpHeard(sys.server, f), Parcel(f.epoch, f.text);
            var (task, s') := ServerService(suite, heard, p, seed);
            TcpServerTurn(suite, sys.server, f, seed).0 <==>
              && OpenTcp(sys.server.ep, f).0.Some?
              && (WouldOpen(suite, heard, p, seed) || Repeats(suite, heard, p) ==>
                    task.Replying? && SealTcp(s'.ep, task.reply).0.Some?)
  {
    hide T.Run, OpenTcp, SealTcp, TcpHeard, WouldOpen, Repeats, ServerService, Kept;
    TcpHeardKept(suite, keys, interval, steps, sys, f);
    TcpTurnSplits(suite, sys.server, f, seed);
    RepliesExactly(suite, TcpHeard(sys.server, f), sys.log.serverKeys, Parcel(f.epoch, f.text), seed);
    PingsAreNoRequests(suite, TcpHeard(sys.server, f), Parcel(f.epoch, f.text), seed);
  }

  lemma PingsAreNoRequests(suite: Suite, s: Server, p: Parcel, seed: Seed)
    ensures p.text.Service? && p.text.kind == Ping ==> !WouldOpen(suite, s, p, seed) && !Repeats(suite, s, p)
  {
  }

  /** In every faithful TCP run, a notice that is the client's next frame ends its connection. */
  lemma {:induction false} TcpEnds(suite: Suite, keys: KeyPair, interval: nat, steps: seq<T.Step>, sys: T.System)
    requires Lawful(suite) && T.Faithful(suite, keys, interval, steps) && sys == T.Run(suite, keys, interval, steps)
    requires sys.clientTask == Ready && sys.down.got < |sys.down.sent| && sys.down.sent[sys.down.got].text == Notice()
    ensures !TcpClientTurn(suite, sys.client, sys.down.sent[sys.down.got]).0
  {
    hide T.Run, T.Faithful, Lawful, OpenTcp, TcpClientTurn;
    TT.DownwardDelivery(suite, keys, interval, steps, sys);
    TcpClientLeaves(suite, sys.client, sys.down.sent[sys.down.got]);
  }
}
