/**
 * One client and one server over a reliable first-in-first-out stream: the packet loops as
 * steps, runs as sequences of steps, and what every run keeps in which no ack is mistaken.
 */
module TcpProtocol {
  import opened Basics
  import opened Coordinators
  import opened Epochs
  import opened Exchange
  import opened TcpChannels
  import opened TcpEndpoints
  import opened Transcripts

  /** acks holds the position on the stream of the first ack of each transaction. */
  datatype System = System(client: Client, clientTask: Task, built: Option<Plaintext>, clientOpen: bool,
                           server: Server, serverTask: Task, serverOpen: bool,
                           up: Channel, down: Channel, acks: seq<nat>, log: Log)

  /** One call of one loop; ClientAdvance and ServerAdvance make a packet loop's next call. */
  datatype Step =
    | ClientBuild(now: int, draw: Option<Seed>, room: nat)
    | ClientSendBuilt
    | ClientSend(text: Plaintext)
    | ClientReceive
    | ClientAdvance
    | ServerSend(text: Plaintext)
    | ServerReceive
    | ServerAdvance(seed: Seed)

  function Start(keys: KeyPair, interval: nat): (result: System)
  {
    System(Client(None, interval, interval, Endpoint(NewMachine(keys), Tcp(NewTcp(keys, false)))), Ready, None, true,
           Server(None, Endpoint(NewMachine(keys), Tcp(NewTcp(keys, true)))), Ready, true,
           Channel([], 0), Channel([], 0), [], Log([keys], [keys], [], []))
  }

  /** Seals and writes under one lock; false when the packet counter is used up. */
  function ClientTransmit(sys: System, text: Plaintext): (result: (bool, System))
  {
    match SealTcp(sys.client.ep, text)
    case (None, _) => (false, sys)
    case (Some(f), ep) => (true, sys.(client := sys.client.(ep := ep), up := Appended(sys.up, f)))
  }

  function ServerTransmit(sys: System, text: Plaintext): (result: (bool, System))
  {
    match SealTcp(sys.server.ep, text)
    case (None, _) => (false, sys)
    case (Some(f), ep) => (true, sys.(server := sys.server.(ep := ep), down := Appended(sys.down, f)))
  }

  /** A frame at the client: observe, then the control plane. */
  function AdvanceClient(suite: Suite, sys: System): (result: System)
  {
    match sys.clientTask
    case Opened(p) => sys.(client := ClientObserve(sys.client, p.epoch), clientTask := Observed(p))
    case Observed(p) =>
      var (open, c) := ClientService(suite, sys.client, p);
      sys.(client := c, clientTask := Ready, clientOpen := open)
    case _ => sys
  }

  /** A frame at the server: observe, handle, send the reply, and only then activate. */
  function AdvanceServer(suite: Suite, sys: System, seed: Seed): (result: System)
  {
    match sys.serverTask
    case Opened(p) => sys.(server := ServerObserve(sys.server, p.epoch), serverTask := Observed(p))
    case Observed(p) =>
      var (task, s) := ServerService(suite, sys.server, p, seed);
      sys.(server := s, serverTask := task)
    case Replying(reply, epoch) =>
      var (ok, sys') := ServerTransmit(sys, reply);
      if ok then sys'.(serverTask := if epoch.Some? then Promoting(epoch.value) else Ready)
      else if reply == Service(Pong, []) then sys.(serverTask := Ready)
      else sys.(serverOpen := false)
    case Promoting(epoch) => sys.(server := ServerActivate(sys.server, epoch), serverTask := Ready)
    case _ => sys
  }

  /** One step of the code; a step that cannot happen leaves everything as it is. */
  function Move(suite: Suite, sys: System, step: Step): (result: System)
  {
    match step
    case ClientBuild(now, draw, room) =>
      if !sys.clientOpen || sys.built.Some? then sys
      else
        var (r, c) := MaybeBuildInit(suite, sys.client, now, draw, room);
        sys.(client := c, built := if r.Ok? then r.value else None)
    case ClientSendBuilt =>
      if !sys.clientOpen || sys.built.None? then sys
      else ClientTransmit(sys.(built := None), sys.built.value).1
    case ClientSend(text) =>
      if !sys.clientOpen || !IsTraffic(text) then sys
      else
        var (ok, sys') := ClientTransmit(sys, text);
        if ok || text.Service? then sys' else sys.(clientOpen := false)
    case ClientReceive =>
      if !sys.clientOpen || sys.clientTask != Ready || sys.down.got >= |sys.down.sent| then sys
      else
        var f := sys.down.sent[sys.down.got];
        (match OpenTcp(sys.client.ep, f)
         case (None, _) => sys.(clientOpen := false)
         case (Some(text), ep) =>
           sys.(client := sys.client.(ep := ep), clientTask := Opened(Parcel(f.epoch, text)),
                down := sys.down.(got := sys.down.got + 1)))
    case ClientAdvance =>
      if !sys.clientOpen then sys else AdvanceClient(suite, sys)
    case ServerSend(text) =>
      if !sys.serverOpen || !text.Data? then sys
      else
        var (ok, sys') := ServerTransmit(sys, text);
        if ok then sys' else sys.(serverOpen := false)
    case ServerReceive =>
      if !sys.serverOpen || sys.serverTask != Ready || sys.up.got >= |sys.up.sent| then sys
      else
        var f := sys.up.sent[sys.up.got];
        (match OpenTcp(sys.server.ep, f)
         case (None, _) => sys.(serverOpen := false)
         case (Some(text), ep) =>
           sys.(server := sys.server.(ep := ep), serverTask := Opened(Parcel(f.epoch, text)),
                up := sys.up.(got := sys.up.got + 1)))
    case ServerAdvance(seed) =>
      if !sys.serverOpen then sys else AdvanceServer(suite, sys, seed)
  }

  /** Writes down installed keys, and where the first ack of a transaction went. */
  function Logged(sys: System, sys': System): (result: System)
  {
    sys'.(log := Record(sys.log, sys.client, sys'.client, sys.server, sys'.server),
          acks := if sys.serverTask.Replying? && sys'.serverTask.Promoting? && sys.server.ep.machine.phase == Staged
                  then sys.acks + [|sys.down.sent|] else sys.acks)
  }

  function Next(suite: Suite, sys: System, step: Step): (result: System)
  {
    Logged(sys, Move(suite, sys, step))
  }

  function Run(suite: Suite, keys: KeyPair, interval: nat, steps: seq<Step>): (result: System)
  {
    if steps == [] then Start(keys, interval)
    else Next(suite, Run(suite, keys, interval, steps[..|steps| - 1]), steps[|steps| - 1])
  }

  function ClientEpoch(sys: System): (result: uint16) { Current(sys.client.ep) }

  function ServerEpoch(sys: System): (result: uint16) { Current(sys.server.ep) }

  function ServerNewest(sys: System): (result: int) { Newest(sys.log) }

  // ---- which runs are faithful ----

  /** The parcel a packet loop has opened and not yet dealt with. */
  function Held(task: Task): (parcel: Option<Parcel>)
    ensures parcel.Some? ==> task == Opened(parcel.value) || task == Observed(parcel.value)
  {
    match task
    case Opened(p) => Some(p)
    case Observed(p) => Some(p)
    case _ => None
  }

  /** From an ack's body the client derives the keys the server holds for the epoch after the client's. */
  ghost predicate Fits(suite: Suite, sys: System, body: Bytes)
  {
    var c, e := sys.client, ClientEpoch(sys);
    && c.pending.Some? && e + 1 < |sys.log.serverKeys|
    && Finish(suite, c.pending.value.seed, c.pending.value.startKeys, c.ep.machine.current, body) == Some(sys.log.serverKeys[e + 1])
  }

  /** The client gives up its exchange for an ack that does not bring the server's next keys. */
  ghost predicate Mistakes(suite: Suite, sys: System, step: Step)
  {
    && step == ClientAdvance && sys.clientOpen
    && sys.clientTask.Observed?
    && var p := sys.clientTask.parcel;
       && IsAck(p.text)
       && HandleAck(suite, sys.client, p.epoch, p.text).1.pending != sys.client.pending
       && !Fits(suite, sys, p.text.body)
  }

  /** A run in which no ack is mistaken. */
  ghost predicate Faithful(suite: Suite, keys: KeyPair, interval: nat, steps: seq<Step>)
  {
    steps == [] ||
    var rest := steps[..|steps| - 1];
    Faithful(suite, keys, interval, rest) && !Mistakes(suite, Run(suite, keys, interval, rest), steps[|steps| - 1])
  }

  /** The client acts on an ack that is not the answer the server gave under that epoch. */
  ghost predicate Strays(suite: Suite, sys: System, step: Step)
  {
    && step == ClientAdvance && sys.clientOpen
    && sys.clientTask.Observed?
    && var p := sys.clientTask.parcel;
       && IsAck(p.text)
       && IsAnswer(suite, sys.client, p.epoch, p.text)
       && !AnswerOf(p.text, p.epoch, sys.log.answers)
  }

  /** A run in which the client acts on no ack but the answers to its exchanges. */
  ghost predicate Answered(suite: Suite, keys: KeyPair, interval: nat, steps: seq<Step>)
  {
    steps == [] ||
    var rest := steps[..|steps| - 1];
    Answered(suite, keys, interval, rest) && !Strays(suite, Run(suite, keys, interval, rest), steps[|steps| - 1])
  }

  // ---- the invariant ----

  ghost predicate EndsShaped(c: Client, s: Server, log: Log)
  {
    && TcpShaped(c.ep, log.clientKeys, false) && c.ep.machine.phase != Staged
    && TcpShaped(s.ep, log.serverKeys, true)
    && Current(c.ep) <= Newest(log) <= Current(c.ep) + 1
  }

  ghost predicate Observations(c: Client, s: Server, log: Log)
  {
    && c.ep.machine.maxObserved <= Current(c.ep) && c.ep.machine.maxObserved <= Current(s.ep)
    && s.ep.machine.maxObserved <= Current(c.ep)
    && (c.ep.machine.phase == Idle ==> c.ep.machine.maxObserved == Current(c.ep))
    && (s.ep.machine.phase == Idle ==> s.ep.machine.maxObserved == Newest(log))
    && (s.ep.machine.phase == Staged ==> s.ep.machine.maxObserved < Newest(log))
  }

  ghost predicate Streams(sys: System)
  {
    && Wired(sys.up, sys.log.clientKeys, false) && Wired(sys.down, sys.log.serverKeys, true)
    && InStep(sys.client.ep, sys.up, sys.down) && InStep(sys.server.ep, sys.down, sys.up)
  }

  ghost predicate UpFrames(suite: Suite, sent: seq<TcpFrame>, epoch: uint16, xs: seq<Pending>)
  {
    && AllAtMost(sent, epoch)
    && forall i :: 0 <= i < |sent| && IsInit(sent[i].text) ==> InitOf(suite, sent[i].text, sent[i].epoch, xs)
  }

  ghost predicate DownFrames(down: Channel, serverEpoch: uint16, clientEpoch: uint16)
  {
    && AllAtMost(down.sent, serverEpoch)
    && forall i :: 0 <= i < |down.sent| && i < down.got ==> down.sent[i].epoch <= clientEpoch
  }

  /** What is still to be read is under epochs the reader keeps a session for. */
  ghost predicate Unread(ch: Channel, floor: int)
  {
    forall i :: 0 <= ch.got <= i < |ch.sent| ==> ch.sent[i].epoch >= floor
  }

  function Floor(ep: Endpoint, newest: int): (result: int)
  {
    if ep.machine.phase == Idle then newest else newest - 1
  }

  ghost predicate BuiltInit(suite: Suite, built: Option<Plaintext>, c: Client, log: Log)
  {
    built.Some? ==>
      && InitOf(suite, built.value, Current(c.ep), log.exchanges)
      && (c.pending.Some? ==> built.value == InitPacket(suite, c.pending.value))
  }

  ghost predicate Frames(suite: Suite, sys: System)
  {
    && UpFrames(suite, sys.up.sent, ClientEpoch(sys), sys.log.exchanges)
    && DownFrames(sys.down, ServerEpoch(sys), ClientEpoch(sys))
    && Unread(sys.up, Floor(sys.server.ep, ServerNewest(sys)))
    && Unread(sys.down, Floor(sys.client.ep, ClientEpoch(sys)))
    && BuiltInit(suite, sys.built, sys.client, sys.log)
  }

  ghost predicate ClientTaskSound(task: Task, epoch: uint16, serverEpoch: uint16, down: Channel)
  {
    match task
    case Ready => true
    case Opened(p) => p.epoch <= epoch && p.epoch <= serverEpoch && Unread(down, p.epoch)
    case Observed(p) => p.epoch <= epoch && p.epoch <= serverEpoch && Unread(down, p.epoch)
    case _ => false
  }

  ghost predicate ServerTaskSound(suite: Suite, task: Task, s: Server, epoch: uint16, up: Channel, log: Log)
  {
    var n, staged := Newest(log), s.ep.machine.phase == Staged;
    match task
    case Ready => !staged
    case Opened(p) =>
      && !staged && p.epoch <= epoch && Unread(up, p.epoch)
      && (IsInit(p.text) ==> InitOf(suite, p.text, p.epoch, log.exchanges))
    case Observed(p) =>
      && !staged && p.epoch <= epoch && Unread(up, p.epoch)
      && (IsInit(p.text) ==> InitOf(suite, p.text, p.epoch, log.exchanges))
    case Replying(reply, e) =>
      if IsAck(reply) then n > 0 && |log.answers| == n && reply == log.answers[n - 1].response && e == Some(n)
      else !staged && e == None
    case Promoting(e) => n > 0 && e == n
    case Activated(_) => false
  }

  /** Each transaction's first ack is on the stream, under the epoch that carried its init. */
  ghost predicate AcksPlaced(s: Server, task: Task, acks: seq<nat>, sent: seq<TcpFrame>, log: Log)
  {
    && |log.answers| == Newest(log)
    && |acks| == (if s.ep.machine.phase == Staged && !task.Promoting? then Newest(log) - 1 else Newest(log))
    && forall k: nat :: k < |acks| ==> AckAt(sent, acks[k], k, log.answers)
  }

  ghost predicate AckAt(sent: seq<TcpFrame>, at: nat, k: nat, answers: seq<Transaction>)
  {
    at < |sent| && sent[at].epoch == k < |answers| && sent[at].text == answers[k].response
  }

  /** The answer a client one epoch behind is waiting for has not been lost. */
  ghost predicate AnswerAhead(got: nat, task: Task, acks: seq<nat>, e: nat, answers: seq<Transaction>)
  {
    e < |acks| ==>
      || acks[e] >= got
      || (Held(task).Some? && Held(task).value.epoch == e < |answers| && Held(task).value.text == answers[e].response)
  }

  ghost predicate Inv(suite: Suite, sys: System)
  {
    && EndsShaped(sys.client, sys.server, sys.log)
    && Observations(sys.client, sys.server, sys.log)
    && KeysAgree(sys.log)
    && Exchanges(sys.client, sys.log)
    && Transactions(suite, sys.server, sys.log)
    && Streams(sys)
    && Frames(suite, sys)
    && ClientTaskSound(sys.clientTask, ClientEpoch(sys), ServerEpoch(sys), sys.down)
    && ServerTaskSound(suite, sys.serverTask, sys.server, ClientEpoch(sys), sys.up, sys.log)
    && AcksPlaced(sys.server, sys.serverTask, sys.acks, sys.down.sent, sys.log)
    && AnswerAhead(sys.down.got, sys.clientTask, sys.acks, ClientEpoch(sys), sys.log.answers)
  }

  lemma StartInv(suite: Suite, keys: KeyPair, interval: nat)
    ensures Inv(suite, Start(keys, interval))
  {
    NewTcpShaped(keys, false);
    NewTcpShaped(keys, true);
  }

  // ---- the next frame is found ----

  /** Whatever the server's loop is doing, it holds the session of the next frame. */
  lemma ServerNextFound(suite: Suite, sys: System)
    requires Inv(suite, sys) && sys.up.got < |sys.up.sent|
    ensures sys.server.ep.crypto.Tcp? && Found(sys.server.ep.crypto.tcp, sys.up.sent[sys.up.got])
    ensures InStep(OpenTcp(sys.server.ep, sys.up.sent[sys.up.got]).1, sys.down, sys.up.(got := sys.up.got + 1))
  {
    hide TcpShaped, Wired, InStep, Found, Transactions, Exchanges, OpenTcp, ClientTaskSound, ServerTaskSound, AcksPlaced,
         AnswerAhead, DownFrames, InitOf;
    TcpShapedFacts(sys.client.ep, sys.log.clientKeys, false);
    TcpShapedFacts(sys.server.ep, sys.log.serverKeys, true);
    NextFound(sys.server.ep, sys.log.serverKeys, true, sys.down, sys.up, sys.log.clientKeys);
  }

  /** A client that has finished its last frame holds the session of the next one. */
  lemma ClientNextFound(suite: Suite, sys: System)
    requires Inv(suite, sys) && sys.down.got < |sys.down.sent| && sys.clientTask == Ready
    ensures sys.client.ep.crypto.Tcp? && Found(sys.client.ep.crypto.tcp, sys.down.sent[sys.down.got])
    ensures InStep(OpenTcp(sys.client.ep, sys.down.sent[sys.down.got]).1, sys.up, sys.down.(got := sys.down.got + 1))
    ensures sys.down.sent[sys.down.got].epoch <= ClientEpoch(sys)
  {
    hide TcpShaped, InStep, Found, Transactions, Exchanges, OpenTcp, ServerTaskSound, UpFrames, InitOf, Framed;
    TcpShapedFacts(sys.client.ep, sys.log.clientKeys, false);
    TcpShapedFacts(sys.server.ep, sys.log.serverKeys, true);
    var f, e := sys.down.sent[sys.down.got], ClientEpoch(sys);
    if e < |sys.acks| {
      assert AckAt(sys.down.sent, sys.acks[e], e, sys.log.answers);
      assert f.epoch <= sys.down.sent[sys.acks[e]].epoch;
    }
    NextFound(sys.client.ep, sys.log.clientKeys, false, sys.up, sys.down, sys.log.serverKeys);
  }

  // ---- sending ----

  lemma UpAppended(suite: Suite, up: Channel, f: TcpFrame, task: Task, s: Server, epoch: uint16, floor: int, log: Log)
    requires up.got <= |up.sent| && f.epoch == epoch >= floor
    requires IsInit(f.text) ==> InitOf(suite, f.text, epoch, log.exchanges)
    requires UpFrames(suite, up.sent, epoch, log.exchanges) && Unread(up, floor)
    requires ServerTaskSound(suite, task, s, epoch, up, log)
    ensures UpFrames(suite, Appended(up, f).sent, epoch, log.exchanges) && Unread(Appended(up, f), floor)
    ensures ServerTaskSound(suite, task, s, epoch, Appended(up, f), log)
  {
    hide InitOf;
  }

  lemma UpFacts(suite: Suite, up: Channel, epoch: uint16, xs: seq<Pending>, ks: seq<KeyPair>)
    requires UpFrames(suite, up.sent, epoch, xs) && Wired(up, ks, false)
    ensures AllAtMost(up.sent, epoch) && up.got <= |up.sent|
  {
  }

  lemma ClientTransmitLogged(sys: System, text: Plaintext)
    ensures Logged(sys, ClientTransmit(sys, text).1) == ClientTransmit(sys, text).1
  {
  }

  lemma ClientTransmitInv(suite: Suite, sys: System, text: Plaintext)
    requires Inv(suite, sys)
    requires IsInit(text) ==> InitOf(suite, text, ClientEpoch(sys), sys.log.exchanges)
    ensures Inv(suite, ClientTransmit(sys, text).1)
    ensures Logged(sys, ClientTransmit(sys, text).1) == ClientTransmit(sys, text).1
  {
    hide Logged, TcpShaped, Wired, Transactions, SealTcp, AcksPlaced, AnswerAhead, DownFrames, ClientTaskSound, InitOf,
         SentInStep, ReceivedInStep, KeysAgree, UpFrames, Unread, ServerTaskSound, AllAtMost;
    ClientTransmitLogged(sys, text);
    var (f, ep) := SealTcp(sys.client.ep, text);
    TcpSealShaped(sys.client.ep, sys.log.clientKeys, false, text);
    TcpShapedFacts(sys.client.ep, sys.log.clientKeys, false);
    TcpShapedFacts(sys.server.ep, sys.log.serverKeys, true);
    TcpShapedFacts(ep, sys.log.clientKeys, false);
    if f.Some? {
      UpFacts(suite, sys.up, ClientEpoch(sys), sys.log.exchanges, sys.log.clientKeys);
      SealInStep(sys.client.ep, sys.log.clientKeys, false, sys.up, sys.down, text);
      UpAppended(suite, sys.up, f.value, sys.serverTask, sys.server, ClientEpoch(sys),
                 Floor(sys.server.ep, ServerNewest(sys)), sys.log);
      assert Appended(sys.up, f.value).sent[..sys.up.got] == sys.up.sent[..sys.up.got];
    }
  }

  lemma AcksKept(s: Server, task: Task, acks: seq<nat>, sent: seq<TcpFrame>, log: Log, f: TcpFrame)
    requires AcksPlaced(s, task, acks, sent, log)
    ensures AcksPlaced(s, task, acks, sent + [f], log)
  {
  }

  lemma DownAppended(down: Channel, f: TcpFrame, task: Task, clientEpoch: uint16, serverEpoch: uint16, floor: int)
    requires down.got <= |down.sent| && f.epoch == serverEpoch >= floor
    requires DownFrames(down, serverEpoch, clientEpoch) && Unread(down, floor)
    requires ClientTaskSound(task, clientEpoch, serverEpoch, down)
    ensures DownFrames(Appended(down, f), serverEpoch, clientEpoch) && Unread(Appended(down, f), floor)
    ensures ClientTaskSound(task, clientEpoch, serverEpoch, Appended(down, f))
  {
  }

  lemma ServerTransmitAllocates(sys: System, text: Plaintext)
    ensures Allocated(ServerTransmit(sys, text).1.server.ep) == Allocated(sys.server.ep)
  {
  }

  lemma ServerTransmitInv(suite: Suite, sys: System, text: Plaintext)
    requires Inv(suite, sys)
    ensures Inv(suite, ServerTransmit(sys, text).1)
    ensures Allocated(ServerTransmit(sys, text).1.server.ep) == Allocated(sys.server.ep)
  {
    hide Allocated, TcpShaped, Wired, Answers, Exchanges, SealTcp, UpFrames, InitOf, BuiltInit, SentInStep, ReceivedInStep,
         KeysAgree, AnswerAhead, AckAt, Unread, ClientTaskSound, AllAtMost, DownFrames;
    ServerTransmitAllocates(sys, text);
    var (f, ep) := SealTcp(sys.server.ep, text);
    TcpSealShaped(sys.server.ep, sys.log.serverKeys, true, text);
    TcpShapedFacts(sys.client.ep, sys.log.clientKeys, false);
    TcpShapedFacts(sys.server.ep, sys.log.serverKeys, true);
    TcpShapedFacts(ep, sys.log.serverKeys, true);
    if f.Some? {
      DownFacts(sys.down, ServerEpoch(sys), ClientEpoch(sys), sys.log.serverKeys);
      SealInStep(sys.server.ep, sys.log.serverKeys, true, sys.down, sys.up, text);
      AcksKept(sys.server, sys.serverTask, sys.acks, sys.down.sent, sys.log, f.value);
      DownAppended(sys.down, f.value, sys.clientTask, ClientEpoch(sys), ServerEpoch(sys), Floor(sys.client.ep, ClientEpoch(sys)));
      assert Appended(sys.down, f.value).sent[..sys.down.got] == sys.down.sent[..sys.down.got];
    }
  }

  lemma DownFacts(down: Channel, serverEpoch: uint16, clientEpoch: uint16, ks: seq<KeyPair>)
    requires DownFrames(down, serverEpoch, clientEpoch) && Wired(down, ks, true)
    ensures AllAtMost(down.sent, serverEpoch) && down.got <= |down.sent|
  {
  }

  // ---- receiving ----

  function Read(ch: Channel): (result: Channel) { ch.(got := ch.got + 1) }

  lemma DownRead(down: Channel, ks: seq<KeyPair>, clientEpoch: uint16, serverEpoch: uint16, floor: int)
    requires Wired(down, ks, true) && down.got < |down.sent| && down.sent[down.got].epoch <= clientEpoch
    requires DownFrames(down, serverEpoch, clientEpoch) && Unread(down, floor)
    ensures var f := down.sent[down.got];
            && Wired(Read(down), ks, true) && DownFrames(Read(down), serverEpoch, clientEpoch) && Unread(Read(down), floor)
            && ClientTaskSound(Opened(Parcel(f.epoch, f.text)), clientEpoch, serverEpoch, Read(down))
  {
    hide Framed;
  }

  lemma AnswerRead(down: Channel, s: Server, task: Task, acks: seq<nat>, e: nat, log: Log)
    requires AcksPlaced(s, task, acks, down.sent, log) && down.got < |down.sent|
    requires AnswerAhead(down.got, Ready, acks, e, log.answers)
    ensures var f := down.sent[down.got];
            AnswerAhead(down.got + 1, Opened(Parcel(f.epoch, f.text)), acks, e, log.answers)
  {
    if e < |acks| { assert AckAt(down.sent, acks[e], e, log.answers); }
  }

  lemma OpenAllocates(ep: Endpoint, f: TcpFrame)
    ensures Allocated(OpenTcp(ep, f).1) == Allocated(ep)
  {
  }

  lemma ClientReadInv(suite: Suite, sys: System)
    requires Inv(suite, sys) && sys.clientTask == Ready && sys.down.got < |sys.down.sent|
    ensures var f := sys.down.sent[sys.down.got];
            Inv(suite, sys.(client := sys.client.(ep := OpenTcp(sys.client.ep, f).1),
                            clientTask := Opened(Parcel(f.epoch, f.text)), down := Read(sys.down)))
  {
    hide TcpShaped, InStep, Wired, Found, Transactions, OpenTcp, KeysAgree, UpFrames, ServerTaskSound, InitOf, DownFrames, Unread,
         AnswerAhead, AcksPlaced, ClientTaskSound;
    var f, e := sys.down.sent[sys.down.got], ClientEpoch(sys);
    ClientNextFound(suite, sys);
    TcpOpenShaped(sys.client.ep, sys.log.clientKeys, false, f);
    TcpShapedFacts(sys.client.ep, sys.log.clientKeys, false);
    TcpShapedFacts(OpenTcp(sys.client.ep, f).1, sys.log.clientKeys, false);
    ReadInStep(sys.server.ep, sys.down, Read(sys.down), sys.up);
    DownRead(sys.down, sys.log.serverKeys, e, ServerEpoch(sys), Floor(sys.client.ep, e));
    AnswerRead(sys.down, sys.server, sys.serverTask, sys.acks, e, sys.log);
  }

  lemma ClientReceiveInv(suite: Suite, sys: System)
    requires Inv(suite, sys)
    ensures Inv(suite, Next(suite, sys, ClientReceive))
  {
    hide Inv, OpenTcp, Found;
    if sys.clientOpen && sys.clientTask == Ready && sys.down.got < |sys.down.sent| {
      var f := sys.down.sent[sys.down.got];
      ClientNextFound(suite, sys);
      FoundOpens(sys.client.ep, f);
      OpenAllocates(sys.client.ep, f);
      ClientReadInv(suite, sys);
    }
  }

  /** What the other end has read is no concern of the sender's counters. */
  lemma ReadInStep(ep: Endpoint, out: Channel, out': Channel, in_: Channel)
    requires InStep(ep, out, in_) && out'.sent == out.sent
    ensures InStep(ep, out', in_)
  {
  }

  lemma UpRead(suite: Suite, up: Channel, ks: seq<KeyPair>, s: Server, clientEpoch: uint16, floor: int, log: Log)
    requires Wired(up, ks, false) && up.got < |up.sent| && s.ep.machine.phase != Staged
    requires UpFrames(suite, up.sent, clientEpoch, log.exchanges) && Unread(up, floor)
    ensures var f := up.sent[up.got];
            && Wired(Read(up), ks, false) && Unread(Read(up), floor)
            && ServerTaskSound(suite, Opened(Parcel(f.epoch, f.text)), s, clientEpoch, Read(up), log)
  {
    hide Framed, InitOf;
  }

  lemma ServerReadInv(suite: Suite, sys: System)
    requires Inv(suite, sys) && sys.serverTask == Ready && sys.up.got < |sys.up.sent|
    ensures var f := sys.up.sent[sys.up.got];
            Inv(suite, sys.(server := sys.server.(ep := OpenTcp(sys.server.ep, f).1),
                            serverTask := Opened(Parcel(f.epoch, f.text)), up := Read(sys.up)))
  {
    hide TcpShaped, InStep, Wired, Found, Answers, Exchanges, OpenTcp, KeysAgree, DownFrames, ClientTaskSound, AnswerAhead, AckAt,
         InitOf, UpFrames, Unread;
    var f, n := sys.up.sent[sys.up.got], ServerNewest(sys);
    ServerNextFound(suite, sys);
    TcpOpenShaped(sys.server.ep, sys.log.serverKeys, true, f);
    TcpShapedFacts(sys.server.ep, sys.log.serverKeys, true);
    TcpShapedFacts(OpenTcp(sys.server.ep, f).1, sys.log.serverKeys, true);
    ReadInStep(sys.client.ep, sys.up, Read(sys.up), sys.down);
    UpRead(suite, sys.up, sys.log.clientKeys, sys.server.(ep := OpenTcp(sys.server.ep, f).1), ClientEpoch(sys),
           Floor(sys.server.ep, n), sys.log);
  }

  lemma ServerReceiveInv(suite: Suite, sys: System)
    requires Inv(suite, sys)
    ensures Inv(suite, Next(suite, sys, ServerReceive))
  {
    hide Inv, OpenTcp, Found;
    if sys.serverOpen && sys.serverTask == Ready && sys.up.got < |sys.up.sent| {
      var f := sys.up.sent[sys.up.got];
      ServerNextFound(suite, sys);
      FoundOpens(sys.server.ep, f);
      OpenAllocates(sys.server.ep, f);
      ServerReadInv(suite, sys);
    }
  }

  // ---- the client builds ----

  lemma UpFramesGrow(suite: Suite, sent: seq<TcpFrame>, epoch: uint16, xs: seq<Pending>, p: Pending)
    requires UpFrames(suite, sent, epoch, xs)
    ensures UpFrames(suite, sent, epoch, xs + [p])
  {
    forall i | 0 <= i < |sent| && IsInit(sent[i].text)
      ensures InitOf(suite, sent[i].text, sent[i].epoch, xs + [p])
    {
      InitOfGrows(suite, sent[i].text, sent[i].epoch, xs, p);
    }
  }

  lemma ServerTaskGrows(suite: Suite, task: Task, s: Server, epoch: uint16, up: Channel, log: Log, p: Pending)
    requires ServerTaskSound(suite, task, s, epoch, up, log)
    ensures ServerTaskSound(suite, task, s, epoch, up, log.(exchanges := log.exchanges + [p]))
  {
  }

  lemma OpenExchangeInv(suite: Suite, sys: System, c: Client, p: Pending, built: Option<Plaintext>)
    requires Inv(suite, sys)
    requires sys.client.pending.None? && sys.client.ep.machine.phase == Idle
    requires p.startKeys == sys.client.ep.machine.current && p.carrier == ClientEpoch(sys)
    requires c.pending == Some(p) && c.ep == sys.client.ep
    requires built.Some? ==> built.value == InitPacket(suite, p)
    ensures Inv(suite, sys.(client := c, built := built, log := sys.log.(exchanges := sys.log.exchanges + [p])))
  {
    hide TcpShaped, Wired, InStep, Answers, UpFrames, DownFrames, ServerTaskSound, ClientTaskSound, AckAt, AnswerAhead, Unread;
    TcpShapedFacts(sys.client.ep, sys.log.clientKeys, false);
    var sys' := sys.(client := c, built := built, log := sys.log.(exchanges := sys.log.exchanges + [p]));
    var xs, xs' := sys.log.exchanges, sys'.log.exchanges;
    UpFramesGrow(suite, sys.up.sent, ClientEpoch(sys), xs, p);
    ServerTaskGrows(suite, sys.serverTask, sys.server, ClientEpoch(sys), sys.up, sys.log, p);
    assert forall k: nat :: k < |xs| ==> xs'[k] == xs[k];
    assert xs'[ClientEpoch(sys)] == p;
    assert Exchanges(c, sys'.log);
    assert Transactions(suite, sys.server, sys'.log);
  }

  /** A retry, a refusal or a timer not yet due changes only the packet waiting to be sent. */
  lemma NoExchangeInv(suite: Suite, sys: System, c: Client, built: Option<Plaintext>)
    requires Inv(suite, sys)
    requires c.pending == sys.client.pending && c.ep == sys.client.ep
    requires built.Some? ==> c.pending.Some? && built.value == InitPacket(suite, c.pending.value)
    ensures Inv(suite, sys.(client := c, built := built))
  {
    hide TcpShaped, Wired, InStep, Transactions, KeysAgree, UpFrames, DownFrames, ServerTaskSound, ClientTaskSound, AcksPlaced,
         AnswerAhead, Unread, InitPacket;
    var sys' := sys.(client := c, built := built);
    assert Current(c.ep) == Current(sys.client.ep);
    assert Exchanges(c, sys.log);
    assert BuiltInit(suite, built, c, sys.log);
    assert Streams(sys') && Frames(suite, sys');
  }

  lemma ClientBuildInv(suite: Suite, sys: System, now: int, draw: Option<Seed>, room: nat)
    requires Inv(suite, sys)
    ensures Inv(suite, Next(suite, sys, ClientBuild(now, draw, room)))
  {
    hide Inv;
    var (r, c) := MaybeBuildInit(suite, sys.client, now, draw, room);
    var built := if r.Ok? then r.value else None;
    if sys.clientOpen && sys.built.None? {
      if sys.client.pending.None? && c.pending.Some? {
        OpenExchangeInv(suite, sys, c, c.pending.value, built);
      } else {
        NoExchangeInv(suite, sys, c, built);
      }
    }
  }

  // ---- the server's packet loop ----

  lemma ServerObserveInv(suite: Suite, sys: System, p: Parcel)
    requires Inv(suite, sys) && sys.serverTask == Opened(p)
    ensures Inv(suite, Logged(sys, AdvanceServer(suite, sys, 0)))
  {
    hide TcpShaped, Wired, SentInStep, ReceivedInStep, Transactions, Exchanges, KeysAgree, UpFrames, DownFrames, ClientTaskSound,
         InitOf, AckAt, AnswerAhead, ObservePeer, AllAtMost, Unread;
    ObserveTransactions(suite, sys.server, sys.log, p.epoch);
    TcpObserveShaped(sys.server.ep, sys.log.serverKeys, true, p.epoch);
    TcpShapedFacts(sys.server.ep, sys.log.serverKeys, true);
    PhasesKeepSessions(sys.server.ep, p.epoch);
    PhasesInStep(sys.server.ep, ObservePeer(sys.server.ep, p.epoch), sys.down, sys.up);
    TcpShapedFacts(ObservePeer(sys.server.ep, p.epoch), sys.log.serverKeys, true);
  }

  lemma ServerPromoteInv(suite: Suite, sys: System, epoch: uint16)
    requires Inv(suite, sys) && sys.serverTask == Promoting(epoch)
    ensures Inv(suite, Logged(sys, AdvanceServer(suite, sys, 0)))
  {
    hide TcpShaped, Wired, SentInStep, ReceivedInStep, Answers, Exchanges, KeysAgree, UpFrames, InitOf, AckAt, AnswerAhead, ActivateSend, Unread;
    LastEpoch(suite, sys.server, sys.log);
    TcpActivateShaped(sys.server.ep, sys.log.serverKeys, true, epoch);
    TcpShapedFacts(sys.server.ep, sys.log.serverKeys, true);
    PhasesKeepSessions(sys.server.ep, epoch);
    PhasesInStep(sys.server.ep, ActivateSend(sys.server.ep, epoch), sys.down, sys.up);
    TcpShapedFacts(ActivateSend(sys.server.ep, epoch), sys.log.serverKeys, true);
  }

  /** A packet that opens no transaction changes only what the loop does next. */
  lemma ServerTaskInv(suite: Suite, sys: System, task: Task)
    requires Inv(suite, sys) && sys.serverTask.Observed?
    requires task == Ready || task.Replying?
    requires task.Replying? && IsAck(task.reply) ==>
               && ServerNewest(sys) > 0 && |sys.log.answers| == ServerNewest(sys)
               && task == Replying(sys.log.answers[ServerNewest(sys) - 1].response, Some(ServerNewest(sys)))
    requires task.Replying? && !IsAck(task.reply) ==> task.epoch == None
    ensures Inv(suite, sys.(serverTask := task))
  {
    hide TcpShaped, Wired, InStep, Answers, Exchanges, KeysAgree, UpFrames, InitOf, AckAt, AnswerAhead, DownFrames, Unread, ClientTaskSound;
  }

  /** The server, staged with the answer to the pending exchange. */
  lemma AnsweredInv(suite: Suite, sys: System, ep: Endpoint, answer: Response)
    requires Inv(suite, sys) && ServerNewest(sys) == ClientEpoch(sys) < MAX_EPOCH && sys.serverTask.Observed?
    requires sys.client.pending.Some? && sys.server.ep.machine.phase == Idle
    requires var p := sys.client.pending.value;
             && (suite.V1? ==> |answer.body| == KEY_SIZE) && answer.body != [] && FullSize(answer.keys)
             && Finish(suite, p.seed, p.startKeys, sys.server.ep.machine.current, answer.body) == Some(answer.keys)
    requires StartRekey(sys.server.ep, answer.keys) == (Ok(ServerNewest(sys) + 1), ep)
    ensures var n := ServerNewest(sys);
            var response := Service(AckKind(suite), answer.body);
            var t := Transaction(InitPacket(suite, sys.client.pending.value), response, n, n + 1, false, false);
            Inv(suite, sys.(server := Server(Some(t), ep), serverTask := Replying(response, Some(n + 1)),
                            log := sys.log.(serverKeys := sys.log.serverKeys + [answer.keys], answers := sys.log.answers + [t])))
  {
    hide Transactions, TcpShaped, SentInStep, ReceivedInStep, UpFrames, InitOf, Finish, StartRekey, AckAt,
         Framed, ClientTaskSound;
    var n := ServerNewest(sys);
    var response := Service(AckKind(suite), answer.body);
    var t := Transaction(InitPacket(suite, sys.client.pending.value), response, n, n + 1, false, false);
    var s' := Server(Some(t), ep);
    TcpShapedFacts(sys.client.ep, sys.log.clientKeys, false);
    TcpShapedFacts(sys.server.ep, sys.log.serverKeys, true);
    TcpStartShaped(sys.server.ep, sys.log.serverKeys, true, answer.keys);
    TcpShapedFacts(ep, sys.log.serverKeys + [answer.keys], true);
    AnsweredTransactions(suite, sys.client, sys.server, s', sys.log, answer);
    var log' := sys.log.(serverKeys := sys.log.serverKeys + [answer.keys], answers := sys.log.answers + [t]);
    assert log'.answers[n] == t;
    UpFacts(suite, sys.up, ClientEpoch(sys), sys.log.exchanges, sys.log.clientKeys);
    StageInStep(sys.server.ep, ep, sys.log.serverKeys, true, answer.keys, sys.down, sys.up);
    WiredGrows(sys.down, sys.log.serverKeys, answer.keys, true);
    AcksGrow(sys.server, s', sys.serverTask, sys.acks, sys.down.sent, sys.log, log');
    assert Exchanges(sys.client, log');
  }

  lemma WiredGrows(ch: Channel, ks: seq<KeyPair>, keys: KeyPair, isServer: bool)
    requires Wired(ch, ks, isServer)
    ensures Wired(ch, ks + [keys], isServer)
  {
    forall i | 0 <= i < |ch.sent| ensures Framed(ch.sent, i, ks + [keys], isServer)
    {
      assert Framed(ch.sent, i, ks, isServer);
    }
  }

  lemma AcksGrow(s: Server, s': Server, task: Task, acks: seq<nat>, sent: seq<TcpFrame>, log: Log, log': Log)
    requires AcksPlaced(s, task, acks, sent, log) && s.ep.machine.phase != Staged && s'.ep.machine.phase == Staged
    requires log.answers <= log'.answers && |log'.answers| == Newest(log') == Newest(log) + 1
    ensures AcksPlaced(s', Ready, acks, sent, log')
  {
    forall k: nat | k < |acks| ensures AckAt(sent, acks[k], k, log'.answers)
    {
      assert AckAt(sent, acks[k], k, log.answers);
    }
  }

  lemma ObservedFacts(suite: Suite, sys: System, p: Parcel)
    requires Inv(suite, sys) && sys.serverTask == Observed(p)
    ensures Exchanges(sys.client, sys.log) && Transactions(suite, sys.server, sys.log) && KeysAgree(sys.log)
    ensures p.epoch <= ClientEpoch(sys) <= ServerNewest(sys) == ServerEpoch(sys)
    ensures IsInit(p.text) ==> InitOf(suite, p.text, p.epoch, sys.log.exchanges)
    ensures sys.server.ep.machine.current == sys.log.serverKeys[ServerNewest(sys)]
  {
    hide TcpShaped, Streams, UpFrames, DownFrames, InitOf, Transactions;
    TcpShapedFacts(sys.server.ep, sys.log.serverKeys, true);
  }

  /** A repeated init is answered again. */
  lemma RepeatedRequest(suite: Suite, sys: System, p: Parcel)
    requires Inv(suite, sys) && sys.serverTask == Observed(p) && IsInit(p.text)
    requires sys.server.transaction.Some? && sys.server.transaction.value.carrier == p.epoch
    ensures var t := sys.server.transaction.value;
            Inv(suite, sys.(serverTask := Replying(t.response, Some(t.epoch))))
  {
    hide Inv, Exchanges, KeysAgree, InitOf;
    ObservedFacts(suite, sys, p);
    LastEpoch(suite, sys.server, sys.log);
    var n := ServerNewest(sys);
    assert Answers(suite, sys.log.answers[n - 1], n - 1, sys.log.exchanges[n - 1], sys.log.serverKeys[n - 1], sys.log.serverKeys[n]);
    ServerTaskInv(suite, sys, Replying(sys.server.transaction.value.response, Some(n)));
  }

  lemma OpenTransactionInv(suite: Suite, sys: System, p: Parcel, seed: Seed)
    requires Lawful(suite)
    requires Inv(suite, sys) && sys.serverTask == Observed(p) && IsRequest(suite, p.text)
    requires p.epoch == ServerNewest(sys) == ClientEpoch(sys)
    requires sys.server.ep.machine.phase == Idle
    requires sys.client.pending.Some? && p.text == InitPacket(suite, sys.client.pending.value)
    requires sys.client.pending.value.startKeys == sys.server.ep.machine.current
    ensures var (r, s') := OpenTransaction(suite, sys.server, p.epoch, p.text, seed);
            && (r.Ok? ==> r.value.Some?)
            && (r.Ok? ==> var task := Replying(r.value.value.response, Some(r.value.value.epoch));
                          Inv(suite, Logged(sys, sys.(server := s', serverTask := task))))
            && (r.Err? ==> s' == sys.server)
  {
    hide Lawful, Respond, Finish, StartRekey, Frames, Streams, Answers, AcksPlaced, TcpShaped, AnswerAhead;
    var n, current := ServerNewest(sys), sys.server.ep.machine.current;
    var answer := Respond(suite, seed, current, p.text.body);
    ExchangeAgrees(suite, sys.client.pending.value.seed, seed, current);
    TcpShapedFacts(sys.server.ep, sys.log.serverKeys, true);
    if answer.Some? {
      TcpStartShaped(sys.server.ep, sys.log.serverKeys, true, answer.value.keys);
      if n < MAX_EPOCH {
        var ep := StartRekey(sys.server.ep, answer.value.keys).1;
        TcpShapedFacts(ep, sys.log.serverKeys + [answer.value.keys], true);
        AnsweredInv(suite, sys, ep, answer.value);
      }
    }
  }

  /** An init: answered again, refused, or the start of a transaction. */
  lemma HandleInitInv(suite: Suite, sys: System, p: Parcel, seed: Seed)
    requires Lawful(suite)
    requires Inv(suite, sys) && sys.serverTask == Observed(p) && IsInit(p.text)
    ensures Inv(suite, Logged(sys, AdvanceServer(suite, sys, seed)))
  {
    hide Inv, Lawful, OpenTransaction, InitOf, Exchanges, Transactions, KeysAgree;
    ObservedFacts(suite, sys, p);
    LastEpoch(suite, sys.server, sys.log);
    ServerTaskInv(suite, sys, Ready);
    var t := sys.server.transaction;
    if IsRequest(suite, p.text) {
      if t.Some? && t.value.request == p.text {
        if t.value.carrier == p.epoch { RepeatedRequest(suite, sys, p); }
      } else if t.Some? && (!t.value.Complete() || p.epoch != t.value.epoch) {
      } else if sys.server.ep.machine.phase == Idle {
        ServerTaskInv(suite, sys, Replying(Service(ExhaustedNotice, []), None));
        AcceptedInit(suite, sys.client, sys.server, sys.log, p);
        OpenTransactionInv(suite, sys, p, seed);
      }
    }
  }

  lemma ServerHandleInv(suite: Suite, sys: System, p: Parcel, seed: Seed)
    requires Lawful(suite)
    requires Inv(suite, sys) && sys.serverTask == Observed(p)
    ensures Inv(suite, Logged(sys, AdvanceServer(suite, sys, seed)))
  {
    hide Inv, Lawful, Handle;
    if IsInit(p.text) {
      HandleInitInv(suite, sys, p, seed);
    } else {
      ServerTaskInv(suite, sys, Ready);
      ServerTaskInv(suite, sys, Replying(Service(Pong, []), None));
    }
  }

  lemma ReplyFacts(suite: Suite, sys: System)
    requires Inv(suite, sys) && sys.serverTask.Replying?
    ensures IsAck(sys.serverTask.reply) ==> sys.serverTask.epoch == Some(ServerNewest(sys)) && 0 < ServerNewest(sys) <= MAX_EPOCH
    ensures !IsAck(sys.serverTask.reply) ==> sys.serverTask.epoch == None && sys.server.ep.machine.phase != Staged
  {
    hide TcpShaped, Streams, Frames, Answers, Exchanges, KeysAgree, AcksPlaced;
    TcpShapedFacts(sys.server.ep, sys.log.serverKeys, true);
  }

  /** Once an ack is on the stream the loop goes on to promote; other replies end the loop's turn. */
  lemma RepliedInv(suite: Suite, sys: System, at: nat)
    requires Inv(suite, sys) && sys.serverTask.Replying?
    requires sys.down.got <= at < |sys.down.sent|
    requires sys.down.sent[at].epoch == ServerEpoch(sys) && sys.down.sent[at].text == sys.serverTask.reply
    ensures var e, staged := sys.serverTask.epoch, sys.server.ep.machine.phase == Staged;
            Inv(suite, sys.(serverTask := if e.Some? then Promoting(e.value) else Ready,
                            acks := if e.Some? && staged then sys.acks + [at] else sys.acks))
  {
    hide Inv;
    ReplyFacts(suite, sys);
    if IsAck(sys.serverTask.reply) { AckSentInv(suite, sys, at); } else { PongSentInv(suite, sys); }
  }

  lemma PongSentInv(suite: Suite, sys: System)
    requires Inv(suite, sys) && sys.serverTask.Replying? && !IsAck(sys.serverTask.reply)
    ensures Inv(suite, sys.(serverTask := Ready, acks := sys.acks))
  {
    hide TcpShaped, Wired, InStep, Answers, Exchanges, KeysAgree, UpFrames, DownFrames, InitOf, Unread,
         ClientTaskSound, AnswerAhead, AckAt;
  }

  lemma AckSentInv(suite: Suite, sys: System, at: nat)
    requires Inv(suite, sys) && sys.serverTask.Replying? && IsAck(sys.serverTask.reply)
    requires sys.serverTask.epoch == Some(ServerNewest(sys)) && 0 < ServerNewest(sys) <= MAX_EPOCH
    requires sys.down.got <= at < |sys.down.sent|
    requires sys.down.sent[at].epoch == ServerEpoch(sys) && sys.down.sent[at].text == sys.serverTask.reply
    ensures Inv(suite, sys.(serverTask := Promoting(ServerNewest(sys)),
                            acks := if sys.server.ep.machine.phase == Staged then sys.acks + [at] else sys.acks))
  {
    hide TcpShaped, Wired, InStep, Answers, Exchanges, KeysAgree, UpFrames, DownFrames, InitOf, Unread,
         ClientTaskSound;
    TcpShapedFacts(sys.server.ep, sys.log.serverKeys, true);
  }

  lemma ServerReplyInv(suite: Suite, sys: System)
    requires Inv(suite, sys) && sys.serverTask.Replying?
    ensures Inv(suite, Logged(sys, AdvanceServer(suite, sys, 0)))
  {
    hide Inv, SealTcp;
    ReplyFacts(suite, sys);
    ServerTransmitInv(suite, sys, sys.serverTask.reply);
    var (ok, sys') := ServerTransmit(sys, sys.serverTask.reply);
    if ok {
      SealedFacts(suite, sys, sys.serverTask.reply);
      RepliedInv(suite, sys', |sys.down.sent|);
    } else {
      ServerClosedInv(suite, sys);
    }
  }

  lemma SealedFacts(suite: Suite, sys: System, text: Plaintext)
    requires Inv(suite, sys)
    ensures sys.down.got <= |sys.down.sent|
    ensures var (f, ep) := SealTcp(sys.server.ep, text);
            ep.machine == sys.server.ep.machine && (f.Some? ==> f.value.epoch == ServerEpoch(sys) && f.value.text == text)
  {
    hide Streams, Frames, Answers, Exchanges, KeysAgree, AcksPlaced, ServerTaskSound, ClientTaskSound;
    GotBound(sys);
  }

  lemma GotBound(sys: System)
    requires Streams(sys)
    ensures sys.down.got <= |sys.down.sent|
  {
  }

  /** A server that cannot send closes the connection, or drops a pong. */
  lemma ServerClosedInv(suite: Suite, sys: System)
    requires Inv(suite, sys) && sys.serverTask.Replying?
    ensures Inv(suite, sys.(serverOpen := false))
    ensures !IsAck(sys.serverTask.reply) ==> Inv(suite, sys.(serverTask := Ready))
  {
    hide TcpShaped, Wired, InStep, Answers, Exchanges, KeysAgree, UpFrames, DownFrames, InitOf, Unread,
         ClientTaskSound, AckAt, AnswerAhead;
  }

  lemma ServerAdvanceInv(suite: Suite, sys: System, seed: Seed)
    requires Lawful(suite) && Inv(suite, sys)
    ensures Inv(suite, Logged(sys, AdvanceServer(suite, sys, seed)))
  {
    hide Inv, Lawful, ServerService, ServerObserve, ServerActivate, ServerTransmit;
    match sys.serverTask
    case Opened(p) => ServerObserveInv(suite, sys, p);
    case Observed(p) => ServerHandleInv(suite, sys, p, seed);
    case Replying(reply, _) => ServerReplyInv(suite, sys);
    case Promoting(epoch) => ServerPromoteInv(suite, sys, epoch);
    case _ =>
  }

  // ---- the client's packet loop ----

  lemma ExchangesKept(suite: Suite, c: Client, c': Client, built: Option<Plaintext>, log: Log)
    requires Exchanges(c, log) && BuiltInit(suite, built, c, log)
    requires c'.pending == c.pending && Current(c'.ep) == Current(c.ep)
    requires c.ep.machine.phase == Idle ==> c'.ep.machine.phase == Idle
    ensures Exchanges(c', log) && BuiltInit(suite, built, c', log)
  {
    hide Exchanges;
    PendingKept(c, c', log);
  }

  lemma PendingKept(c: Client, c': Client, log: Log)
    requires Exchanges(c, log)
    requires c'.pending == c.pending && Current(c'.ep) == Current(c.ep)
    requires c.ep.machine.phase == Idle ==> c'.ep.machine.phase == Idle
    ensures Exchanges(c', log)
  {
  }

  lemma ClientObserveInv(suite: Suite, sys: System, p: Parcel)
    requires Inv(suite, sys) && sys.clientTask == Opened(p)
    ensures Inv(suite, Logged(sys, AdvanceClient(suite, sys)))
  {
    hide Exchanges, BuiltInit, TcpShaped, Wired, InStep, Transactions, KeysAgree, UpFrames, DownFrames, ServerTaskSound,
         InitOf, AcksPlaced, ObservePeer, AllAtMost, Unread, AnswerAhead;
    AnswersMoved(sys.down, sys.clientTask, Observed(p), sys.acks, ClientEpoch(sys), sys.log.answers);
    TcpObserveShaped(sys.client.ep, sys.log.clientKeys, false, p.epoch);
    TcpShapedFacts(sys.client.ep, sys.log.clientKeys, false);
    TcpShapedFacts(sys.server.ep, sys.log.serverKeys, true);
    ExchangesKept(suite, sys.client, ClientObserve(sys.client, p.epoch), sys.built, sys.log);
    PhasesKeepSessions(sys.client.ep, p.epoch);
    PhasesInStep(sys.client.ep, ObservePeer(sys.client.ep, p.epoch), sys.up, sys.down);
    TcpShapedFacts(ObservePeer(sys.client.ep, p.epoch), sys.log.clientKeys, false);
  }

  lemma AnswersMoved(down: Channel, task: Task, task': Task, acks: seq<nat>, e: uint16, answers: seq<Transaction>)
    requires Held(task) == Held(task')
    ensures AnswerAhead(down.got, task, acks, e, answers) ==> AnswerAhead(down.got, task', acks, e, answers)
  {
  }

  ghost predicate IsTrueAnswer(sys: System, p: Parcel)
  {
    var e := ClientEpoch(sys);
    e < |sys.acks| && p.epoch == e < |sys.log.answers| && p.text == sys.log.answers[e].response
  }

  /** A frame the client is done with, as long as it was not the answer it is waiting for. */
  lemma ClientDoneInv(suite: Suite, sys: System, p: Parcel, open: bool)
    requires Inv(suite, sys) && sys.clientTask == Observed(p) && !IsTrueAnswer(sys, p)
    ensures Inv(suite, sys.(clientTask := Ready, clientOpen := open))
  {
    hide TcpShaped, Wired, InStep, Transactions, Exchanges, KeysAgree, UpFrames, DownFrames, ServerTaskSound, InitOf, AcksPlaced, Unread;
  }

  lemma ClientFacts(suite: Suite, sys: System)
    requires Inv(suite, sys)
    ensures Exchanges(sys.client, sys.log) && Transactions(suite, sys.server, sys.log) && KeysAgree(sys.log)
    ensures ClientEpoch(sys) < |sys.log.clientKeys| && sys.client.ep.machine.current == sys.log.clientKeys[ClientEpoch(sys)]
    ensures |sys.acks| <= ServerNewest(sys) <= |sys.log.exchanges|
  {
    hide TcpShaped, Streams, Frames, Answers, ServerTaskSound, ClientTaskSound, AckAt;
    TcpShapedFacts(sys.client.ep, sys.log.clientKeys, false);
  }

  /** The answer recorded for the pending exchange fits it. */
  lemma AnswerFits(suite: Suite, sys: System, p: Parcel)
    requires Inv(suite, sys) && sys.client.pending.Some?
    requires p.epoch == sys.client.pending.value.carrier && AnswerOf(p.text, p.epoch, sys.log.answers)
    ensures IsAnswer(suite, sys.client, p.epoch, p.text) && IsAck(p.text) && Fits(suite, sys, p.text.body)
  {
    hide Inv, Transactions, KeysAgree;
    ClientFacts(suite, sys);
    AcceptedAck(suite, sys.client, sys.server, sys.log, p);
  }

  /** So does the answer a client one epoch behind is waiting for. */
  lemma TrueAnswerFits(suite: Suite, sys: System, p: Parcel)
    requires Inv(suite, sys) && IsTrueAnswer(sys, p)
    ensures IsAnswer(suite, sys.client, p.epoch, p.text) && IsAck(p.text) && Fits(suite, sys, p.text.body)
  {
    hide Inv, Transactions, KeysAgree, Fits;
    ClientFacts(suite, sys);
    assert |sys.log.exchanges| > ClientEpoch(sys);
    AnswerFits(suite, sys, p);
  }

  lemma NotAwaited(suite: Suite, sys: System, p: Parcel)
    requires Inv(suite, sys)
    requires !IsAck(p.text) || !IsAnswer(suite, sys.client, p.epoch, p.text) || !Fits(suite, sys, p.text.body)
    ensures !IsTrueAnswer(sys, p)
  {
    hide Inv, Fits, IsTrueAnswer, IsAnswer;
    if IsTrueAnswer(sys, p) { TrueAnswerFits(suite, sys, p); }
  }

  lemma FitsNewest(suite: Suite, sys: System, body: Bytes)
    requires Inv(suite, sys) && Fits(suite, sys, body)
    ensures ServerNewest(sys) == ClientEpoch(sys) + 1 && sys.client.ep.machine.phase == Idle
    ensures FullSize(sys.log.serverKeys[ServerNewest(sys)])
  {
    hide TcpShaped, Streams, Frames, ServerTaskSound, ClientTaskSound, AcksPlaced, AnswerAhead, KeysAgree, Finish;
    var n := ServerNewest(sys);
    assert Answers(suite, sys.log.answers[n - 1], n - 1, sys.log.exchanges[n - 1], sys.log.serverKeys[n - 1], sys.log.serverKeys[n]);
  }

  /** A fitting ack brings the client to the server's newest epoch. */
  lemma FittingAckInv(suite: Suite, sys: System, p: Parcel)
    requires Inv(suite, sys) && sys.clientTask == Observed(p)
    requires IsAnswer(suite, sys.client, p.epoch, p.text) && Fits(suite, sys, p.text.body)
    ensures var (r, c) := HandleAck(suite, sys.client, p.epoch, p.text);
            && r == Ok(true) && Current(c.ep) == ClientEpoch(sys) + 1 == ServerNewest(sys)
            && c.ep.machine.current == sys.log.serverKeys[ServerNewest(sys)]
            && Inv(suite, Logged(sys, sys.(client := c, clientTask := Ready)))
  {
    hide Inv, TcpShaped, Finish, Transactions, KeysAgree, StartRekey, ActivateSend;
    var c, k := sys.client, ClientEpoch(sys);
    FitsNewest(suite, sys, p.text.body);
    ShapedEnds(suite, sys);
    var ks, keys := sys.log.clientKeys, sys.log.serverKeys[k + 1];
    TcpStartShaped(c.ep, ks, false, keys);
    var ep := StartRekey(c.ep, keys).1;
    TcpShapedFacts(ep, ks + [keys], false);
    TcpActivateShaped(ep, ks + [keys], false, k + 1);
    TcpShapedFacts(ActivateSend(ep, k + 1), ks + [keys], false);
    ClientAdvancedInv(suite, sys, ep, ActivateSend(ep, k + 1), keys);
  }

  lemma UnmovedAck(suite: Suite, c: Client, p: Parcel)
    ensures var (r, c') := HandleAck(suite, c, p.epoch, p.text);
            && (c'.pending == c.pending || c'.pending == None)
            && (!IsAnswer(suite, c, p.epoch, p.text) ==> c' == c && r == Ok(false))
            && (c'.pending == c.pending ==> c' == c && r != Ok(true))
  {
    hide Finish, StartRekey, ActivateSend;
  }

  /** An ack that is not mistaken brings the server's newest keys or leaves the client as it was. */
  lemma ClientAckInv(suite: Suite, sys: System, p: Parcel)
    requires Inv(suite, sys) && sys.clientOpen && sys.clientTask == Observed(p) && IsAck(p.text)
    requires !Mistakes(suite, sys, ClientAdvance)
    ensures var (r, c) := HandleAck(suite, sys.client, p.epoch, p.text);
            && (r == Ok(true) <==> c != sys.client)
            && (r == Ok(true) ==> Current(c.ep) == ClientEpoch(sys) + 1 == ServerNewest(sys)
                                  && c.ep.machine.current == sys.log.serverKeys[ServerNewest(sys)])
            && Inv(suite, Logged(sys, sys.(client := c, clientTask := Ready, clientOpen := r != Err(EpochExhausted))))
  {
    hide Inv, Fits, IsAnswer, HandleAck;
    var (r, c) := HandleAck(suite, sys.client, p.epoch, p.text);
    UnmovedAck(suite, sys.client, p);
    if IsAnswer(suite, sys.client, p.epoch, p.text) && Fits(suite, sys, p.text.body) {
      FittingAckInv(suite, sys, p);
    } else {
      NotAwaited(suite, sys, p);
      ClientDoneInv(suite, sys, p, r != Err(EpochExhausted));
    }
  }

  lemma ShapedEnds(suite: Suite, sys: System)
    requires Inv(suite, sys)
    ensures TcpShaped(sys.client.ep, sys.log.clientKeys, false) && TcpShaped(sys.server.ep, sys.log.serverKeys, true)
    ensures Allocated(sys.client.ep) == ClientEpoch(sys) == |sys.log.clientKeys| - 1
    ensures Allocated(sys.server.ep) == ServerNewest(sys) <= ClientEpoch(sys) + 1
    ensures ServerNewest(sys) <= MAX_EPOCH && sys.client.ep.machine.maxObserved <= ClientEpoch(sys)
  {
    hide TcpShaped, Streams, Frames, Transactions, Exchanges, ServerTaskSound, AcksPlaced, KeysAgree;
    TcpShapedFacts(sys.client.ep, sys.log.clientKeys, false);
    TcpShapedFacts(sys.server.ep, sys.log.serverKeys, true);
  }

  /** The client, moved to the server's newest epoch. */
  lemma ClientAdvancedInv(suite: Suite, sys: System, mid: Endpoint, ep: Endpoint, keys: KeyPair)
    requires Inv(suite, sys) && sys.client.pending.Some? && sys.client.ep.machine.phase == Idle
    requires ServerNewest(sys) == ClientEpoch(sys) + 1 && keys == sys.log.serverKeys[ServerNewest(sys)]
    requires StartRekey(sys.client.ep, keys).0.Ok? && mid == StartRekey(sys.client.ep, keys).1
    requires TcpShaped(mid, sys.log.clientKeys + [keys], false)
    requires ep == ActivateSend(mid, ClientEpoch(sys) + 1)
    requires TcpShaped(ep, sys.log.clientKeys + [keys], false) && ep.machine.phase == Retiring
    requires ep.machine.maxObserved == sys.client.ep.machine.maxObserved
    ensures Inv(suite, sys.(client := sys.client.(pending := None, ep := ep), clientTask := Ready,
                            log := sys.log.(clientKeys := sys.log.clientKeys + [keys])))
  {
    hide TcpShaped, Finish, Answers, SentInStep, ReceivedInStep, StartRekey, ActivateSend, Framed, AckAt,
         AllAtMost, InitOf, UpFrames, Unread, ServerTaskSound;
    TcpShapedFacts(sys.client.ep, sys.log.clientKeys, false);
    TcpShapedFacts(sys.server.ep, sys.log.serverKeys, true);
    TcpShapedFacts(mid, sys.log.clientKeys + [keys], false);
    TcpShapedFacts(ep, sys.log.clientKeys + [keys], false);
    var e := ClientEpoch(sys);
    UpFacts(suite, sys.up, e, sys.log.exchanges, sys.log.clientKeys);
    DownPrefix(sys.down, ServerEpoch(sys), e, sys.log.serverKeys);
    StageInStep(sys.client.ep, mid, sys.log.clientKeys, false, keys, sys.up, sys.down);
    PhasesKeepSessions(mid, e + 1);
    PhasesInStep(mid, ep, sys.up, sys.down);
    WiredGrows(sys.up, sys.log.clientKeys, keys, false);
    LaterUp(suite, sys.up, sys.serverTask, sys.server, e, sys.log, keys);
    BuiltMoves(suite, sys.built, sys.client, sys.client.(pending := None, ep := ep), sys.log, keys);
    var log' := sys.log.(clientKeys := sys.log.clientKeys + [keys]);
    assert KeysAgree(log');
    assert Transactions(suite, sys.server, log');
    assert Exchanges(sys.client.(pending := None, ep := ep), log');
  }

  lemma DownPrefix(down: Channel, serverEpoch: uint16, clientEpoch: uint16, ks: seq<KeyPair>)
    requires DownFrames(down, serverEpoch, clientEpoch) && Wired(down, ks, true)
    ensures AllAtMost(down.sent[..down.got], clientEpoch)
  {
  }

  lemma LaterUp(suite: Suite, up: Channel, task: Task, s: Server, e: uint16, log: Log, keys: KeyPair)
    requires UpFrames(suite, up.sent, e, log.exchanges) && ServerTaskSound(suite, task, s, e, up, log) && e < MAX_EPOCH
    ensures UpFrames(suite, up.sent, e + 1, log.exchanges)
    ensures ServerTaskSound(suite, task, s, e + 1, up, log.(clientKeys := log.clientKeys + [keys]))
  {
    hide InitOf;
  }

  lemma BuiltMoves(suite: Suite, built: Option<Plaintext>, c: Client, c': Client, log: Log, keys: KeyPair)
    requires BuiltInit(suite, built, c, log) && Exchanges(c, log) && c.pending.Some?
    requires c'.pending.None? && Current(c'.ep) == Current(c.ep) + 1
    ensures BuiltInit(suite, built, c', log.(clientKeys := log.clientKeys + [keys]))
  {
  }

  lemma ClientAdvanceInv(suite: Suite, sys: System)
    requires Inv(suite, sys) && sys.clientOpen && !Mistakes(suite, sys, ClientAdvance)
    ensures Inv(suite, Logged(sys, AdvanceClient(suite, sys)))
  {
    hide Inv, ObservePeer, HandleAck, Mistakes, IsAnswer, Fits, IsTrueAnswer;
    match sys.clientTask
    case Opened(p) => ClientObserveInv(suite, sys, p);
    case Observed(p) =>
      if IsAck(p.text) {
        ClientAckInv(suite, sys, p);
      } else {
        NotAwaited(suite, sys, p);
        ClientDoneInv(suite, sys, p, !IsReconnect(p.text));
      }
    case _ =>
  }

  // ---- every faithful run ----

  lemma NextInv(suite: Suite, sys: System, step: Step)
    requires Lawful(suite) && Inv(suite, sys)
    requires !Mistakes(suite, sys, step)
    ensures Inv(suite, Next(suite, sys, step))
  {
    hide Inv, Lawful, InitOf, MaybeBuildInit, OpenTcp, SealTcp, AdvanceClient, AdvanceServer, Mistakes;
    match step
    case ClientBuild(now, draw, room) => ClientBuildInv(suite, sys, now, draw, room);
    case ClientSendBuilt =>
      if sys.clientOpen && sys.built.Some? {
        BuiltFacts(suite, sys);
        ClientTransmitInv(suite, sys.(built := None), sys.built.value);
      }
    case ClientSend(text) =>
      if sys.clientOpen && IsTraffic(text) {
        ClientTransmitInv(suite, sys, text);
        CloseInv(suite, sys, false, sys.serverOpen);
      }
    case ClientReceive => ClientReceiveInv(suite, sys);
    case ClientAdvance => if sys.clientOpen { ClientAdvanceInv(suite, sys); }
    case ServerSend(text) =>
      if sys.serverOpen && text.Data? {
        ServerTransmitInv(suite, sys, text);
        CloseInv(suite, sys, sys.clientOpen, false);
      }
    case ServerReceive => ServerReceiveInv(suite, sys);
    case ServerAdvance(seed) => if sys.serverOpen { ServerAdvanceInv(suite, sys, seed); }
  }

  lemma BuiltFacts(suite: Suite, sys: System)
    requires Inv(suite, sys) && sys.built.Some?
    ensures InitOf(suite, sys.built.value, ClientEpoch(sys), sys.log.exchanges)
    ensures Inv(suite, sys.(built := None))
  {
    hide TcpShaped, Wired, InStep, Answers, UpFrames, DownFrames, InitOf, ServerTaskSound, ClientTaskSound, AcksPlaced, Unread, KeysAgree;
  }

  lemma CloseInv(suite: Suite, sys: System, clientOpen: bool, serverOpen: bool)
    requires Inv(suite, sys)
    ensures Inv(suite, sys.(clientOpen := clientOpen, serverOpen := serverOpen))
  {
    hide TcpShaped, Answers, UpFrames, DownFrames, InitOf, ServerTaskSound, ClientTaskSound, AcksPlaced, Unread, KeysAgree, Wired, InStep;
  }

  lemma {:induction false} RunInv(suite: Suite, keys: KeyPair, interval: nat, steps: seq<Step>)
    requires Lawful(suite) && Faithful(suite, keys, interval, steps)
    ensures Inv(suite, Run(suite, keys, interval, steps))
  {
    hide Lawful, Next, Inv, Mistakes;
    if steps == [] {
      StartInv(suite, keys, interval);
    } else {
      var n := |steps| - 1;
      RunInv(suite, keys, interval, steps[..n]);
      NextInv(suite, Run(suite, keys, interval, steps[..n]), steps[n]);
    }
  }
}
