/**
 * One client and one server over a channel that loses, reorders and duplicates datagrams:
 * the packet loops as steps, runs as sequences of steps, and what every run keeps.
 */
module UdpProtocol {
  import opened Basics
  import opened Coordinators
  import opened Epochs
  import opened Exchange
  import opened Transcripts
  import opened UdpEndpoints

  /**
   * built is the init packet the client's TUN loop has built and not yet sent; the tasks say
   * how far each packet loop is; up and down hold every datagram ever sent in a direction, so
   * each may arrive any number of times, at any time, or never.
   */
  datatype System = System(client: Client, clientTask: Task, built: Option<Plaintext>, open: bool,
                           server: Server, serverTask: Task,
                           up: set<Datagram>, down: set<Datagram>, log: Log)

  /** One call of one loop; ClientAdvance and ServerAdvance make a packet loop's next call. */
  datatype Step =
    | ClientBuild(now: int, draw: Option<Seed>, room: nat)
    | ClientSendBuilt
    | ClientSend(text: Plaintext)
    | ClientReceive(down: Datagram)
    | ClientAdvance
    | ServerSend(text: Plaintext)
    | ServerReceive(up: Datagram)
    | ServerAdvance(seed: Seed)

  function Start(keys: KeyPair, interval: nat): (result: System)
  {
    System(Client(None, interval, interval, Endpoint(NewMachine(keys), Udp(NewUdp(keys, false)))), Ready, None, true,
           Server(None, Endpoint(NewMachine(keys), Udp(NewUdp(keys, true)))), Ready, {}, {},
           Log([keys], [keys], [], []))
  }

  function Sent(frames: set<Datagram>, d: Option<Datagram>): (result: set<Datagram>)
  {
    if d.Some? then frames + {d.value} else frames
  }

  function ClientTransmit(sys: System, text: Plaintext): (result: System)
  {
    var (d, ep) := SealUdp(sys.client.ep, text);
    sys.(client := sys.client.(ep := ep), up := Sent(sys.up, d))
  }

  function ServerTransmit(sys: System, text: Plaintext): (result: System)
  {
    var (d, ep) := SealUdp(sys.server.ep, text);
    sys.(server := sys.server.(ep := ep), down := Sent(sys.down, d))
  }

  /** An authenticated datagram at the client: observe, activate, then the control plane. */
  function AdvanceClient(suite: Suite, sys: System): (result: System)
  {
    match sys.clientTask
    case Opened(p) => sys.(client := ClientObserve(sys.client, p.epoch), clientTask := Observed(p))
    case Observed(p) => sys.(client := ClientActivate(sys.client, p.epoch), clientTask := Activated(p))
    case Activated(p) =>
      var (open, c) := ClientService(suite, sys.client, p);
      sys.(client := c, clientTask := Ready, open := open)
    case _ => sys
  }

  /** An authenticated datagram at the server: observe, activate, handle, then send. */
  function AdvanceServer(suite: Suite, sys: System, seed: Seed): (result: System)
  {
    match sys.serverTask
    case Opened(p) => sys.(server := ServerObserve(sys.server, p.epoch), serverTask := Observed(p))
    case Observed(p) => sys.(server := ServerActivate(sys.server, p.epoch), serverTask := Activated(p))
    case Activated(p) =>
      var (task, s) := ServerService(suite, sys.server, p, seed);
      sys.(server := s, serverTask := task)
    case Replying(reply, _) => ServerTransmit(sys.(serverTask := Ready), reply)
    case _ => sys
  }

  /** One step of the code; a step that cannot happen leaves everything as it is. */
  function Move(suite: Suite, sys: System, step: Step): (result: System)
  {
    match step
    case ClientBuild(now, draw, room) =>
      if !sys.open || sys.built.Some? then sys
      else
        var (r, c) := MaybeBuildInit(suite, sys.client, now, draw, room);
        sys.(client := c, built := if r.Ok? then r.value else None)
    case ClientSendBuilt =>
      if !sys.open || sys.built.None? then sys
      else ClientTransmit(sys.(built := None), sys.built.value)
    case ClientSend(text) =>
      if !sys.open || !IsTraffic(text) then sys else ClientTransmit(sys, text)
    case ClientReceive(d) =>
      if !sys.open || sys.clientTask != Ready || d !in sys.down then sys
      else
        (match OpenUdp(sys.client.ep, d)
         case (None, _) => sys
         case (Some(text), ep) =>
           sys.(client := sys.client.(ep := ep), clientTask := Opened(Parcel(d.epoch, text))))
    case ClientAdvance =>
      if !sys.open then sys else AdvanceClient(suite, sys)
    case ServerSend(text) =>
      if !text.Data? then sys else ServerTransmit(sys, text)
    case ServerReceive(d) =>
      if sys.serverTask != Ready || d !in sys.up then sys
      else
        (match OpenUdp(sys.server.ep, d)
         case (None, _) => sys
         case (Some(text), ep) =>
           sys.(server := sys.server.(ep := ep), serverTask := Opened(Parcel(d.epoch, text))))
    case ServerAdvance(seed) => AdvanceServer(suite, sys, seed)
  }

  function Logged(sys: System, sys': System): (result: System)
  {
    sys'.(log := Record(sys.log, sys.client, sys'.client, sys.server, sys'.server))
  }

  function Next(suite: Suite, sys: System, step: Step): (result: System)
  {
    Logged(sys, Move(suite, sys, step))
  }

  function Run(suite: Suite, keys: KeyPair, interval: nat, steps: seq<Step>): (result: System)
  {
    if steps == [] then Start(keys, interval)
    else Next(suite, Run(suite, keys, interval, steps[..|steps| - 1]), steps[|steps| - 1])
  }

  // ---- the invariant ----

  function ClientEpoch(sys: System): (result: uint16) { Current(sys.client.ep) }

  function ServerEpoch(sys: System): (result: uint16) { Current(sys.server.ep) }

  function ServerNewest(sys: System): (result: int) { Newest(sys.log) }

  ghost predicate EndsShaped(c: Client, s: Server, log: Log)
  {
    && Shaped(c.ep, log.clientKeys, false) && c.ep.machine.phase != Staged
    && Shaped(s.ep, log.serverKeys, true) && s.ep.machine.phase != Retiring
  }

  ghost predicate WithinOne(c: Client, s: Server, log: Log)
  {
    Current(s.ep) <= Current(c.ep) <= Newest(log) <= Current(s.ep) + 1
  }

  /** An end has observed what the other sends, and is idle once that is its own newest epoch. */
  ghost predicate Observations(c: Client, s: Server, log: Log)
  {
    && c.ep.machine.maxObserved <= Current(s.ep)
    && s.ep.machine.maxObserved <= Current(c.ep)
    && (c.ep.machine.phase == Idle ==> c.ep.machine.maxObserved == Current(c.ep))
    && (s.ep.machine.phase == Idle ==> s.ep.machine.maxObserved == Newest(log))
  }

  /** Every datagram the client has sent, given its epoch, keys and exchanges. */
  ghost predicate UpFrames(suite: Suite, up: set<Datagram>, epoch: uint16, keys: seq<KeyPair>, xs: seq<Pending>)
  {
    forall d :: d in up ==>
      && d.epoch <= epoch && d.epoch < |keys|
      && d.key == keys[d.epoch].c2s
      && (IsInit(d.text) ==> InitOf(suite, d.text, d.epoch, xs))
  }

  /** Every datagram the server has sent; an ack answers the epoch that carries it. */
  ghost predicate DownFrames(down: set<Datagram>, epoch: uint16, keys: seq<KeyPair>, answers: seq<Transaction>)
  {
    forall d :: d in down ==>
      && d.epoch <= epoch && d.epoch < |keys|
      && d.key == keys[d.epoch].s2c
      && (IsAck(d.text) ==> AnswerOf(d.text, d.epoch, answers))
  }

  /** While an exchange is pending, the packet waiting to be sent is its own. */
  ghost predicate BuiltInit(suite: Suite, built: Option<Plaintext>, c: Client, log: Log)
  {
    built.Some? ==>
      && InitOf(suite, built.value, Current(c.ep), log.exchanges)
      && (c.pending.Some? ==> built.value == InitPacket(suite, c.pending.value))
  }

  ghost predicate Frames(suite: Suite, sys: System)
  {
    && UpFrames(suite, sys.up, ClientEpoch(sys), sys.log.clientKeys, sys.log.exchanges)
    && DownFrames(sys.down, ServerEpoch(sys), sys.log.serverKeys, sys.log.answers)
    && BuiltInit(suite, sys.built, sys.client, sys.log)
  }

  ghost predicate UpParcel(suite: Suite, p: Parcel, epoch: uint16, xs: seq<Pending>)
  {
    p.epoch <= epoch && (IsInit(p.text) ==> InitOf(suite, p.text, p.epoch, xs))
  }

  ghost predicate DownParcel(p: Parcel, epoch: uint16, answers: seq<Transaction>)
  {
    p.epoch <= epoch && (IsAck(p.text) ==> AnswerOf(p.text, p.epoch, answers))
  }

  ghost predicate ClientTaskSound(task: Task, epoch: uint16, answers: seq<Transaction>)
  {
    match task
    case Ready => true
    case Opened(p) => DownParcel(p, epoch, answers)
    case Observed(p) => DownParcel(p, epoch, answers)
    case Activated(p) => DownParcel(p, epoch, answers)
    case _ => false
  }

  ghost predicate ServerTaskSound(suite: Suite, task: Task, s: Server, epoch: uint16, log: Log)
  {
    match task
    case Ready => true
    case Opened(p) => UpParcel(suite, p, epoch, log.exchanges)
    case Observed(p) => UpParcel(suite, p, epoch, log.exchanges) && p.epoch <= s.ep.machine.maxObserved
    case Activated(p) => UpParcel(suite, p, epoch, log.exchanges)
    case Replying(reply, _) => IsAck(reply) ==> AnswerOf(reply, Current(s.ep), log.answers)
    case Promoting(_) => false
  }

  ghost predicate Tasks(suite: Suite, sys: System)
  {
    && ClientTaskSound(sys.clientTask, ServerEpoch(sys), sys.log.answers)
    && ServerTaskSound(suite, sys.serverTask, sys.server, ClientEpoch(sys), sys.log)
  }

  ghost predicate Inv(suite: Suite, sys: System)
  {
    && EndsShaped(sys.client, sys.server, sys.log)
    && WithinOne(sys.client, sys.server, sys.log)
    && Observations(sys.client, sys.server, sys.log)
    && KeysAgree(sys.log)
    && Exchanges(sys.client, sys.log)
    && Transactions(suite, sys.server, sys.log)
    && Frames(suite, sys)
    && Tasks(suite, sys)
  }

  lemma StartInv(suite: Suite, keys: KeyPair, interval: nat)
    ensures Inv(suite, Start(keys, interval))
  {
    NewShaped(keys, false);
    NewShaped(keys, true);
  }

  // ---- sending ----

  lemma ClientTransmitInv(suite: Suite, sys: System, text: Plaintext)
    requires Inv(suite, sys)
    requires IsInit(text) ==> InitOf(suite, text, ClientEpoch(sys), sys.log.exchanges)
    ensures Inv(suite, ClientTransmit(sys, text))
    ensures Allocated(ClientTransmit(sys, text).client.ep) == Allocated(sys.client.ep)
  {
    hide Shaped, InitOf, UdpEncrypt, Transactions, KeysAgree, DownFrames, ClientTaskSound;
    SealShaped(sys.client.ep, sys.log.clientKeys, false, text);
    ShapedFacts(sys.client.ep, sys.log.clientKeys, false);
    ShapedFacts(SealUdp(sys.client.ep, text).1, sys.log.clientKeys, false);
  }

  lemma ServerTransmitInv(suite: Suite, sys: System, text: Plaintext)
    requires Inv(suite, sys)
    requires IsAck(text) ==> AnswerOf(text, ServerEpoch(sys), sys.log.answers)
    ensures Inv(suite, ServerTransmit(sys, text))
    ensures Allocated(ServerTransmit(sys, text).server.ep) == Allocated(sys.server.ep)
  {
    hide Shaped, AnswerOf, UdpEncrypt, Exchanges, Answers, KeysAgree, UpFrames, BuiltInit, UpParcel;
    SealShaped(sys.server.ep, sys.log.serverKeys, true, text);
    ShapedFacts(sys.server.ep, sys.log.serverKeys, true);
    ShapedFacts(SealUdp(sys.server.ep, text).1, sys.log.serverKeys, true);
  }

  lemma BuiltFacts(suite: Suite, sys: System)
    requires Inv(suite, sys) && sys.built.Some?
    ensures InitOf(suite, sys.built.value, ClientEpoch(sys), sys.log.exchanges)
    ensures Inv(suite, sys.(built := None))
  {
    hide Shaped, Answers, InitOf;
  }

  // ---- receiving ----

  lemma ClientReceiveInv(suite: Suite, sys: System, d: Datagram)
    requires Inv(suite, sys)
    ensures Inv(suite, Next(suite, sys, ClientReceive(d)))
  {
    hide Shaped, InitOf, AnswerOf, UdpDecrypt, Transactions, KeysAgree, UpFrames, ServerTaskSound;
    OpenShaped(sys.client.ep, sys.log.clientKeys, false, d);
    ShapedFacts(sys.client.ep, sys.log.clientKeys, false);
    ShapedFacts(OpenUdp(sys.client.ep, d).1, sys.log.clientKeys, false);
  }

  lemma ServerReceiveInv(suite: Suite, sys: System, d: Datagram)
    requires Inv(suite, sys)
    ensures Inv(suite, Next(suite, sys, ServerReceive(d)))
  {
    hide Shaped, InitOf, UdpDecrypt, Answers, Exchanges, KeysAgree, DownFrames, BuiltInit, ClientTaskSound;
    OpenShaped(sys.server.ep, sys.log.serverKeys, true, d);
    ShapedFacts(sys.server.ep, sys.log.serverKeys, true);
    ShapedFacts(OpenUdp(sys.server.ep, d).1, sys.log.serverKeys, true);
  }

  // ---- the client builds ----

  lemma UpFramesGrow(suite: Suite, up: set<Datagram>, epoch: uint16, keys: seq<KeyPair>, xs: seq<Pending>, p: Pending)
    requires UpFrames(suite, up, epoch, keys, xs)
    ensures UpFrames(suite, up, epoch, keys, xs + [p])
  {
    forall d | d in up && IsInit(d.text)
      ensures InitOf(suite, d.text, d.epoch, xs + [p])
    {
      InitOfGrows(suite, d.text, d.epoch, xs, p);
    }
  }

  lemma ServerTaskGrows(suite: Suite, task: Task, s: Server, epoch: uint16, log: Log, p: Pending)
    requires ServerTaskSound(suite, task, s, epoch, log)
    ensures ServerTaskSound(suite, task, s, epoch, log.(exchanges := log.exchanges + [p]))
  {
  }

  lemma OpenExchangeInv(suite: Suite, sys: System, c: Client, p: Pending, built: Option<Plaintext>)
    requires Inv(suite, sys) && sys.client.pending.None? && sys.client.ep.machine.phase == Idle
    requires p.startKeys == sys.client.ep.machine.current && p.carrier == ClientEpoch(sys)
    requires c.pending == Some(p) && c.ep == sys.client.ep
    requires built.Some? ==> built.value == InitPacket(suite, p)
    ensures Inv(suite, sys.(client := c, built := built, log := sys.log.(exchanges := sys.log.exchanges + [p])))
  {
    hide UpFrames, ServerTaskSound, DownFrames, Answers;
    var sys' := sys.(client := c, built := built, log := sys.log.(exchanges := sys.log.exchanges + [p]));
    var xs, xs' := sys.log.exchanges, sys'.log.exchanges;
    UpFramesGrow(suite, sys.up, ClientEpoch(sys), sys.log.clientKeys, xs, p);
    ServerTaskGrows(suite, sys.serverTask, sys.server, ClientEpoch(sys), sys.log, p);
    assert forall k: nat :: k < |xs| ==> xs'[k] == xs[k];
    assert xs'[ClientEpoch(sys)] == p;
    assert Exchanges(c, sys'.log);
    assert Transactions(suite, sys.server, sys'.log);
  }

  /** A retry, a refusal or a timer not yet due changes only the packet waiting to be sent. */
  lemma NoExchangeInv(suite: Suite, sys: System, c: Client, built: Option<Plaintext>)
    requires Inv(suite, sys)
    requires c.pending == sys.client.pending && c.ep == sys.client.ep
    requires built.Some? ==> c.pending.Some? && built.value == InitPacket(suite, c.pending.value)
    ensures Inv(suite, sys.(client := c, built := built))
  {
    hide Shaped, Transactions, KeysAgree, UpFrames, DownFrames, ServerTaskSound, ClientTaskSound, InitPacket;
    var sys' := sys.(client := c, built := built);
    assert Current(c.ep) == Current(sys.client.ep);
    assert Exchanges(c, sys.log);
    assert BuiltInit(suite, built, c, sys.log);
    assert Frames(suite, sys') && Tasks(suite, sys');
  }

  /** A pending exchange never finds its carrier epoch changed, whatever the caller passes. */
  lemma BuildNeverRefused(suite: Suite, sys: System, now: int, draw: Option<Seed>, room: nat)
    requires Inv(suite, sys)
    ensures MaybeBuildInit(suite, sys.client, now, draw, room).0 != Err(CarrierChanged)
  {
  }

  lemma ClientBuildInv(suite: Suite, sys: System, now: int, draw: Option<Seed>, room: nat)
    requires Inv(suite, sys)
    ensures Inv(suite, Next(suite, sys, ClientBuild(now, draw, room)))
  {
    hide Inv;
    var (r, c) := MaybeBuildInit(suite, sys.client, now, draw, room);
    var built := if r.Ok? then r.value else None;
    if sys.open && sys.built.None? {
      if sys.client.pending.None? && c.pending.Some? {
        OpenExchangeInv(suite, sys, c, c.pending.value, built);
      } else {
        NoExchangeInv(suite, sys, c, built);
      }
    }
  }

  // ---- the server's packet loop ----

  lemma ServerObserveInv(suite: Suite, sys: System, p: Parcel)
    requires Inv(suite, sys) && sys.serverTask == Opened(p)
    ensures Inv(suite, AdvanceServer(suite, sys, 0))
    ensures Allocated(AdvanceServer(suite, sys, 0).server.ep) == Allocated(sys.server.ep)
  {
    hide Shaped, InitOf, Answers, UpFrames;
    LastEpoch(suite, sys.server, sys.log);
    ObserveShaped(sys.server.ep, sys.log.serverKeys, true, p.epoch);
    ShapedFacts(sys.server.ep, sys.log.serverKeys, true);
  }

  lemma ServerActivateInv(suite: Suite, sys: System, p: Parcel)
    requires Inv(suite, sys) && sys.serverTask == Observed(p)
    ensures Inv(suite, AdvanceServer(suite, sys, 0))
    ensures Allocated(AdvanceServer(suite, sys, 0).server.ep) == Allocated(sys.server.ep)
    ensures p.epoch == ServerNewest(sys) ==> AdvanceServer(suite, sys, 0).server.ep.machine.phase == Idle
  {
    hide Shaped, InitOf, Answers, UpFrames, ActivateSend;
    LastEpoch(suite, sys.server, sys.log);
    ActivateShaped(sys.server.ep, sys.log.serverKeys, true, p.epoch);
    ShapedFacts(sys.server.ep, sys.log.serverKeys, true);
    ShapedFacts(ActivateSend(sys.server.ep, p.epoch), sys.log.serverKeys, true);
  }

  /** The server, staged with the answer to the pending exchange. */
  lemma AnsweredInv(suite: Suite, sys: System, ep: Endpoint, answer: Response)
    requires Inv(suite, sys) && ServerNewest(sys) == ServerEpoch(sys) == ClientEpoch(sys) < MAX_EPOCH
    requires sys.client.pending.Some? && sys.server.ep.machine.phase == Idle
    requires var p := sys.client.pending.value;
             && (suite.V1? ==> |answer.body| == KEY_SIZE) && answer.body != [] && FullSize(answer.keys)
             && Finish(suite, p.seed, p.startKeys, sys.server.ep.machine.current, answer.body) == Some(answer.keys)
    requires Shaped(ep, sys.log.serverKeys + [answer.keys], true) && ep.machine.phase == Staged
    requires ep.machine.currentEpoch == sys.server.ep.machine.currentEpoch
    requires ep.machine.maxObserved == sys.server.ep.machine.maxObserved
    ensures var n := ServerNewest(sys);
            var response := Service(AckKind(suite), answer.body);
            var t := Transaction(InitPacket(suite, sys.client.pending.value), response, n, n + 1, false, false);
            Inv(suite, sys.(server := Server(Some(t), ep), serverTask := Replying(response, Some(n + 1)),
                            log := sys.log.(serverKeys := sys.log.serverKeys + [answer.keys], answers := sys.log.answers + [t])))
  {
    hide Transactions, Shaped, UpFrames, DownFrames, InitOf, Finish;
    var n := ServerNewest(sys);
    var response := Service(AckKind(suite), answer.body);
    var t := Transaction(InitPacket(suite, sys.client.pending.value), response, n, n + 1, false, false);
    var s' := Server(Some(t), ep);
    ShapedFacts(sys.client.ep, sys.log.clientKeys, false);
    ShapedFacts(sys.server.ep, sys.log.serverKeys, true);
    AnsweredTransactions(suite, sys.client, sys.server, s', sys.log, answer);
    ShapedFacts(ep, sys.log.serverKeys + [answer.keys], true);
    var log' := sys.log.(serverKeys := sys.log.serverKeys + [answer.keys], answers := sys.log.answers + [t]);
    assert log'.answers[n] == t;
    DownFramesGrow(sys.down, ServerEpoch(sys), sys.log, log');
    assert Exchanges(sys.client, log');
  }

  lemma DownFramesGrow(down: set<Datagram>, epoch: uint16, log: Log, log': Log)
    requires DownFrames(down, epoch, log.serverKeys, log.answers)
    requires log.serverKeys <= log'.serverKeys && log.answers <= log'.answers
    ensures DownFrames(down, epoch, log'.serverKeys, log'.answers)
  {
  }

  lemma OpenTransactionInv(suite: Suite, sys: System, p: Parcel, seed: Seed)
    requires Lawful(suite)
    requires Inv(suite, sys) && sys.serverTask == Activated(p) && IsRequest(suite, p.text)
    requires p.epoch == ServerNewest(sys) == ClientEpoch(sys)
    requires sys.server.ep.machine.phase == Idle
    requires sys.client.pending.Some? && p.text == InitPacket(suite, sys.client.pending.value)
    requires sys.client.pending.value.startKeys == sys.server.ep.machine.current
    ensures var (r, s') := OpenTransaction(suite, sys.server, p.epoch, p.text, seed);
            && (r.Ok? ==> r.value.Some?)
            && (r.Ok? ==> var task := Replying(r.value.value.response, Some(r.value.value.epoch));
                          Inv(suite, Logged(sys, sys.(server := s', serverTask := task))))
            && (r.Err? ==> s' == sys.server)
  {
    hide Lawful, Respond, Finish, StartRekey, Frames, Answers;
    var n, current := ServerNewest(sys), sys.server.ep.machine.current;
    var answer := Respond(suite, seed, current, p.text.body);
    ExchangeAgrees(suite, sys.client.pending.value.seed, seed, current);
    if answer.Some? {
      StartShaped(sys.server.ep, sys.log.serverKeys, true, answer.value.keys);
      if n < MAX_EPOCH {
        AnsweredInv(suite, sys, StartRekey(sys.server.ep, answer.value.keys).1, answer.value);
      }
    }
  }

  /** While a transaction is incomplete its answer is the one the send epoch carries. */
  lemma RepeatedRequest(suite: Suite, sys: System)
    requires Inv(suite, sys) && sys.server.transaction.Some?
    requires !sys.server.transaction.value.Complete()
    ensures AnswerOf(sys.server.transaction.value.response, ServerEpoch(sys), sys.log.answers)
  {
    var n := ServerNewest(sys);
    assert Answers(suite, sys.log.answers[n - 1], n - 1, sys.log.exchanges[n - 1],
                   sys.log.serverKeys[n - 1], sys.log.serverKeys[n]);
  }

  /** A packet that opens no transaction changes only what the loop does next. */
  lemma ServerTaskInv(suite: Suite, sys: System, task: Task)
    requires Inv(suite, sys)
    requires task == Ready || (task.Replying? && (IsAck(task.reply) ==> AnswerOf(task.reply, ServerEpoch(sys), sys.log.answers)))
    ensures Inv(suite, sys.(serverTask := task))
  {
    hide Shaped, Answers, UpFrames, DownFrames;
  }

  lemma ActivatedFacts(suite: Suite, sys: System, p: Parcel)
    requires Inv(suite, sys) && sys.serverTask == Activated(p)
    ensures Exchanges(sys.client, sys.log) && Transactions(suite, sys.server, sys.log) && KeysAgree(sys.log)
    ensures p.epoch <= ClientEpoch(sys) <= ServerNewest(sys)
    ensures IsInit(p.text) ==> InitOf(suite, p.text, p.epoch, sys.log.exchanges)
    ensures sys.server.ep.machine.phase == Idle ==>
              ServerEpoch(sys) == ServerNewest(sys) && sys.server.ep.machine.current == sys.log.serverKeys[ServerNewest(sys)]
  {
  }

  lemma ServerHandleInv(suite: Suite, sys: System, p: Parcel, seed: Seed)
    requires Lawful(suite)
    requires Inv(suite, sys) && sys.serverTask == Activated(p)
    ensures Inv(suite, Logged(sys, AdvanceServer(suite, sys, seed)))
  {
    hide Inv, Lawful, OpenTransaction, InitOf, Exchanges, Transactions, KeysAgree, AnswerOf;
    ActivatedFacts(suite, sys, p);
    var t := sys.server.transaction;
    var (task, s) := ServerService(suite, sys.server, p, seed);
    if IsRequest(suite, p.text) {
      if t.Some? && t.value.request == p.text {
        if !t.value.Complete() { RepeatedRequest(suite, sys); }
      } else if t.Some? && (!t.value.Complete() || p.epoch != t.value.epoch) {
      } else if sys.server.ep.machine.phase == Idle {
        AcceptedInit(suite, sys.client, sys.server, sys.log, p);
        OpenTransactionInv(suite, sys, p, seed);
      }
    }
    if s == sys.server && (task.Replying? && IsAck(task.reply) ==> AnswerOf(task.reply, ServerEpoch(sys), sys.log.answers)) {
      ServerTaskInv(suite, sys, task);
    }
  }

  lemma ServerAdvanceInv(suite: Suite, sys: System, seed: Seed)
    requires Lawful(suite) && Inv(suite, sys)
    ensures Inv(suite, Logged(sys, AdvanceServer(suite, sys, seed)))
  {
    hide Inv, Lawful, ServerService, ServerObserve, ServerActivate, SealUdp, AnswerOf;
    match sys.serverTask
    case Opened(p) => ServerObserveInv(suite, sys, p);
    case Observed(p) => ServerActivateInv(suite, sys, p);
    case Activated(p) => ServerHandleInv(suite, sys, p, seed);
    case Replying(reply, _) =>
      ReplyingFacts(suite, sys, reply);
      ServerTaskInv(suite, sys, Ready);
      ServerTransmitInv(suite, sys.(serverTask := Ready), reply);
    case _ =>
  }

  lemma ReplyingFacts(suite: Suite, sys: System, reply: Plaintext)
    requires Inv(suite, sys) && sys.serverTask.Replying? && sys.serverTask.reply == reply
    ensures IsAck(reply) ==> AnswerOf(reply, ServerEpoch(sys), sys.log.answers)
  {
  }

  // ---- the client's packet loop ----

  lemma ClientObserveInv(suite: Suite, sys: System, p: Parcel)
    requires Inv(suite, sys) && sys.clientTask == Opened(p)
    ensures Inv(suite, AdvanceClient(suite, sys))
    ensures Allocated(AdvanceClient(suite, sys).client.ep) == Allocated(sys.client.ep)
    ensures ClientEpoch(AdvanceClient(suite, sys)) == ClientEpoch(sys)
    ensures p.epoch == ClientEpoch(sys) ==> AdvanceClient(suite, sys).client.ep.machine.phase == Idle
  {
    hide Shaped, InitOf, Answers, UpFrames, AnswerOf;
    ObserveShaped(sys.client.ep, sys.log.clientKeys, false, p.epoch);
    ShapedFacts(sys.client.ep, sys.log.clientKeys, false);
  }

  lemma ClientActivateInv(suite: Suite, sys: System, p: Parcel)
    requires Inv(suite, sys) && sys.clientTask == Observed(p)
    ensures Inv(suite, AdvanceClient(suite, sys))
    ensures AdvanceClient(suite, sys).client == sys.client
  {
    hide Shaped, InitOf, Answers, UpFrames, AnswerOf;
    ActivateShaped(sys.client.ep, sys.log.clientKeys, false, p.epoch);
    ShapedFacts(sys.client.ep, sys.log.clientKeys, false);
  }

  /** An ack the client acts on answers its pending exchange, and brings the server's keys. */
  lemma ClientAckInv(suite: Suite, sys: System, p: Parcel)
    requires Inv(suite, sys) && sys.clientTask == Activated(p) && IsAck(p.text)
    ensures var (r, c) := HandleAck(suite, sys.client, p.epoch, p.text);
            && r.Ok? && (r.value <==> IsAnswer(suite, sys.client, p.epoch, p.text))
            && (!r.value ==> c == sys.client)
            && (r.value ==> Current(c.ep) == p.epoch + 1 == Newest(sys.log))
            && (r.value ==> Inv(suite, Logged(sys, sys.(client := c, clientTask := Ready))))
  {
    hide Answers, Shaped, Finish, Transactions, KeysAgree, DownFrames, StartRekey, ActivateSend, InitOf;
    ShapedFacts(sys.client.ep, sys.log.clientKeys, false);
    var c := sys.client;
    if IsAnswer(suite, c, p.epoch, p.text) {
      AcceptedAck(suite, c, sys.server, sys.log, p);
      var k := ClientEpoch(sys);
      var ks, keys := sys.log.clientKeys, sys.log.serverKeys[k + 1];
      ShapedFacts(sys.server.ep, sys.log.serverKeys, true);
      StartShaped(c.ep, ks, false, keys);
      var ep := StartRekey(c.ep, keys).1;
      ActivateShaped(ep, ks + [keys], false, k + 1);
      ShapedFacts(ActivateSend(ep, k + 1), ks + [keys], false);
      ClientAdvancedInv(suite, sys, ActivateSend(ep, k + 1), keys);
    }
  }

  /** The client, moved to the server's newest epoch. */
  lemma ClientAdvancedInv(suite: Suite, sys: System, ep: Endpoint, keys: KeyPair)
    requires Inv(suite, sys) && sys.client.pending.Some?
    requires ServerNewest(sys) == ClientEpoch(sys) + 1 && keys == sys.log.serverKeys[ServerNewest(sys)]
    requires Shaped(ep, sys.log.clientKeys + [keys], false) && ep.machine.phase == Retiring
    requires ep.machine.maxObserved == sys.client.ep.machine.maxObserved
    ensures Inv(suite, sys.(client := sys.client.(pending := None, ep := ep), clientTask := Ready,
                            log := sys.log.(clientKeys := sys.log.clientKeys + [keys])))
  {
    hide Shaped, Finish, Answers, AnswerOf;
    ShapedFacts(sys.client.ep, sys.log.clientKeys, false);
    ShapedFacts(ep, sys.log.clientKeys + [keys], false);
    var log' := sys.log.(clientKeys := sys.log.clientKeys + [keys]);
    assert KeysAgree(log');
  }

  lemma ClientTaskInv(suite: Suite, sys: System, open: bool)
    requires Inv(suite, sys)
    ensures Inv(suite, sys.(clientTask := Ready, open := open))
  {
    hide Shaped, Answers, UpFrames, DownFrames;
  }

  lemma ClientAdvanceInv(suite: Suite, sys: System)
    requires Inv(suite, sys) && sys.open
    ensures Inv(suite, Logged(sys, AdvanceClient(suite, sys)))
  {
    hide Inv, ObservePeer, ActivateSend, HandleAck, IsAnswer;
    match sys.clientTask
    case Opened(p) => ClientObserveInv(suite, sys, p);
    case Observed(p) => ClientActivateInv(suite, sys, p);
    case Activated(p) =>
      var (open, c) := ClientService(suite, sys.client, p);
      ClientTaskInv(suite, sys, open);
      if IsAck(p.text) {
        ClientAckInv(suite, sys, p);
        assert open;
      }
    case _ =>
  }

  // ---- every run ----

  lemma NextInv(suite: Suite, sys: System, step: Step)
    requires Lawful(suite) && Inv(suite, sys)
    ensures Inv(suite, Next(suite, sys, step))
  {
    hide Inv, Lawful, InitOf, MaybeBuildInit, OpenUdp, SealUdp, AdvanceClient, AdvanceServer, AnswerOf;
    match step
    case ClientBuild(now, draw, room) => ClientBuildInv(suite, sys, now, draw, room);
    case ClientSendBuilt =>
      if sys.open && sys.built.Some? {
        BuiltFacts(suite, sys);
        ClientTransmitInv(suite, sys.(built := None), sys.built.value);
      }
    case ClientSend(text) =>
      if sys.open && IsTraffic(text) { ClientTransmitInv(suite, sys, text); }
    case ClientReceive(d) => ClientReceiveInv(suite, sys, d);
    case ClientAdvance => if sys.open { ClientAdvanceInv(suite, sys); }
    case ServerSend(text) =>
      if text.Data? { ServerTransmitInv(suite, sys, text); }
    case ServerReceive(d) => ServerReceiveInv(suite, sys, d);
    case ServerAdvance(seed) => ServerAdvanceInv(suite, sys, seed);
  }

  lemma {:induction false} RunInv(suite: Suite, keys: KeyPair, interval: nat, steps: seq<Step>)
    requires Lawful(suite)
    ensures Inv(suite, Run(suite, keys, interval, steps))
  {
    hide Lawful, Next;
    if steps == [] {
      StartInv(suite, keys, interval);
    } else {
      var n := |steps| - 1;
      RunInv(suite, keys, interval, steps[..n]);
      NextInv(suite, Run(suite, keys, interval, steps[..n]), steps[n]);
    }
  }
}
