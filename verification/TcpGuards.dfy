/** Runs in which no ack can be mistaken: those that leave nothing stale about, and those that resend no init. */
module TcpGuards {
  import opened Basics
  import opened Coordinators
  import opened Epochs
  import opened Exchange
  import opened TcpChannels
  import opened TcpEndpoints
  import opened TcpProtocol
  import opened TcpTheorems
  import opened Transcripts

  // ---- which runs are guarded ----

  /** No ack carried by epoch e is still on its way to the client. */
  ghost predicate NoAckUnder(down: Channel, task: Task, e: uint16)
  {
    && (forall i :: down.got <= i < |down.sent| && IsAck(down.sent[i].text) ==> down.sent[i].epoch != e)
    && (Held(task).Some? && IsAck(Held(task).value.text) ==> Held(task).value.epoch != e)
  }

  /** No init carried by an epoch below e is still on its way to the server. */
  ghost predicate NoInitBelow(up: Channel, task: Task, e: uint16)
  {
    && (forall i :: up.got <= i < |up.sent| && IsInit(up.sent[i].text) ==> up.sent[i].epoch >= e)
    && (Held(task).Some? && IsInit(Held(task).value.text) ==> Held(task).value.epoch >= e)
  }

  /** Every copy of earlier inits has been read and every answer to them delivered. */
  ghost predicate NothingStale(sys: System)
  {
    && NoAckUnder(sys.down, sys.clientTask, ClientEpoch(sys))
    && NoInitBelow(sys.up, sys.serverTask, ClientEpoch(sys))
    && !(sys.serverTask.Replying? && IsAck(sys.serverTask.reply))
  }

  predicate OpensExchange(suite: Suite, sys: System, step: Step)
  {
    sys.client.pending.None? && Move(suite, sys, step).client.pending.Some?
  }

  /** A run in which no exchange is opened while an earlier one still has a copy or answer about. */
  ghost predicate Guarded(suite: Suite, keys: KeyPair, interval: nat, steps: seq<Step>)
  {
    steps == [] ||
    var rest, sys := steps[..|steps| - 1], Run(suite, keys, interval, steps[..|steps| - 1]);
    && Guarded(suite, keys, interval, rest)
    && (OpensExchange(suite, sys, steps[|steps| - 1]) ==> NothingStale(sys))
  }

  // ---- guarded runs are faithful ----

  /** While an exchange is pending, an ack under its carrier epoch can only be its answer. */
  ghost predicate OnlyAnswer(down: Channel, task: Task, e: uint16, answers: seq<Transaction>)
  {
    && (forall i :: 0 <= down.got <= i < |down.sent| && IsAck(down.sent[i].text) && down.sent[i].epoch == e ==>
          AnswerOf(down.sent[i].text, e, answers))
    && (Held(task).Some? && IsAck(Held(task).value.text) && Held(task).value.epoch == e ==>
          AnswerOf(Held(task).value.text, e, answers))
  }

  ghost predicate PendingSound(sys: System)
  {
    sys.client.pending.Some? ==>
      && OnlyAnswer(sys.down, sys.clientTask, ClientEpoch(sys), sys.log.answers)
      && NoInitBelow(sys.up, sys.serverTask, ClientEpoch(sys))
      && (sys.serverTask.Replying? && IsAck(sys.serverTask.reply) && ServerEpoch(sys) == ClientEpoch(sys) ==>
            sys.server.ep.machine.phase == Staged)
  }

  lemma NoInitAppended(up: Channel, f: TcpFrame, task: Task, e: uint16)
    requires NoInitBelow(up, task, e) && f.epoch >= e
    ensures NoInitBelow(Appended(up, f), task, e)
  {
  }

  lemma OnlyAnswerAppended(down: Channel, f: TcpFrame, task: Task, e: uint16, answers: seq<Transaction>)
    requires OnlyAnswer(down, task, e, answers)
    requires IsAck(f.text) && f.epoch == e ==> AnswerOf(f.text, e, answers)
    ensures OnlyAnswer(Appended(down, f), task, e, answers)
  {
  }

  lemma OnlyAnswerRead(down: Channel, e: uint16, answers: seq<Transaction>)
    requires OnlyAnswer(down, Ready, e, answers) && down.got < |down.sent|
    ensures var f := down.sent[down.got];
            OnlyAnswer(Read(down), Opened(Parcel(f.epoch, f.text)), e, answers)
  {
  }

  lemma NoInitRead(up: Channel, e: uint16)
    requires NoInitBelow(up, Ready, e) && up.got < |up.sent|
    ensures NoInitBelow(Read(up), Opened(Parcel(up.sent[up.got].epoch, up.sent[up.got].text)), e)
  {
  }

  lemma NoInitMoved(up: Channel, task: Task, task': Task, e: uint16)
    requires Held(task) == Held(task') || Held(task').None?
    ensures NoInitBelow(up, task, e) ==> NoInitBelow(up, task', e)
  {
  }

  lemma OnlyAnswerGrows(down: Channel, task: Task, e: uint16, answers: seq<Transaction>, t: Transaction)
    requires OnlyAnswer(down, task, e, answers)
    ensures OnlyAnswer(down, task, e, answers + [t])
  {
  }

  lemma ClientSealed(suite: Suite, sys: System, text: Plaintext)
    requires Inv(suite, sys)
    ensures var (f, ep) := SealTcp(sys.client.ep, text);
            ep.machine == sys.client.ep.machine && (f.Some? ==> f.value.epoch == ClientEpoch(sys) && f.value.text == text)
  {
    hide Streams, Frames, Transactions, Exchanges, KeysAgree, AcksPlaced, AnswerAhead, ServerTaskSound, ClientTaskSound;
  }

  lemma ClientTransmitSound(suite: Suite, sys: System, text: Plaintext)
    requires Inv(suite, sys) && PendingSound(sys)
    ensures PendingSound(ClientTransmit(sys, text).1)
  {
    hide Inv, OnlyAnswer, NoInitBelow, SealTcp;
    ClientSealed(suite, sys, text);
    var f := SealTcp(sys.client.ep, text).0;
    if f.Some? && sys.client.pending.Some? { NoInitAppended(sys.up, f.value, sys.serverTask, ClientEpoch(sys)); }
  }

  lemma ServerTransmitSound(suite: Suite, sys: System, text: Plaintext)
    requires Inv(suite, sys) && PendingSound(sys)
    requires sys.client.pending.Some? && IsAck(text) && ServerEpoch(sys) == ClientEpoch(sys) ==>
               AnswerOf(text, ClientEpoch(sys), sys.log.answers)
    ensures PendingSound(ServerTransmit(sys, text).1)
  {
    hide Inv, OnlyAnswer, NoInitBelow, SealTcp;
    SealedFacts(suite, sys, text);
    var f := SealTcp(sys.server.ep, text).0;
    if f.Some? && sys.client.pending.Some? {
      OnlyAnswerAppended(sys.down, f.value, sys.clientTask, ClientEpoch(sys), sys.log.answers);
    }
  }

  /** With nothing stale about, a new exchange finds no ack it could mistake for its answer. */
  lemma BuildSound(suite: Suite, sys: System, now: int, draw: Option<Seed>, room: nat)
    requires PendingSound(sys)
    requires OpensExchange(suite, sys, ClientBuild(now, draw, room)) ==> NothingStale(sys)
    ensures PendingSound(Move(suite, sys, ClientBuild(now, draw, room)))
  {
    BuildKeepsEnd(suite, sys.client, now, draw, room);
  }

  lemma BuildKeepsEnd(suite: Suite, c: Client, now: int, draw: Option<Seed>, room: nat)
    ensures var c' := MaybeBuildInit(suite, c, now, draw, room).1;
            c'.ep == c.ep && (c.pending.Some? ==> c'.pending == c.pending)
  {
  }

  lemma ReadSound(suite: Suite, sys: System)
    requires PendingSound(sys)
    ensures PendingSound(Move(suite, sys, ClientReceive)) && PendingSound(Move(suite, sys, ServerReceive))
  {
    hide OnlyAnswer, NoInitBelow;
    if sys.client.pending.Some? {
      if sys.clientTask == Ready && sys.down.got < |sys.down.sent| {
        OnlyAnswerRead(sys.down, ClientEpoch(sys), sys.log.answers);
      }
      if sys.serverTask == Ready && sys.up.got < |sys.up.sent| { NoInitRead(sys.up, ClientEpoch(sys)); }
    }
  }

  lemma ClientAdvanceSound(suite: Suite, sys: System)
    requires PendingSound(sys)
    ensures PendingSound(AdvanceClient(suite, sys))
  {
    hide NoInitBelow, HandleAck;
    if sys.clientTask.Observed? { UnmovedAck(suite, sys.client, sys.clientTask.parcel); }
  }

  /** A repeated answer never goes out under the carrier epoch of a pending exchange. */
  lemma ServerHandleSound(suite: Suite, sys: System, p: Parcel, seed: Seed)
    requires Inv(suite, sys) && PendingSound(sys) && sys.serverTask == Observed(p)
    ensures PendingSound(AdvanceServer(suite, sys, seed))
  {
    hide Inv, OnlyAnswer, NoInitBelow, Exchanges, Transactions, KeysAgree, InitOf, Handle;
    ObservedFacts(suite, sys, p);
    LastEpoch(suite, sys.server, sys.log);
    HandleAnswers(suite, sys.server, p.epoch, p.text, seed);
    var (task, _) := ServerService(suite, sys.server, p, seed);
    NoInitMoved(sys.up, sys.serverTask, task, ClientEpoch(sys));
    if sys.client.pending.Some? { HeldInit(sys.up, sys.serverTask, p, ClientEpoch(sys)); }
  }

  lemma HeldInit(up: Channel, task: Task, p: Parcel, e: uint16)
    requires NoInitBelow(up, task, e) && task == Observed(p)
    ensures IsInit(p.text) ==> p.epoch >= e
  {
  }

  /** An answer either comes from the remembered transaction or leaves the server staged. */
  lemma HandleAnswers(suite: Suite, s: Server, carrier: uint16, request: Plaintext, seed: Seed)
    ensures var (r, s') := Handle(suite, s, carrier, request, seed);
            && s'.ep.machine.currentEpoch == s.ep.machine.currentEpoch
            && (r.Ok? && r.value.Some? ==>
                  || s'.ep.machine.phase == Staged
                  || (s' == s && s.transaction.Some? && s.transaction.value.carrier == carrier))
  {
  }

  lemma ServerReplySound(suite: Suite, sys: System)
    requires Inv(suite, sys) && PendingSound(sys) && sys.serverTask.Replying?
    ensures PendingSound(AdvanceServer(suite, sys, 0))
  {
    hide Inv, OnlyAnswer, NoInitBelow, SealTcp;
    ReplyAnswers(suite, sys);
    ServerTransmitSound(suite, sys, sys.serverTask.reply);
    NoInitMoved(sys.up, sys.serverTask, Ready, ClientEpoch(sys));
    NoInitMoved(sys.up, sys.serverTask, Promoting(if sys.serverTask.epoch.Some? then sys.serverTask.epoch.value else 0), ClientEpoch(sys));
  }

  lemma ReplyAnswers(suite: Suite, sys: System)
    requires Inv(suite, sys) && PendingSound(sys) && sys.serverTask.Replying?
    ensures sys.client.pending.Some? && IsAck(sys.serverTask.reply) && ServerEpoch(sys) == ClientEpoch(sys) ==>
              AnswerOf(sys.serverTask.reply, ClientEpoch(sys), sys.log.answers)
  {
    hide TcpShaped, Streams, Frames, Answers, Exchanges, KeysAgree, AcksPlaced, OnlyAnswer, NoInitBelow, AnswerAhead;
    TcpShapedFacts(sys.server.ep, sys.log.serverKeys, true);
  }

  lemma ServerAdvanceSound(suite: Suite, sys: System, seed: Seed)
    requires Inv(suite, sys) && PendingSound(sys)
    ensures PendingSound(AdvanceServer(suite, sys, seed))
  {
    hide Inv, OnlyAnswer, NoInitBelow, ServerService, ServerTransmit;
    match sys.serverTask
    case Opened(p) => NoInitMoved(sys.up, sys.serverTask, Observed(p), ClientEpoch(sys));
    case Observed(p) => ServerHandleSound(suite, sys, p, seed);
    case Replying(_, _) => ServerReplySound(suite, sys);
    case Promoting(_) => NoInitMoved(sys.up, sys.serverTask, Ready, ClientEpoch(sys));
    case _ =>
  }

  lemma MoveSound(suite: Suite, sys: System, step: Step)
    requires Inv(suite, sys) && PendingSound(sys)
    requires OpensExchange(suite, sys, step) ==> NothingStale(sys)
    ensures PendingSound(Move(suite, sys, step))
  {
    hide Inv, OnlyAnswer, NoInitBelow, MaybeBuildInit, ClientTransmit, ServerTransmit, OpenTcp, AdvanceClient, AdvanceServer, NothingStale;
    match step
    case ClientBuild(now, draw, room) => BuildSound(suite, sys, now, draw, room);
    case ClientSendBuilt =>
      if sys.built.Some? {
        BuiltFacts(suite, sys);
        ClientTransmitSound(suite, sys.(built := None), sys.built.value);
      }
    case ClientSend(text) => ClientTransmitSound(suite, sys, text);
    case ClientReceive => ReadSound(suite, sys);
    case ClientAdvance => ClientAdvanceSound(suite, sys);
    case ServerSend(text) => if text.Data? { ServerTransmitSound(suite, sys, text); }
    case ServerReceive => ReadSound(suite, sys);
    case ServerAdvance(seed) => ServerAdvanceSound(suite, sys, seed);
  }

  /** Writing down what was installed only lengthens the list of answers. */
  lemma LoggedSound(sys: System, sys': System)
    requires PendingSound(sys') && sys'.log == sys.log
    ensures PendingSound(Logged(sys, sys'))
  {
    hide NoInitBelow, OnlyAnswer;
    var more := Logged(sys, sys').log.answers;
    if sys'.client.pending.Some? && more != sys.log.answers {
      OnlyAnswerGrows(sys'.down, sys'.clientTask, ClientEpoch(sys'), sys.log.answers, more[|more| - 1]);
    }
  }

  lemma SoundNoMistake(suite: Suite, sys: System, step: Step)
    requires Inv(suite, sys) && PendingSound(sys)
    ensures !Mistakes(suite, sys, step)
  {
    hide Inv, NoInitBelow, HandleAck, Fits;
    if step == ClientAdvance && sys.clientTask.Observed? && IsAck(sys.clientTask.parcel.text) {
      var p := sys.clientTask.parcel;
      UnmovedAck(suite, sys.client, p);
      if IsAnswer(suite, sys.client, p.epoch, p.text) {
        CarrierIsCurrent(suite, sys);
        AnswerFits(suite, sys, p);
      }
    }
  }

  /** Where no exchange is opened over a stale init or answer, no ack is mistaken. */
  lemma {:induction false} GuardedIsFaithful(suite: Suite, keys: KeyPair, interval: nat, steps: seq<Step>)
    requires Lawful(suite) && Guarded(suite, keys, interval, steps)
    ensures Faithful(suite, keys, interval, steps) && PendingSound(Run(suite, keys, interval, steps))
  {
    hide Lawful, Inv, Move, Logged, OpensExchange, NothingStale, Mistakes, OnlyAnswer, NoInitBelow;
    if steps != [] {
      var rest, step := steps[..|steps| - 1], steps[|steps| - 1];
      var sys := Run(suite, keys, interval, rest);
      GuardedIsFaithful(suite, keys, interval, rest);
      RunInv(suite, keys, interval, rest);
      SoundNoMistake(suite, sys, step);
      MoveSound(suite, sys, step);
      MoveKeepsLog(suite, sys, step);
      LoggedSound(sys, Move(suite, sys, step));
    }
  }

  // ---- runs without a resent init ----

  /** A build that puts the pending init in the outbox a second time. */
  predicate Resends(suite: Suite, sys: System, step: Step)
  {
    sys.client.pending.Some? && sys.built.None? && Move(suite, sys, step).built.Some?
  }

  ghost predicate NoResend(suite: Suite, keys: KeyPair, interval: nat, steps: seq<Step>)
  {
    steps == [] ||
    (NoResend(suite, keys, interval, steps[..|steps| - 1])
     && !Resends(suite, Run(suite, keys, interval, steps[..|steps| - 1]), steps[|steps| - 1]))
  }

  function One(b: bool): (result: nat) { if b then 1 else 0 }

  function InitsIn(frames: seq<TcpFrame>): (result: nat)
  {
    if frames == [] then 0 else One(IsInit(frames[0].text)) + InitsIn(frames[1..])
  }

  function AcksIn(frames: seq<TcpFrame>): (result: nat)
  {
    if frames == [] then 0 else One(IsAck(frames[0].text)) + AcksIn(frames[1..])
  }

  function UnreadOf(ch: Channel): (result: seq<TcpFrame>)
  {
    if ch.got <= |ch.sent| then ch.sent[ch.got..] else []
  }

  function ServerHolds(task: Task): (result: nat)
  {
    One(Held(task).Some? && IsInit(Held(task).value.text)) + One(task.Replying? && IsAck(task.reply))
  }

  function ClientHolds(task: Task): (result: nat) { One(Held(task).Some? && IsAck(Held(task).value.text)) }

  /** Copies of inits and answers to them that are still somewhere between the two coordinators. */
  function Outstanding(sys: System): (result: nat)
  {
    One(sys.built.Some?) + InitsIn(UnreadOf(sys.up)) + ServerHolds(sys.serverTask)
    + AcksIn(UnreadOf(sys.down)) + ClientHolds(sys.clientTask)
  }

  /** At most one, and none unless an exchange is pending. */
  ghost predicate OneAtMost(sys: System)
  {
    && sys.up.got <= |sys.up.sent| && sys.down.got <= |sys.down.sent|
    && Outstanding(sys) <= One(sys.client.pending.Some?)
  }

  lemma {:induction false} InitsAppend(frames: seq<TcpFrame>, f: TcpFrame)
    ensures InitsIn(frames + [f]) == InitsIn(frames) + One(IsInit(f.text))
  {
    if frames == [] {
      assert frames + [f] == [f];
    } else {
      assert (frames + [f])[1..] == frames[1..] + [f];
      InitsAppend(frames[1..], f);
    }
  }

  lemma {:induction false} AcksAppend(frames: seq<TcpFrame>, f: TcpFrame)
    ensures AcksIn(frames + [f]) == AcksIn(frames) + One(IsAck(f.text))
  {
    if frames == [] {
      assert frames + [f] == [f];
    } else {
      assert (frames + [f])[1..] == frames[1..] + [f];
      AcksAppend(frames[1..], f);
    }
  }

  lemma UnreadChanges(ch: Channel, f: TcpFrame)
    requires ch.got <= |ch.sent|
    ensures UnreadOf(Appended(ch, f)) == UnreadOf(ch) + [f]
    ensures ch.got < |ch.sent| ==> UnreadOf(ch) == [ch.sent[ch.got]] + UnreadOf(Read(ch))
  {
  }

  lemma UpSent(sys: System, text: Plaintext)
    requires sys.up.got <= |sys.up.sent|
    ensures var sys' := ClientTransmit(sys, text).1;
            && sys'.up.got <= |sys'.up.sent|
            && sys' == sys.(client := sys.client.(ep := sys'.client.ep), up := sys'.up)
            && Outstanding(sys') <= Outstanding(sys) + One(IsInit(text))
  {
    hide InitsIn, UnreadOf;
    if SealTcp(sys.client.ep, text).0.Some? {
      var f := SealTcp(sys.client.ep, text).0.value;
      UnreadChanges(sys.up, f);
      InitsAppend(UnreadOf(sys.up), f);
    }
  }

  lemma DownSent(sys: System, text: Plaintext)
    requires sys.down.got <= |sys.down.sent|
    ensures var (ok, sys') := ServerTransmit(sys, text);
            && sys'.down.got <= |sys'.down.sent|
            && sys' == sys.(server := sys.server.(ep := sys'.server.ep), down := sys'.down)
            && Outstanding(sys') <= Outstanding(sys) + One(IsAck(text))
            && (!ok ==> sys' == sys)
  {
    hide AcksIn, UnreadOf;
    if SealTcp(sys.server.ep, text).0.Some? {
      var f := SealTcp(sys.server.ep, text).0.value;
      UnreadChanges(sys.down, f);
      AcksAppend(UnreadOf(sys.down), f);
    }
  }

  lemma ServiceHolds(suite: Suite, s: Server, p: Parcel, seed: Seed)
    ensures ServerHolds(ServerService(suite, s, p, seed).0) <= One(IsInit(p.text))
  {
    hide Handle;
  }

  lemma MoveOutstanding(suite: Suite, sys: System, step: Step)
    requires OneAtMost(sys) && !Resends(suite, sys, step)
    ensures OneAtMost(Move(suite, sys, step))
  {
    hide InitsIn, AcksIn, UnreadOf, MaybeBuildInit, SealTcp, OpenTcp, AdvanceClient, AdvanceServer, Outstanding;
    match step
    case ClientBuild(now, draw, room) => BuildOutstanding(suite, sys, now, draw, room);
    case ClientSendBuilt =>
      if sys.built.Some? {
        UpSent(sys.(built := None), sys.built.value);
        SlotOutstanding(sys);
      }
    case ClientSend(text) =>
      UpSent(sys, text);
      ClosedOutstanding(sys);
    case ClientReceive => ClientReadOutstanding(suite, sys);
    case ServerReceive => ServerReadOutstanding(suite, sys);
    case ServerSend(text) =>
      DownSent(sys, text);
      ClosedOutstanding(sys);
    case ClientAdvance => ClientAdvanceOutstanding(suite, sys);
    case ServerAdvance(seed) => ServerAdvanceOutstanding(suite, sys, seed);
  }

  lemma SlotOutstanding(sys: System)
    ensures sys.built.Some? ==> Outstanding(sys.(built := None)) + 1 == Outstanding(sys)
  {
  }

  lemma ClosedOutstanding(sys: System)
    ensures Outstanding(sys.(clientOpen := false)) == Outstanding(sys) == Outstanding(sys.(serverOpen := false))
  {
  }

  lemma BuildOutstanding(suite: Suite, sys: System, now: int, draw: Option<Seed>, room: nat)
    requires OneAtMost(sys) && !Resends(suite, sys, ClientBuild(now, draw, room))
    ensures OneAtMost(Move(suite, sys, ClientBuild(now, draw, room)))
  {
    hide InitsIn, AcksIn, UnreadOf;
  }

  lemma ClientReadOutstanding(suite: Suite, sys: System)
    requires OneAtMost(sys)
    ensures OneAtMost(Move(suite, sys, ClientReceive))
  {
    hide InitsIn, UnreadOf, OpenTcp;
    if sys.down.got < |sys.down.sent| {
      var f := sys.down.sent[sys.down.got];
      UnreadChanges(sys.down, f);
      OpenTcpText(sys.client.ep, f);
      assert AcksIn(UnreadOf(sys.down)) == One(IsAck(f.text)) + AcksIn(UnreadOf(Read(sys.down)));
    }
  }

  lemma ServerReadOutstanding(suite: Suite, sys: System)
    requires OneAtMost(sys)
    ensures OneAtMost(Move(suite, sys, ServerReceive))
  {
    hide AcksIn, UnreadOf, OpenTcp;
    if sys.up.got < |sys.up.sent| {
      var f := sys.up.sent[sys.up.got];
      UnreadChanges(sys.up, f);
      OpenTcpText(sys.server.ep, f);
      assert InitsIn(UnreadOf(sys.up)) == One(IsInit(f.text)) + InitsIn(UnreadOf(Read(sys.up)));
    }
  }

  lemma OpenTcpText(ep: Endpoint, f: TcpFrame)
    ensures OpenTcp(ep, f).0.Some? ==> OpenTcp(ep, f).0.value == f.text
  {
  }

  lemma ClientAdvanceOutstanding(suite: Suite, sys: System)
    requires OneAtMost(sys)
    ensures OneAtMost(Move(suite, sys, ClientAdvance))
  {
    hide InitsIn, AcksIn, UnreadOf, ObservePeer, StartRekey, ActivateSend, Finish;
  }

  /** The loop's own calls move no frame; only its reply does. */
  lemma ServerStepOutstanding(suite: Suite, sys: System, seed: Seed)
    requires OneAtMost(sys) && !sys.serverTask.Replying?
    ensures OneAtMost(AdvanceServer(suite, sys, seed))
  {
    hide InitsIn, AcksIn, UnreadOf, ServerObserve, ServerActivate, ServerService;
    if sys.serverTask.Observed? { ServiceHolds(suite, sys.server, sys.serverTask.parcel, seed); }
  }

  lemma ServerReplyOutstanding(suite: Suite, sys: System)
    requires OneAtMost(sys) && sys.serverTask.Replying?
    ensures OneAtMost(AdvanceServer(suite, sys, 0))
  {
    hide InitsIn, AcksIn, UnreadOf, ServerTransmit;
    DownSent(sys, sys.serverTask.reply);
  }

  lemma ServerAdvanceOutstanding(suite: Suite, sys: System, seed: Seed)
    requires OneAtMost(sys)
    ensures OneAtMost(Move(suite, sys, ServerAdvance(seed)))
  {
    hide OneAtMost, ServerObserve, ServerActivate, ServerTransmit, ServerService;
    if sys.serverTask.Replying? { ServerReplyOutstanding(suite, sys); } else { ServerStepOutstanding(suite, sys, seed); }
  }

  /** With nothing outstanding there is nothing stale. */
  lemma NoneStale(sys: System)
    requires OneAtMost(sys) && sys.client.pending.None?
    ensures NothingStale(sys)
  {
    NoInits(sys.up.sent, sys.up.got);
    NoAcks(sys.down.sent, sys.down.got);
  }

  lemma {:induction false} NoInits(sent: seq<TcpFrame>, got: nat)
    requires got <= |sent| && InitsIn(sent[got..]) == 0
    ensures forall i :: got <= i < |sent| ==> !IsInit(sent[i].text)
    decreases |sent| - got
  {
    if got < |sent| {
      assert sent[got..][1..] == sent[got + 1..];
      NoInits(sent, got + 1);
    }
  }

  lemma {:induction false} NoAcks(sent: seq<TcpFrame>, got: nat)
    requires got <= |sent| && AcksIn(sent[got..]) == 0
    ensures forall i :: got <= i < |sent| ==> !IsAck(sent[i].text)
    decreases |sent| - got
  {
    if got < |sent| {
      assert sent[got..][1..] == sent[got + 1..];
      NoAcks(sent, got + 1);
    }
  }

  /** A run that never puts an init in the outbox twice is guarded. */
  lemma {:induction false} NoResendIsGuarded(suite: Suite, keys: KeyPair, interval: nat, steps: seq<Step>)
    requires NoResend(suite, keys, interval, steps)
    ensures Guarded(suite, keys, interval, steps) && OneAtMost(Run(suite, keys, interval, steps))
  {
    hide Move, NothingStale, Outstanding, Record;
    if steps == [] {
      StartOutstanding(keys, interval);
    } else {
      var rest, step := steps[..|steps| - 1], steps[|steps| - 1];
      var sys := Run(suite, keys, interval, rest);
      NoResendIsGuarded(suite, keys, interval, rest);
      MoveOutstanding(suite, sys, step);
      LoggedOutstanding(sys, Move(suite, sys, step));
      if sys.client.pending.None? { NoneStale(sys); }
    }
  }

  lemma StartOutstanding(keys: KeyPair, interval: nat)
    ensures OneAtMost(Start(keys, interval))
  {
  }

  lemma LoggedOutstanding(sys: System, sys': System)
    ensures OneAtMost(sys') <==> OneAtMost(Logged(sys, sys'))
  {
    hide Record, InitsIn, AcksIn, UnreadOf;
  }

  /** Delivery over every run without a resent init, both ways. */
  lemma {:induction false} NoResendDelivery(suite: Suite, keys: KeyPair, interval: nat, steps: seq<Step>, sys: System)
    requires Lawful(suite) && NoResend(suite, keys, interval, steps) && sys == Run(suite, keys, interval, steps)
    ensures && (sys.up.got < |sys.up.sent| ==>
                  OpenTcp(sys.server.ep, sys.up.sent[sys.up.got]).0 == Some(sys.up.sent[sys.up.got].text))
            && (sys.down.got < |sys.down.sent| && sys.clientTask == Ready ==>
                  OpenTcp(sys.client.ep, sys.down.sent[sys.down.got]).0 == Some(sys.down.sent[sys.down.got].text))
  {
    hide OpenTcp, Found, Guarded, Faithful, OneAtMost, Run, Lawful, NoResend, PendingSound;
    NoResendIsGuarded(suite, keys, interval, steps);
    GuardedIsFaithful(suite, keys, interval, steps);
    UpwardDelivery(suite, keys, interval, steps, sys);
    DownwardDelivery(suite, keys, interval, steps, sys);
  }

  lemma {:induction false} EarlierNoResend(suite: Suite, keys: KeyPair, interval: nat, steps: seq<Step>, more: seq<Step>)
    requires NoResend(suite, keys, interval, steps + more)
    ensures NoResend(suite, keys, interval, steps)
    decreases |more|
  {
    hide Resends, Run;
    if more == [] {
      assert steps + more == steps;
    } else {
      assert (steps + more)[..|steps + more| - 1] == steps + more[..|more| - 1];
      EarlierNoResend(suite, keys, interval, steps, more[..|more| - 1]);
    }
  }

  /**
   * The pending exchange over every run without a resent init: while it is pending the client is
   * idle on its carrier epoch, whose change is never reported; a carrier has one init; and an epoch
   * both ends have installed has equal keys.
   */
  lemma {:induction false} NoResendPending(suite: Suite, keys: KeyPair, interval: nat, steps: seq<Step>, more: seq<Step>,
                                           sys: System, late: System)
    requires Lawful(suite) && NoResend(suite, keys, interval, steps + more)
    requires sys == Run(suite, keys, interval, steps) && late == Run(suite, keys, interval, steps + more)
    ensures var c, log := sys.client, sys.log;
            && (c.pending.Some? ==> ReadyForRekey(c.ep) && c.ep.machine.currentEpoch == c.pending.value.carrier)
            && (forall now, draw, room :: MaybeBuildInit(suite, c, now, draw, room).0 != Err(CarrierChanged))
            && (c.pending.Some? && late.client.pending.Some? && c.pending.value.carrier == late.client.pending.value.carrier ==>
                  c.pending == late.client.pending)
            && (forall e: nat :: e < |log.clientKeys| && e < |log.serverKeys| ==> log.clientKeys[e] == log.serverKeys[e])
  {
    hide Guarded, Faithful, OneAtMost, Run, Lawful, NoResend, PendingSound, MaybeBuildInit;
    EarlierNoResend(suite, keys, interval, steps, more);
    NoResendIsGuarded(suite, keys, interval, steps);
    GuardedIsFaithful(suite, keys, interval, steps);
    NoResendIsGuarded(suite, keys, interval, steps + more);
    GuardedIsFaithful(suite, keys, interval, steps + more);
    PendingMeansIdle(suite, keys, interval, steps, sys);
    OneInitPerEpoch(suite, keys, interval, steps, more);
    forall now, draw, room ensures MaybeBuildInit(suite, sys.client, now, draw, room).0 != Err(CarrierChanged)
    {
      CarrierNeverChanges(suite, keys, interval, steps, sys, now, draw, room);
    }
    forall e: nat | e < |sys.log.clientKeys| && e < |sys.log.serverKeys|
      ensures sys.log.clientKeys[e] == sys.log.serverKeys[e]
    {
      FaithfulKeys(suite, keys, interval, steps, sys, e);
    }
  }
}
