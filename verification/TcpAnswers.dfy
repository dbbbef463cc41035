/**
 * Which acks fit: where answers can be told apart by the keys they yield, exactly the one the
 * server recorded, so that the faithful runs are those whose exchanges are settled by answers.
 */
module TcpAnswers {
  import opened Basics
  import opened Coordinators
  import opened Epochs
  import opened Exchange
  import opened TcpChannels
  import opened TcpProtocol
  import opened TcpTheorems
  import opened Transcripts

  /** A body some server answers some init with. */
  ghost predicate Responded(suite: Suite, body: Bytes)
  {
    exists seed, current, init :: Respond(suite, seed, current, init).Some? && Respond(suite, seed, current, init).value.body == body
  }

  /** No exchange finishes with the same keys on two different answers. */
  ghost predicate Tells(suite: Suite)
  {
    forall seed, startKeys, current, a, b ::
      (&& Responded(suite, a) && Responded(suite, b)
       && Finish(suite, seed, startKeys, current, a).Some?
       && Finish(suite, seed, startKeys, current, a) == Finish(suite, seed, startKeys, current, b))
      ==> a == b
  }

  /** A suite whose answers name the keys they yield, to show that the two laws can hold together. */
  function Naming(): (result: Suite) { V2(_ => [], (_, _) => [0], Named, Denoted) }

  function Both(v: byte): (result: KeyPair) { KeyPair(seq(KEY_SIZE, _ => v), seq(KEY_SIZE, _ => v)) }

  function Named(seed: Seed, prologue: Bytes, init: Bytes): (result: Option<Response>)
  {
    Some(Response([seed % 256], Both(seed % 256)))
  }

  function Denoted(seed: Seed, prologue: Bytes, body: Bytes): (result: Option<KeyPair>)
  {
    if |body| == 1 then Some(Both(body[0])) else None
  }

  lemma NamingTells()
    ensures Lawful(Naming()) && Tells(Naming())
  {
    forall seed, startKeys, current, a, b |
      && Responded(Naming(), a) && Responded(Naming(), b)
      && Finish(Naming(), seed, startKeys, current, a) == Finish(Naming(), seed, startKeys, current, b)
      ensures a == b
    {
      assert |a| == 1 && |b| == 1;
      assert Both(a[0]).c2s[0] == Both(b[0]).c2s[0];
    }
  }

  // ---- every ack of every run is an answer to some exchange ----

  ghost predicate FromAnswer(suite: Suite, text: Plaintext)
  {
    text.Service? && text.kind == AckKind(suite) && Responded(suite, text.body)
  }

  ghost predicate AcksKnown(suite: Suite, sys: System)
  {
    && (forall i :: 0 <= i < |sys.down.sent| && IsAck(sys.down.sent[i].text) ==> FromAnswer(suite, sys.down.sent[i].text))
    && (Held(sys.clientTask).Some? && IsAck(Held(sys.clientTask).value.text) ==>
          FromAnswer(suite, Held(sys.clientTask).value.text))
    && (sys.serverTask.Replying? && IsAck(sys.serverTask.reply) ==> FromAnswer(suite, sys.serverTask.reply))
    && (sys.server.transaction.Some? ==> FromAnswer(suite, sys.server.transaction.value.response))
    && (forall k :: 0 <= k < |sys.log.answers| ==> FromAnswer(suite, sys.log.answers[k].response))
  }

  lemma HandleKnown(suite: Suite, s: Server, carrier: uint16, request: Plaintext, seed: Seed)
    requires s.transaction.Some? ==> FromAnswer(suite, s.transaction.value.response)
    ensures var (r, s') := Handle(suite, s, carrier, request, seed);
            && (s'.transaction.Some? ==> FromAnswer(suite, s'.transaction.value.response))
            && (r.Ok? && r.value.Some? ==> FromAnswer(suite, r.value.value.response))
  {
    hide StartRekey, Respond;
    if IsRequest(suite, request) {
      var current := s.ep.machine.current;
      assert Respond(suite, seed, current, request.body).Some? ==>
               Responded(suite, Respond(suite, seed, current, request.body).value.body);
    }
  }

  lemma AdvanceKnown(suite: Suite, sys: System, seed: Seed)
    requires AcksKnown(suite, sys)
    ensures AcksKnown(suite, AdvanceServer(suite, sys, seed))
  {
    hide Handle, FromAnswer, SealTcp, ObservePeer, ActivateSend;
    match sys.serverTask
    case Observed(p) => HandleKnown(suite, sys.server, p.epoch, p.text, seed);
    case Replying(reply, _) => SentText(sys.server.ep, reply);
    case _ =>
  }

  lemma SentText(ep: Endpoint, text: Plaintext)
    ensures SealTcp(ep, text).0.Some? ==> SealTcp(ep, text).0.value.text == text
  {
  }

  lemma ReadText(ep: Endpoint, f: TcpFrame)
    ensures OpenTcp(ep, f).0.Some? ==> OpenTcp(ep, f).0.value == f.text
  {
  }

  lemma MoveKnown(suite: Suite, sys: System, step: Step)
    requires AcksKnown(suite, sys)
    ensures AcksKnown(suite, Move(suite, sys, step))
  {
    hide AcksKnown, Move, AdvanceServer;
    match step
    case ServerSend(text) => ServerSendKnown(suite, sys, text);
    case ClientReceive => ClientReadKnown(suite, sys);
    case ServerAdvance(seed) => ServerTurnKnown(suite, sys, seed);
    case _ => OtherKnown(suite, sys, step);
  }

  lemma ServerSendKnown(suite: Suite, sys: System, text: Plaintext)
    requires AcksKnown(suite, sys)
    ensures AcksKnown(suite, Move(suite, sys, ServerSend(text)))
  {
    hide SealTcp, FromAnswer;
    SentText(sys.server.ep, text);
  }

  lemma ClientReadKnown(suite: Suite, sys: System)
    requires AcksKnown(suite, sys)
    ensures AcksKnown(suite, Move(suite, sys, ClientReceive))
  {
    hide OpenTcp, FromAnswer;
    if sys.down.got < |sys.down.sent| { ReadText(sys.client.ep, sys.down.sent[sys.down.got]); }
  }

  lemma ServerTurnKnown(suite: Suite, sys: System, seed: Seed)
    requires AcksKnown(suite, sys)
    ensures AcksKnown(suite, Move(suite, sys, ServerAdvance(seed)))
  {
    hide AdvanceServer, AcksKnown;
    AdvanceKnown(suite, sys, seed);
  }

  lemma OtherKnown(suite: Suite, sys: System, step: Step)
    requires AcksKnown(suite, sys)
    requires !step.ServerSend? && !step.ClientReceive? && !step.ServerAdvance?
    ensures AcksKnown(suite, Move(suite, sys, step))
  {
    hide MaybeBuildInit, SealTcp, OpenTcp, ClientService, ObservePeer, FromAnswer;
  }

  lemma {:induction false} RunKnown(suite: Suite, keys: KeyPair, interval: nat, steps: seq<Step>)
    ensures AcksKnown(suite, Run(suite, keys, interval, steps))
  {
    hide Move, FromAnswer, Record;
    if steps != [] {
      var rest, step := steps[..|steps| - 1], steps[|steps| - 1];
      var sys := Run(suite, keys, interval, rest);
      RunKnown(suite, keys, interval, rest);
      MoveKnown(suite, sys, step);
      MoveKeepsLog(suite, sys, step);
      RecordKnown(suite, sys.log, sys.client, Move(suite, sys, step).client, sys.server, Move(suite, sys, step).server);
    }
  }

  lemma RecordKnown(suite: Suite, log: Log, c: Client, c': Client, s: Server, s': Server)
    requires forall k :: 0 <= k < |log.answers| ==> FromAnswer(suite, log.answers[k].response)
    requires s'.transaction.Some? ==> FromAnswer(suite, s'.transaction.value.response)
    ensures var log' := Record(log, c, c', s, s');
            forall k :: 0 <= k < |log'.answers| ==> FromAnswer(suite, log'.answers[k].response)
  {
    hide FromAnswer, NewestKeys, Allocated;
  }

  // ---- fitting means answering ----

  /** An ack the client would act on fits exactly when it is the answer the server recorded. */
  lemma {:induction false} FitsIffAnswer(suite: Suite, keys: KeyPair, interval: nat, steps: seq<Step>, sys: System, p: Parcel)
    requires Lawful(suite) && Tells(suite)
    requires Faithful(suite, keys, interval, steps) && sys == Run(suite, keys, interval, steps)
    requires sys.clientTask == Observed(p) && IsAck(p.text) && IsAnswer(suite, sys.client, p.epoch, p.text)
    ensures Fits(suite, sys, p.text.body) <==> AnswerOf(p.text, p.epoch, sys.log.answers)
  {
    hide Inv, Run, Faithful, Lawful, Fits, Tells, FromAnswer;
    RunInv(suite, keys, interval, steps);
    RunKnown(suite, keys, interval, steps);
    if AnswerOf(p.text, p.epoch, sys.log.answers) {
      AnswerFits(suite, sys, p);
    } else if Fits(suite, sys, p.text.body) {
      FittingIsAnswer(suite, sys, p);
    }
  }

  lemma FittingIsAnswer(suite: Suite, sys: System, p: Parcel)
    requires Tells(suite) && Inv(suite, sys) && AcksKnown(suite, sys)
    requires sys.clientTask == Observed(p) && IsAck(p.text) && IsAnswer(suite, sys.client, p.epoch, p.text)
    requires Fits(suite, sys, p.text.body)
    ensures AnswerOf(p.text, p.epoch, sys.log.answers)
  {
    hide Inv, Finish, KeysAgree, Responded;
    FitsNewest(suite, sys, p.text.body);
    ClientFacts(suite, sys);
    CarrierIsCurrent(suite, sys);
    var e, c, log := ClientEpoch(sys), sys.client, sys.log;
    AnswerYields(suite, sys);
    var q := c.pending.value;
    assert Finish(suite, q.seed, q.startKeys, c.ep.machine.current, p.text.body) ==
           Finish(suite, q.seed, q.startKeys, c.ep.machine.current, log.answers[e].response.body);
  }

  /** What the recorded answer yields to a client one epoch behind. */
  lemma AnswerYields(suite: Suite, sys: System)
    requires Inv(suite, sys) && sys.client.pending.Some? && ServerNewest(sys) == ClientEpoch(sys) + 1
    ensures var e, c, log := ClientEpoch(sys), sys.client, sys.log;
            && e < |log.answers| && log.answers[e].response.Service? && log.answers[e].response.kind == AckKind(suite)
            && Finish(suite, c.pending.value.seed, c.pending.value.startKeys, c.ep.machine.current, log.answers[e].response.body)
               == Some(log.serverKeys[e + 1])
  {
    hide Inv, Finish, Transactions, KeysAgree;
    ClientFacts(suite, sys);
    CarrierIsCurrent(suite, sys);
    YieldsFrom(suite, sys.client, sys.server, sys.log);
  }

  lemma YieldsFrom(suite: Suite, c: Client, s: Server, log: Log)
    requires Exchanges(c, log) && Transactions(suite, s, log) && KeysAgree(log) && c.pending.Some?
    requires Newest(log) == Current(c.ep) + 1
    requires Current(c.ep) < |log.clientKeys| && c.ep.machine.current == log.clientKeys[Current(c.ep)]
    ensures var e := Current(c.ep);
            && e < |log.answers| && log.answers[e].response.Service? && log.answers[e].response.kind == AckKind(suite)
            && Finish(suite, c.pending.value.seed, c.pending.value.startKeys, c.ep.machine.current, log.answers[e].response.body)
               == Some(log.serverKeys[e + 1])
  {
    hide Finish;
    var e := Current(c.ep);
    assert Answers(suite, log.answers[e], e, log.exchanges[e], log.serverKeys[e], log.serverKeys[e + 1]);
    assert log.clientKeys[e] == log.serverKeys[e];
  }

  /** A run in which every exchange the client settles is settled by its answer. */
  ghost predicate SettledByAnswers(suite: Suite, keys: KeyPair, interval: nat, steps: seq<Step>)
  {
    steps == [] ||
    var rest, step := steps[..|steps| - 1], steps[|steps| - 1];
    var sys := Run(suite, keys, interval, rest);
    && SettledByAnswers(suite, keys, interval, rest)
    && (Next(suite, sys, step).client.pending != sys.client.pending ==> !Strays(suite, sys, step))
  }

  /** A mistake is exactly a stray ack that settles the exchange. */
  lemma {:induction false} MistakesExactly(suite: Suite, keys: KeyPair, interval: nat, steps: seq<Step>, sys: System, step: Step)
    requires Lawful(suite) && Tells(suite)
    requires Faithful(suite, keys, interval, steps) && sys == Run(suite, keys, interval, steps)
    ensures Mistakes(suite, sys, step) <==>
              Strays(suite, sys, step) && Next(suite, sys, step).client.pending != sys.client.pending
  {
    hide Inv, Run, Faithful, Lawful, Fits, Tells, HandleAck, Record, IsAnswer;
    RunInv(suite, keys, interval, steps);
    MistakesStray(suite, sys, step);
    if Strays(suite, sys, step) { FitsIffAnswer(suite, keys, interval, steps, sys, sys.clientTask.parcel); }
  }

  /** The faithful runs are exactly those whose exchanges are settled by their answers. */
  lemma {:induction false} FaithfulIffSettled(suite: Suite, keys: KeyPair, interval: nat, steps: seq<Step>)
    requires Lawful(suite) && Tells(suite)
    ensures Faithful(suite, keys, interval, steps) <==> SettledByAnswers(suite, keys, interval, steps)
  {
    hide Lawful, Tells, Next, Mistakes, Strays;
    if steps != [] {
      var rest, step := steps[..|steps| - 1], steps[|steps| - 1];
      FaithfulIffSettled(suite, keys, interval, rest);
      if Faithful(suite, keys, interval, rest) {
        MistakesExactly(suite, keys, interval, rest, Run(suite, keys, interval, rest), step);
      }
    }
  }
}
