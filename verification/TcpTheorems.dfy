/** What every faithful TCP run keeps, in the terms of the two ends. */
module TcpTheorems {
  import opened Basics
  import opened Coordinators
  import opened Epochs
  import opened Exchange
  import opened TcpChannels
  import opened TcpEndpoints
  import opened TcpProtocol
  import opened Transcripts

  // ---- delivery ----

  /**
   * The next frame of the upward stream always finds its epoch's receive session, with the
   * key it was sealed with and the number the session expects, and opens.
   */
  lemma {:induction false} UpwardDelivery(suite: Suite, keys: KeyPair, interval: nat, steps: seq<Step>, sys: System)
    requires Lawful(suite) && Faithful(suite, keys, interval, steps) && sys == Run(suite, keys, interval, steps)
    ensures sys.up.got < |sys.up.sent| ==>
              var f := sys.up.sent[sys.up.got];
              && sys.server.ep.crypto.Tcp? && Found(sys.server.ep.crypto.tcp, f)
              && OpenTcp(sys.server.ep, f).0 == Some(f.text)
  {
    hide Inv, Found, OpenTcp;
    RunInv(suite, keys, interval, steps);
    if sys.up.got < |sys.up.sent| {
      ServerNextFound(suite, sys);
      FoundOpens(sys.server.ep, sys.up.sent[sys.up.got]);
    }
  }

  /** So does the next frame of the downward stream, whenever the client's loop reads it. */
  lemma {:induction false} DownwardDelivery(suite: Suite, keys: KeyPair, interval: nat, steps: seq<Step>, sys: System)
    requires Lawful(suite) && Faithful(suite, keys, interval, steps) && sys == Run(suite, keys, interval, steps)
    ensures sys.down.got < |sys.down.sent| && sys.clientTask == Ready ==>
              var f := sys.down.sent[sys.down.got];
              && sys.client.ep.crypto.Tcp? && Found(sys.client.ep.crypto.tcp, f)
              && OpenTcp(sys.client.ep, f).0 == Some(f.text)
  {
    hide Inv, Found, OpenTcp;
    RunInv(suite, keys, interval, steps);
    if sys.down.got < |sys.down.sent| && sys.clientTask == Ready {
      ClientNextFound(suite, sys);
      FoundOpens(sys.client.ep, sys.down.sent[sys.down.got]);
    }
  }

  /** Reading never closes a connection: unknown epochs and nonce mismatches do not occur. */
  lemma {:induction false} ReadingNeverCloses(suite: Suite, keys: KeyPair, interval: nat, steps: seq<Step>, sys: System)
    requires Lawful(suite) && Faithful(suite, keys, interval, steps) && sys == Run(suite, keys, interval, steps)
    ensures && Next(suite, sys, ClientReceive).clientOpen == sys.clientOpen
            && Next(suite, sys, ServerReceive).serverOpen == sys.serverOpen
  {
    hide OpenTcp, Found, Run, Faithful;
    UpwardDelivery(suite, keys, interval, steps, sys);
    DownwardDelivery(suite, keys, interval, steps, sys);
  }

  // ---- the two ends ----

  /** Only an ack that is not the recorded answer can be mistaken. */
  lemma MistakesStray(suite: Suite, sys: System, step: Step)
    requires Inv(suite, sys)
    ensures Mistakes(suite, sys, step) ==> Strays(suite, sys, step)
  {
    hide Inv, HandleAck, Fits;
    if step == ClientAdvance && sys.clientTask.Observed? && IsAck(sys.clientTask.parcel.text) {
      var p := sys.clientTask.parcel;
      UnmovedAck(suite, sys.client, p);
      if IsAnswer(suite, sys.client, p.epoch, p.text) && AnswerOf(p.text, p.epoch, sys.log.answers) {
        AnswerFits(suite, sys, p);
      }
    }
  }

  /** Where the client acts on answers only, no ack is mistaken. */
  lemma {:induction false} AnsweredIsFaithful(suite: Suite, keys: KeyPair, interval: nat, steps: seq<Step>)
    requires Lawful(suite) && Answered(suite, keys, interval, steps)
    ensures Faithful(suite, keys, interval, steps)
  {
    hide Lawful, Inv, Next, Mistakes, Strays;
    if steps != [] {
      var rest := steps[..|steps| - 1];
      AnsweredIsFaithful(suite, keys, interval, rest);
      RunInv(suite, keys, interval, rest);
      MistakesStray(suite, Run(suite, keys, interval, rest), steps[|steps| - 1]);
    }
  }

  /** An epoch installed at both ends has equal keys, as long as the client acts on answers only. */
  lemma {:induction false} KeyAgreement(suite: Suite, keys: KeyPair, interval: nat, steps: seq<Step>, sys: System, epoch: nat)
    requires Lawful(suite) && Answered(suite, keys, interval, steps) && sys == Run(suite, keys, interval, steps)
    ensures var log := sys.log;
            epoch < |log.clientKeys| && epoch < |log.serverKeys| ==> log.clientKeys[epoch] == log.serverKeys[epoch]
  {
    AnsweredIsFaithful(suite, keys, interval, steps);
    FaithfulKeys(suite, keys, interval, steps, sys, epoch);
  }

  lemma {:induction false} FaithfulKeys(suite: Suite, keys: KeyPair, interval: nat, steps: seq<Step>, sys: System, epoch: nat)
    requires Lawful(suite) && Faithful(suite, keys, interval, steps) && sys == Run(suite, keys, interval, steps)
    ensures var log := sys.log;
            epoch < |log.clientKeys| && epoch < |log.serverKeys| ==> log.clientKeys[epoch] == log.serverKeys[epoch]
  {
    hide TcpShaped, Streams, Frames, Transactions, AcksPlaced, ServerTaskSound, ClientTaskSound;
    RunInv(suite, keys, interval, steps);
  }

  /** The client is never ahead of the server's newest epoch and at most one behind. */
  lemma {:induction false} EpochsWithinOne(suite: Suite, keys: KeyPair, interval: nat, steps: seq<Step>, sys: System)
    requires Lawful(suite) && Faithful(suite, keys, interval, steps) && sys == Run(suite, keys, interval, steps)
    ensures && Allocated(sys.client.ep) == ClientEpoch(sys)
            && ClientEpoch(sys) <= Allocated(sys.server.ep) <= ClientEpoch(sys) + 1
            && Allocated(sys.server.ep) <= ServerEpoch(sys) + 1
  {
    hide Inv;
    RunInv(suite, keys, interval, steps);
    ShapedEnds(suite, sys);
    TcpShapedFacts(sys.server.ep, sys.log.serverKeys, true);
    NewestBound(suite, sys);
  }

  lemma NewestBound(suite: Suite, sys: System)
    requires Inv(suite, sys)
    ensures ClientEpoch(sys) <= ServerNewest(sys)
  {
  }

  /** A pending init implies the idle phase and the carrier epoch as send epoch. */
  lemma {:induction false} PendingMeansIdle(suite: Suite, keys: KeyPair, interval: nat, steps: seq<Step>, sys: System)
    requires Lawful(suite) && Faithful(suite, keys, interval, steps) && sys == Run(suite, keys, interval, steps)
    ensures var c := sys.client;
            c.pending.Some? ==> ReadyForRekey(c.ep) && c.ep.machine.currentEpoch == c.pending.value.carrier
  {
    hide TcpShaped, Streams, Frames, Transactions, AcksPlaced, ServerTaskSound, ClientTaskSound;
    RunInv(suite, keys, interval, steps);
  }

  /** The error "pending rekey carrier epoch changed" cannot arise. */
  lemma {:induction false} CarrierNeverChanges(suite: Suite, keys: KeyPair, interval: nat, steps: seq<Step>, sys: System,
                            now: int, draw: Option<Seed>, room: nat)
    requires Lawful(suite) && Faithful(suite, keys, interval, steps) && sys == Run(suite, keys, interval, steps)
    ensures MaybeBuildInit(suite, sys.client, now, draw, room).0 != Err(CarrierChanged)
  {
    PendingMeansIdle(suite, keys, interval, steps, sys);
  }

  /** The answer the server gave to the pending exchange is never refused, and brings its keys. */
  lemma {:induction false} AnswersNeverFail(suite: Suite, keys: KeyPair, interval: nat, steps: seq<Step>, sys: System, p: Parcel)
    requires Lawful(suite) && Faithful(suite, keys, interval, steps) && sys == Run(suite, keys, interval, steps)
    requires sys.clientTask == Observed(p) && sys.client.pending.Some?
    requires p.epoch == sys.client.pending.value.carrier && AnswerOf(p.text, p.epoch, sys.log.answers)
    ensures var (r, c) := HandleAck(suite, sys.client, p.epoch, p.text);
            && r == Ok(true)
            && Current(c.ep) == p.epoch + 1 == Newest(sys.log) && c.ep.machine.current == sys.log.serverKeys[p.epoch + 1]
  {
    hide Inv, Fits, IsAnswer, HandleAck, Run, Faithful, Lawful;
    RunInv(suite, keys, interval, steps);
    AnswerFits(suite, sys, p);
    FittingAckInv(suite, sys, p);
    CarrierIsCurrent(suite, sys);
  }

  /** Once an answer is on the stream the server's own next call moves its send epoch, whatever the client has shown. */
  lemma {:induction false} PromotesOnWrite(suite: Suite, keys: KeyPair, interval: nat, steps: seq<Step>, sys: System, seed: Seed)
    requires Lawful(suite) && Faithful(suite, keys, interval, steps) && sys == Run(suite, keys, interval, steps)
    requires sys.serverOpen && sys.serverTask.Promoting?
    ensures sys.serverTask.staged == Newest(sys.log)
    ensures ServerEpoch(Next(suite, sys, ServerAdvance(seed))) == Newest(sys.log)
  {
    hide Inv, Run, Faithful, Lawful, TcpShaped, ActivateSend;
    RunInv(suite, keys, interval, steps);
    PromotingFacts(suite, sys);
    TcpActivateShaped(sys.server.ep, sys.log.serverKeys, true, sys.serverTask.staged);
    TcpShapedFacts(sys.server.ep, sys.log.serverKeys, true);
  }

  lemma PromotingFacts(suite: Suite, sys: System)
    requires Inv(suite, sys) && sys.serverTask.Promoting?
    ensures TcpShaped(sys.server.ep, sys.log.serverKeys, true) && sys.serverTask.staged == Newest(sys.log)
  {
  }

  lemma CarrierIsCurrent(suite: Suite, sys: System)
    requires Inv(suite, sys) && sys.client.pending.Some?
    ensures sys.client.pending.value.carrier == ClientEpoch(sys)
  {
  }

  lemma NextGrows(suite: Suite, sys: System, step: Step)
    ensures sys.log.exchanges <= Next(suite, sys, step).log.exchanges
  {
    hide MaybeBuildInit, ClientTransmit, ServerTransmit, OpenTcp, ClientService, ServerService, ServerActivate, ServerObserve,
         ClientObserve;
    MoveKeepsLog(suite, sys, step);
  }

  lemma MoveKeepsLog(suite: Suite, sys: System, step: Step)
    ensures Move(suite, sys, step).log == sys.log
  {
    hide MaybeBuildInit, SealTcp, OpenTcp, ClientService, ServerService, ServerActivate, ServerObserve, ClientObserve;
  }

  lemma {:induction false} RunGrows(suite: Suite, keys: KeyPair, interval: nat, steps: seq<Step>, more: seq<Step>)
    ensures Run(suite, keys, interval, steps).log.exchanges <= Run(suite, keys, interval, steps + more).log.exchanges
    decreases |more|
  {
    hide Next;
    if more == [] {
      assert steps + more == steps;
    } else {
      var n := |more| - 1;
      RunGrows(suite, keys, interval, steps, more[..n]);
      assert (steps + more)[..|steps + more| - 1] == steps + more[..n];
      NextGrows(suite, Run(suite, keys, interval, steps + more[..n]), more[n]);
    }
  }

  lemma ExchangesOf(suite: Suite, sys: System)
    requires Inv(suite, sys)
    ensures sys.client.pending.Some? ==>
              var e := sys.client.pending.value.carrier;
              e < |sys.log.exchanges| && sys.log.exchanges[e] == sys.client.pending.value
  {
  }

  /** Each send epoch has one init: whenever two exchanges name the same carrier, they are the same. */
  lemma {:induction false} OneInitPerEpoch(suite: Suite, keys: KeyPair, interval: nat, steps: seq<Step>, more: seq<Step>)
    requires Lawful(suite) && Faithful(suite, keys, interval, steps) && Faithful(suite, keys, interval, steps + more)
    ensures var p, q := Run(suite, keys, interval, steps).client.pending,
                        Run(suite, keys, interval, steps + more).client.pending;
            p.Some? && q.Some? && p.value.carrier == q.value.carrier ==> p == q
  {
    hide Inv, Run, Faithful;
    RunInv(suite, keys, interval, steps);
    RunInv(suite, keys, interval, steps + more);
    ExchangesOf(suite, Run(suite, keys, interval, steps));
    ExchangesOf(suite, Run(suite, keys, interval, steps + more));
    RunGrows(suite, keys, interval, steps, more);
  }
}
