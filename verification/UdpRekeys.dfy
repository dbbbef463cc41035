/** A rekey completes: from rest, the loops' own steps bring both ends to rest at the next epoch under the exchange's keys. */
module UdpRekeys {
  import opened Basics
  import opened Coordinators
  import opened Epochs
  import opened Exchange
  import opened Exhaustion
  import opened Nonces
  import opened Transcripts
  import opened UdpEndpoints
  import opened UdpNumbers
  import opened UdpSettles
  import P = UdpProtocol

  /** The exchange a due build sends: the pending one, or one on this draw. */
  function Offer(c: Client, draw: Seed): (result: Pending)
  {
    if c.pending.Some? then c.pending.value else Pending(draw, c.ep.machine.current, c.ep.machine.currentEpoch)
  }

  /** The keys the server answers the client's offer with, if it can. */
  function Agreed(suite: Suite, sys: P.System, draw: Seed, seed: Seed): (result: Option<KeyPair>)
  {
    match Respond(suite, seed, sys.server.ep.machine.current, InitPacket(suite, Offer(sys.client, draw)).body)
    case None => None
    case Some(answer) => Some(answer.keys)
  }

  /** Both ends at rest below the last epoch, with an offer the server can answer and has not answered before. */
  ghost predicate Willing(suite: Suite, sys: P.System, draw: Seed, seed: Seed)
  {
    && Quiet(sys) && Settled(sys) && Allocated(sys.server.ep) < MAX_EPOCH
    && Agreed(suite, sys, draw, seed).Some?
    && (sys.server.transaction.Some? ==> sys.server.transaction.value.request != InitPacket(suite, Offer(sys.client, draw)))
  }

  lemma RestFacts(suite: Suite, sys: P.System, n: nat)
    requires Good(suite, sys, n) && Settled(sys)
    ensures var e := P.ClientEpoch(sys);
            && e == P.ServerEpoch(sys) == P.ServerNewest(sys) == Allocated(sys.server.ep)
            && (sys.client.pending.Some? ==> sys.client.pending.value.carrier == e
                                             && sys.client.pending.value.startKeys == sys.client.ep.machine.current)
            && (sys.server.transaction.Some? ==>
                  var t := sys.server.transaction.value;
                  t.sendActivated && t.peerObserved && t.epoch == e)
  {
    hide P.Frames, Fresh, Spare, RingOf, P.Tasks;
    LastEpoch(suite, sys.server, sys.log);
    ShapedFacts(sys.server.ep, sys.log.serverKeys, true);
    ShapedFacts(sys.client.ep, sys.log.clientKeys, false);
  }

  /** An init left over from before goes out first. */
  lemma Flushes(suite: Suite, sys: P.System, draw: Seed, seed: Seed, n: nat) returns (sys': P.System, more: seq<P.Step>)
    requires Lawful(suite) && Good(suite, sys, n + 1) && n < LAST_COUNTER && Willing(suite, sys, draw, seed)
    ensures |more| <= 1 && sys' == RunFrom(suite, sys, more) && Good(suite, sys', n) && Willing(suite, sys', draw, seed)
    ensures sys'.built == None && Agreed(suite, sys', draw, seed) == Agreed(suite, sys, draw, seed)
    ensures P.ClientEpoch(sys') == P.ClientEpoch(sys)
  {
    hide Lawful, Good, Agreed, P.ClientTransmit, Allocated;
    if sys.built.None? {
      sys', more := sys, [];
      FewerGood(suite, sys, n, n + 1);
      EmptyRun(suite, sys);
    } else {
      sys', more := P.Next(suite, sys, P.ClientSendBuilt), [P.ClientSendBuilt];
      NextGood(suite, sys, P.ClientSendBuilt, n);
      FlushKeeps(suite, sys, draw, seed);
      Extend(suite, sys, [], P.ClientSendBuilt);
      assert [] + [P.ClientSendBuilt] == [P.ClientSendBuilt];
    }
  }

  lemma FlushKeeps(suite: Suite, sys: P.System, draw: Seed, seed: Seed)
    requires sys.open && sys.built.Some?
    ensures var sys' := P.Next(suite, sys, P.ClientSendBuilt);
            && sys' == sys.(client := sys.client.(ep := sys'.client.ep), built := None, up := sys'.up, log := sys'.log)
            && sys'.client.ep.machine == sys.client.ep.machine
            && Agreed(suite, sys', draw, seed) == Agreed(suite, sys, draw, seed)
  {
    hide UdpEncrypt, Record, Respond;
  }

  /** A due build puts the offer in the outbox. */
  lemma Offers(suite: Suite, sys: P.System, draw: Seed, seed: Seed, n: nat) returns (sys': P.System, step: P.Step)
    requires Lawful(suite) && Small(suite) && Good(suite, sys, n + 1) && n < LAST_COUNTER
    requires Willing(suite, sys, draw, seed) && sys.built.None?
    ensures sys' == P.Next(suite, sys, step) && Good(suite, sys', n) && Willing(suite, sys', draw, seed)
    ensures sys'.client.pending == Some(Offer(sys.client, draw)) && sys'.built == Some(InitPacket(suite, Offer(sys.client, draw)))
    ensures sys'.client.ep == sys.client.ep && sys'.server == sys.server
    ensures Agreed(suite, sys', draw, seed) == Agreed(suite, sys, draw, seed)
  {
    hide Good, Lawful, Respond;
    RestFacts(suite, sys, n + 1);
    step := P.ClientBuild(sys.client.rotateAt, Some(draw), MTU);
    sys' := P.Next(suite, sys, step);
    NextGood(suite, sys, step, n);
    LawfulSize(suite, Offer(sys.client, draw));
  }

  lemma LawfulSize(suite: Suite, p: Pending)
    requires Lawful(suite)
    ensures suite.V1? ==> PacketLen(InitPacket(suite, p).body) == V1_PACKET_LEN
    ensures Asks(suite, InitPacket(suite, p))
  {
  }

  /** The offer, sent, opens at the server. */
  lemma OfferSent(suite: Suite, sys: P.System, draw: Seed, seed: Seed, p: Pending, n: nat) returns (sys': P.System, d: Datagram)
    requires Lawful(suite) && Good(suite, sys, n + 1) && n < LAST_COUNTER && Willing(suite, sys, draw, seed)
    requires sys.client.pending == Some(p) && sys.built == Some(InitPacket(suite, p))
    ensures sys' == P.Next(suite, sys, P.ClientSendBuilt) && Good(suite, sys', n)
    ensures sys' == sys.(client := sys.client.(ep := sys'.client.ep), built := None, up := sys'.up)
    ensures sys'.client.ep.machine == sys.client.ep.machine
    ensures d in sys'.up && d.epoch == P.ClientEpoch(sys) && d.text == InitPacket(suite, p)
    ensures OpenUdp(sys'.server.ep, d).0 == Some(d.text)
  {
    hide Lawful, Good, OpenUdp, P.ClientTransmit, InitOf, Willing, InitPacket;
    assert sys.open by { WillingOpen(suite, sys, draw, seed); }
    SlotGood(suite, sys, n + 1);
    var sys0 := sys.(built := None);
    d := ClientPuts(suite, sys0, sys.built.value, n + 1);
    TransmitKeeps(sys0, sys.built.value);
    sys' := P.Next(suite, sys, P.ClientSendBuilt);
    NextGood(suite, sys, P.ClientSendBuilt, n);
  }

  lemma WillingOpen(suite: Suite, sys: P.System, draw: Seed, seed: Seed)
    requires Willing(suite, sys, draw, seed)
    ensures sys.open
  {
  }

  /** A heard offer leaves the server able to open its transaction. */
  lemma HeardOpens(suite: Suite, s: Server, s': Server, d: Datagram, seed: Seed, e: nat)
    requires s.ep.machine.phase == Idle && s.ep.machine.currentEpoch == e == s.ep.machine.maxObserved == d.epoch
    requires s' == UdpHeard(s, d) && OpenUdp(s.ep, d).0.Some? && s.ep.crypto.Udp?
    requires s.transaction.Some? ==> s.transaction.value.sendActivated && s.transaction.value.peerObserved && s.transaction.value.epoch == e
    ensures s'.ep.machine == s.ep.machine && s'.transaction == s.transaction && Allocated(s'.ep) == Allocated(s.ep)
  {
    hide UdpDecrypt;
    UdpOpenAllocates(s.ep, d);
  }

  /** The server opens the transaction and answers, under the epoch that carried the request. */
  lemma ServerOpens(suite: Suite, sys: P.System, p: Parcel, seed: Seed, n: nat) returns (sys': P.System, d: Datagram)
    requires Lawful(suite) && Good(suite, sys, n + 2) && n + 1 < LAST_COUNTER
    requires sys.serverTask == Activated(p) && p.epoch == P.ClientEpoch(sys) == P.ServerEpoch(sys)
    requires WouldOpen(suite, sys.server, p, seed) && Allocated(sys.server.ep) < MAX_EPOCH
    ensures sys' == P.Next(suite, P.Next(suite, sys, P.ServerAdvance(seed)), P.ServerAdvance(0)) && Good(suite, sys', n)
    ensures sys'.client == sys.client && sys'.clientTask == sys.clientTask && sys'.open == sys.open && sys'.serverTask == Ready
    ensures sys'.log.clientKeys == sys.log.clientKeys
    ensures d in sys'.down && d.epoch == p.epoch && OpenUdp(sys'.client.ep, d).0 == Some(d.text)
    ensures AnswerOf(d.text, d.epoch, sys'.log.answers)
    ensures P.ServerNewest(sys') == P.ServerNewest(sys) + 1 && P.ServerEpoch(sys') == P.ServerEpoch(sys)
    ensures sys'.log.serverKeys ==
            sys.log.serverKeys + [Respond(suite, seed, sys.server.ep.machine.current, p.text.body).value.keys]
  {
    hide Lawful, Good, OpenUdp, WouldOpen, Respond, P.AdvanceServer, P.Logged;
    var sys1 := P.Next(suite, sys, P.ServerAdvance(seed));
    NextGood(suite, sys, P.ServerAdvance(seed), n + 1);
    Answered(suite, sys, p, seed, n + 2);
    ReplyFits(suite, sys1, n + 1);
    sys', d := ReplySent(suite, sys1, n);
  }

  /** The step that opens it. */
  lemma Answered(suite: Suite, sys: P.System, p: Parcel, seed: Seed, n: nat)
    requires Good(suite, sys, n) && sys.serverTask == Activated(p)
    requires WouldOpen(suite, sys.server, p, seed) && Allocated(sys.server.ep) < MAX_EPOCH
    ensures var sys' := P.Next(suite, sys, P.ServerAdvance(seed));
            var answer := Respond(suite, seed, sys.server.ep.machine.current, p.text.body).value;
            && sys' == sys.(server := sys'.server, serverTask := sys'.serverTask, log := sys'.log)
            && sys'.serverTask.Replying? && IsAck(sys'.serverTask.reply)
            && sys'.log.clientKeys == sys.log.clientKeys && sys'.log.serverKeys == sys.log.serverKeys + [answer.keys]
            && P.ServerEpoch(sys') == P.ServerEpoch(sys)
  {
    hide Good, Respond, ServerService, WouldOpen, Allocated, NewestKeys;
    AnsweredEnd(suite, sys, p, seed, n);
  }

  /** What the server's call leaves: the answer to send, and the next epoch staged under its keys. */
  lemma AnsweredEnd(suite: Suite, sys: P.System, p: Parcel, seed: Seed, n: nat)
    requires Good(suite, sys, n)
    requires WouldOpen(suite, sys.server, p, seed) && Allocated(sys.server.ep) < MAX_EPOCH
    ensures p.text.Service? && Respond(suite, seed, sys.server.ep.machine.current, p.text.body).Some?
    ensures var (task, s') := ServerService(suite, sys.server, p, seed);
            && task.Replying? && IsAck(task.reply) && Current(s'.ep) == Current(sys.server.ep)
            && Allocated(s'.ep) > Allocated(sys.server.ep)
            && NewestKeys(s'.ep) == Respond(suite, seed, sys.server.ep.machine.current, p.text.body).value.keys
  {
    hide Good, Respond, ServerService, StartRekey, WouldOpen, Shaped;
    GoodInv(suite, sys, n);
    UdpServerFacts(suite, sys);
    WouldOpenSizes(suite, sys.server, p, seed);
    var answer := Respond(suite, seed, sys.server.ep.machine.current, p.text.body).value;
    RepliesExactly(suite, sys.server, sys.log.serverKeys, p, seed);
    StartShaped(sys.server.ep, sys.log.serverKeys, true, answer.keys);
    ShapedFacts(sys.server.ep, sys.log.serverKeys, true);
    ShapedFacts(StartRekey(sys.server.ep, answer.keys).1, sys.log.serverKeys + [answer.keys], true);
  }

  lemma WouldOpenSizes(suite: Suite, s: Server, p: Parcel, seed: Seed)
    requires WouldOpen(suite, s, p, seed)
    ensures p.text.Service? && s.ep.machine.phase == Idle && Respond(suite, seed, s.ep.machine.current, p.text.body).Some?
    ensures FullSize(Respond(suite, seed, s.ep.machine.current, p.text.body).value.keys)
  {
  }

  lemma ReplyFits(suite: Suite, sys: P.System, n: nat)
    requires Good(suite, sys, n) && sys.serverTask.Replying? && IsAck(sys.serverTask.reply)
    ensures AnswerOf(sys.serverTask.reply, P.ServerEpoch(sys), sys.log.answers)
  {
  }

  /** The answer moves the client to the keys the server staged. */
  lemma ClientMoves(suite: Suite, sys: P.System, d: Datagram, n: nat) returns (sys': P.System, more: seq<P.Step>)
    requires Lawful(suite) && Good(suite, sys, n + 4) && n + 4 < LAST_COUNTER && Behind(sys) && Quiet(sys)
    requires d in sys.down && d.epoch == P.ClientEpoch(sys) && OpenUdp(sys.client.ep, d).0 == Some(d.text)
    requires AnswerOf(d.text, d.epoch, sys.log.answers)
    ensures |more| == 4 && sys' == RunFrom(suite, sys, more) && Good(suite, sys', n) && Quiet(sys')
    ensures P.ClientEpoch(sys') == P.ServerNewest(sys') && sys'.log.serverKeys == sys.log.serverKeys
  {
    hide Lawful, Good, OpenUdp, P.Next, AnswerOf;
    var sys1, hears := ClientHears(suite, sys, d, n + 1);
    sys' := ClientCatchesUp(suite, sys1, Parcel(d.epoch, d.text), n);
    AdvanceKeepsServer(suite, sys1);
    more := hears + [P.ClientAdvance];
    Extend(suite, sys, hears, P.ClientAdvance);
  }

  lemma AdvanceKeepsServer(suite: Suite, sys: P.System)
    ensures P.Next(suite, sys, P.ClientAdvance).log.serverKeys == sys.log.serverKeys
  {
    hide ClientService, ClientObserve, ClientActivate;
  }

  /** From rest with the offer in the outbox to the client on the new epoch. */
  lemma Exchanged(suite: Suite, sys: P.System, draw: Seed, seed: Seed, p: Pending, n: nat) returns (sys': P.System, more: seq<P.Step>)
    requires Lawful(suite) && Good(suite, sys, n + 10) && n + 10 < LAST_COUNTER && Willing(suite, sys, draw, seed)
    requires sys.client.pending == Some(p) && sys.built == Some(InitPacket(suite, p))
    ensures |more| == 10 && sys' == RunFrom(suite, sys, more) && Good(suite, sys', n) && Quiet(sys')
    ensures P.ClientEpoch(sys') == P.ServerNewest(sys') == P.ClientEpoch(sys) + 1
    ensures Agreed(suite, sys, draw, seed) == Some(sys'.log.serverKeys[P.ServerNewest(sys')])
  {
    hide Lawful, Good, OpenUdp, P.Next, RunFrom, AnswerOf, Respond, WouldOpen;
    RestFacts(suite, sys, n + 10);
    var sys1, d1 := OfferSent(suite, sys, draw, seed, p, n + 9);
    var sys2, hears := ServerHears(suite, sys1, d1, n + 6);
    HeardFacts(suite, sys, sys1, sys2, draw, seed, d1, p, n + 9);
    var sys3, d3 := ServerOpens(suite, sys2, Parcel(d1.epoch, d1.text), seed, n + 4);
    var sys4, moves := ClientMoves(suite, sys3, d3, n);
    sys' := sys4;
    var two := [P.ServerAdvance(seed)] + [P.ServerAdvance(0)];
    TwoSteps(suite, sys2, P.ServerAdvance(seed), P.ServerAdvance(0));
    more := [P.ClientSendBuilt] + (hears + (two + moves));
    RunFromAppend(suite, sys2, two, moves);
    RunFromAppend(suite, sys1, hears, two + moves);
    FirstStep(suite, sys, P.ClientSendBuilt, hears + (two + moves));
  }

  lemma {:induction false} TwoSteps(suite: Suite, sys: P.System, a: P.Step, b: P.Step)
    ensures RunFrom(suite, sys, [a] + [b]) == P.Next(suite, P.Next(suite, sys, a), b)
  {
    hide P.Next;
    Extend(suite, sys, [a], b);
    Extend(suite, sys, [], a);
    assert [] + [a] == [a];
  }

  lemma {:induction false} FirstStep(suite: Suite, sys: P.System, a: P.Step, rest: seq<P.Step>)
    ensures RunFrom(suite, sys, [a] + rest) == RunFrom(suite, P.Next(suite, sys, a), rest)
  {
    hide P.Next;
    assert ([a] + rest)[1..] == rest;
  }

  lemma HeardFacts(suite: Suite, sys: P.System, sys1: P.System, sys2: P.System, draw: Seed, seed: Seed, d: Datagram, p: Pending, n: nat)
    requires Lawful(suite) && Good(suite, sys, n + 1) && Willing(suite, sys, draw, seed) && sys.client.pending == Some(p)
    requires Good(suite, sys1, n) && sys1.server == sys.server && d.epoch == P.ClientEpoch(sys) && d.text == InitPacket(suite, p)
    requires OpenUdp(sys1.server.ep, d).0 == Some(d.text)
    requires sys1.client.ep.machine == sys.client.ep.machine && sys1.log == sys.log
    requires sys2 == sys1.(server := sys2.server, serverTask := Activated(Parcel(d.epoch, d.text)))
    requires sys2.server == UdpHeard(sys1.server, d)
    ensures WouldOpen(suite, sys2.server, Parcel(d.epoch, d.text), seed) && Allocated(sys2.server.ep) < MAX_EPOCH
    ensures P.ServerEpoch(sys2) == P.ClientEpoch(sys) && P.ServerNewest(sys2) == P.ClientEpoch(sys)
    ensures sys2.server.ep.machine.current == sys.server.ep.machine.current
  {
    hide Lawful, Good, OpenUdp, UdpHeard, Respond;
    RestFacts(suite, sys, n + 1);
    ServerRest(suite, sys, n + 1);
    HeardOpens(suite, sys1.server, sys2.server, d, seed, d.epoch);
    LawfulSize(suite, p);
    ExchangeAgrees(suite, p.seed, seed, sys.server.ep.machine.current);
  }

  lemma ServerRest(suite: Suite, sys: P.System, n: nat)
    requires Good(suite, sys, n) && Settled(sys)
    ensures sys.server.ep.crypto.Udp? && sys.server.ep.machine.maxObserved == P.ServerEpoch(sys)
  {
    hide P.Frames, Fresh, Spare, RingOf, Transactions, Exchanges;
    ShapedFacts(sys.server.ep, sys.log.serverKeys, true);
  }

  // ---- the theorem ----

  /**
   * From every reachable state at rest below the last epoch, with an offer the server can answer and
   * has not answered before, at most 22 of the loops' own steps bring both ends to rest at the next
   * epoch, under the very keys of that answer.
   */
  lemma RekeyCompletes(suite: Suite, keys: KeyPair, interval: nat, steps: seq<P.Step>, sys: P.System, draw: Seed, seed: Seed)
    returns (more: seq<P.Step>, sys': P.System)
    requires Lawful(suite) && Small(suite) && sys == P.Run(suite, keys, interval, steps) && Spare(sys, 23)
    requires Willing(suite, sys, draw, seed)
    ensures |more| <= 22 && sys' == P.Run(suite, keys, interval, steps + more) && Settled(sys')
    ensures P.ClientEpoch(sys') == P.ClientEpoch(sys) + 1
    ensures Agreed(suite, sys, draw, seed) == Some(sys'.server.ep.machine.current)
  {
    hide Lawful, P.Inv, Fresh, Spare, P.Next, Settled, Willing, Agreed, RunFrom;
    P.RunInv(suite, keys, interval, steps);
    RunFresh(suite, keys, interval, steps);
    var sys1, first := Flushes(suite, sys, draw, seed, 22);
    var sys2, step := Offers(suite, sys1, draw, seed, 21);
    var sys3, second := Exchanged(suite, sys2, draw, seed, sys2.client.pending.value, 11);
    var third;
    sys', third := Confirmed(suite, sys3);
    more := first + ([step] + (second + third));
    RunFromAppend(suite, sys, first, [step] + (second + third));
    FirstStep(suite, sys1, step, second + third);
    RunFromAppend(suite, sys2, second, third);
    RunContinues(suite, keys, interval, steps, more);
  }

  /** With the client on the newest epoch, a ping and its pong bring both ends to rest there. */
  lemma Confirmed(suite: Suite, sys: P.System) returns (sys': P.System, more: seq<P.Step>)
    requires Lawful(suite) && Good(suite, sys, 11) && Quiet(sys) && P.ClientEpoch(sys) == P.ServerNewest(sys)
    ensures |more| == 10 && sys' == RunFrom(suite, sys, more) && Settled(sys')
    ensures P.ClientEpoch(sys') == P.ClientEpoch(sys)
    ensures sys'.server.ep.machine.current == sys.log.serverKeys[P.ServerNewest(sys)]
  {
    hide Lawful, Good, RunFrom, Quiet, Settled;
    var sys2, pong, second := ConfirmUp(suite, sys, 5);
    var third;
    sys', third := ConfirmDown(suite, sys2, pong, 1);
    more := second + third;
    RunFromAppend(suite, sys, second, third);
    RestFacts(suite, sys', 1);
    ServerKeysNow(suite, sys', 1);
  }

  lemma ServerKeysNow(suite: Suite, sys: P.System, n: nat)
    requires Good(suite, sys, n) && Settled(sys)
    ensures P.ServerEpoch(sys) < |sys.log.serverKeys| && sys.server.ep.machine.current == sys.log.serverKeys[P.ServerEpoch(sys)]
  {
    hide P.Frames, P.Tasks, Fresh, Spare, RingOf, Transactions, Exchanges;
    ShapedFacts(sys.server.ep, sys.log.serverKeys, true);
  }
}
