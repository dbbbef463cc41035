/**
 * Why delivery over TCP is stated for runs without a stale answer: with one resent init, the
 * copy of an ack sent under the promoted epoch passes the client's carrier check as the answer
 * to its next exchange.
 */
module TcpResend {
  import opened Basics
  import opened Coordinators
  import opened Epochs
  import opened Exchange
  import opened TcpChannels
  import opened TcpEndpoints
  import opened TcpProtocol
  import opened TcpGuards
  import opened TcpMistakes
  import opened Transcripts

  // ---- a small lawful suite ----

  function Fill(v: byte): (result: Key) { seq(KEY_SIZE, _ => v) }

  function PublicKey(a: Seed): (result: Bytes) { Fill(a % 256) }

  function Shared(a: Seed, p: Bytes): (result: Option<Bytes>) { if p == [] then None else Some([(a % 256) * p[0] % 256]) }

  function Derive(secret: Bytes, current: Bytes, direction: Label): (result: Key) { Fill(if secret == [] then 0 else secret[0]) }

  function Tiny(): (result: Suite) { V1(PublicKey, Shared, Derive) }

  lemma TinyLawful()
    ensures Lawful(Tiny())
  {
    forall a, b ensures Shared(a, PublicKey(b)) == Shared(b, PublicKey(a))
    {
      var x, y := a % 256, b % 256;
      assert PublicKey(b)[0] == y && PublicKey(a)[0] == x;
      assert x * y == y * x;
    }
  }

  lemma TinyFacts()
    ensures forall a :: |PublicKey(a)| == KEY_SIZE
    ensures Shared(1, PublicKey(1)) == Some([1]) && Shared(3, PublicKey(1)) == Some([3])
    ensures forall c, d :: Derive([1], c, d) == Fill(1) && Derive([3], c, d) == Fill(3)
  {
  }

  // ---- reaching a state, counting resent inits ----

  function Resent(suite: Suite, keys: KeyPair, interval: nat, steps: seq<Step>): (result: nat)
  {
    if steps == [] then 0
    else
      var rest, sys := steps[..|steps| - 1], Run(suite, keys, interval, steps[..|steps| - 1]);
      Resent(suite, keys, interval, rest) + One(Resends(suite, sys, steps[|steps| - 1]))
  }

  ghost predicate Reached(t: System, resent: nat)
  {
    exists steps :: Run(Tiny(), Keys(0), 0, steps) == t && Resent(Tiny(), Keys(0), 0, steps) == resent
  }

  lemma Go(t: System, resent: nat, step: Step)
    requires Reached(t, resent)
    ensures Reached(Next(Tiny(), t, step), resent + One(Resends(Tiny(), t, step)))
  {
    hide Next, Tiny, Resends;
    var steps :| Run(Tiny(), Keys(0), 0, steps) == t && Resent(Tiny(), Keys(0), 0, steps) == resent;
    var more := steps + [step];
    assert more[..|more| - 1] == steps;
    assert Run(Tiny(), Keys(0), 0, more) == Next(Tiny(), t, step);
  }

  // ---- the states of the run ----

  function Keys(v: byte): (result: KeyPair) { KeyPair(Fill(v), Fill(v)) }

  function Side(e: uint16, v: byte, sent: nat, received: nat): (result: TcpSession) { TcpSession(e, Fill(v), Fill(v), sent, received) }

  function InitOfSeed(a: Seed): (result: Plaintext) { Service(RekeyInit, PublicKey(a)) }

  function Ack(): (result: Plaintext) { Service(RekeyAck, PublicKey(1)) }

  function Frame(e: uint16, v: byte, n: nat, text: Plaintext): (result: TcpFrame) { TcpFrame(e, n, Fill(v), text) }

  function First(): (result: Pending) { Pending(1, Keys(0), 0) }

  function Second(): (result: Pending) { Pending(3, Keys(1), 1) }

  function Answer(sendActivated: bool): (result: Transaction)
  {
    Transaction(InitOfSeed(1), Ack(), 0, 1, sendActivated, false)
  }

  function Machine1(phase: Phase, maxObserved: uint16): (result: Machine)
  {
    Machine(phase, Keys(1), 1, ZeroKeys(), 0, maxObserved)
  }

  function Inits(n: nat): (result: seq<TcpFrame>)
    requires n <= 2
  {
    [Frame(0, 0, 1, InitOfSeed(1)), Frame(0, 0, 2, InitOfSeed(1))][..n]
  }

  function Acks(n: nat): (result: seq<TcpFrame>)
    requires n <= 3
  {
    [Frame(0, 0, 1, Ack()), Frame(1, 1, 1, Data([])), Frame(1, 1, 2, Ack())][..n]
  }

  lemma StartReached()
    ensures Reached(Start(Keys(0), 0), 0)
  {
    assert Run(Tiny(), Keys(0), 0, []) == Start(Keys(0), 0);
  }

  /** The client has opened an exchange and sent its init. */
  function Sent1(): (result: System)
  {
    System(Client(Some(First()), 0, 0,
                  Endpoint(NewMachine(Keys(0)), Tcp(TcpCrypto(Side(0, 0, 1, 0), None, true, 0, false)))), Ready, None, true,
           Server(None, Endpoint(NewMachine(Keys(0)), Tcp(NewTcp(Keys(0), true)))), Ready, true,
           Channel(Inits(1), 0), Channel([], 0), [], Log([Keys(0)], [Keys(0)], [First()], []))
  }

  lemma SendsInit()
    ensures Reached(Sent1(), 0)
  {
    hide Reached, Fill, PublicKey, ZeroKeys, Shared, Derive, Handle, HandleAck;
    TinyFacts();
    StartReached();
    var s, t := Tiny(), Start(Keys(0), 0);
    var t1 := Next(s, t, ClientBuild(0, Some(1), 35));
    assert t1 == t.(client := t.client.(pending := Some(First())), built := Some(InitOfSeed(1)),
                    log := t.log.(exchanges := [First()]));
    Go(t, 0, ClientBuild(0, Some(1), 35));
    Go(t1, 0, ClientSendBuilt);
    assert Next(s, t1, ClientSendBuilt).up.sent == Inits(1);
  }

  /** The client sends the same init again. */
  function Sent2(): (result: System)
  {
    var t := Sent1();
    t.(client := t.client.(ep := t.client.ep.(crypto := Tcp(TcpCrypto(Side(0, 0, 2, 0), None, true, 0, false)))),
       up := Channel(Inits(2), 0))
  }

  lemma ResendsInit()
    requires Reached(Sent1(), 0)
    ensures Reached(Sent2(), 1)
  {
    hide Reached, Fill, PublicKey, ZeroKeys, Shared, Derive, Handle, HandleAck;
    TinyFacts();
    var s, t := Tiny(), Sent1();
    var t1 := Next(s, t, ClientBuild(0, None, 35));
    assert t1 == t.(built := Some(InitOfSeed(1)));
    Go(t, 0, ClientBuild(0, None, 35));
    Go(t1, 1, ClientSendBuilt);
    assert Next(s, t1, ClientSendBuilt).up.sent == Inits(2);
  }

  /** The client's loop has read the next frame and observed its epoch. */
  function Reads(t: System, p: Parcel, crypto: Crypto, m: Machine): (result: System)
  {
    t.(client := t.client.(ep := Endpoint(m, crypto)), clientTask := Observed(p), down := Read(t.down))
  }

  lemma ClientReads(t: System, p: Parcel, crypto: Crypto, m: Machine)
    requires Reached(t, 1) && t.clientOpen && t.clientTask == Ready && t.down.got < |t.down.sent|
    requires var f := t.down.sent[t.down.got];
             var (text, ep) := OpenTcp(t.client.ep, f);
             text == Some(p.text) && f.epoch == p.epoch && ObservePeer(ep, p.epoch) == Endpoint(m, crypto)
    ensures Reached(Reads(t, p, crypto, m), 1)
  {
    hide Reached, OpenTcp, ObservePeer, Tiny;
    var t1 := Next(Tiny(), t, ClientReceive);
    Go(t, 1, ClientReceive);
    Go(t1, 1, ClientAdvance);
    ReadKeepsAllocated(t.client.ep, t.down.sent[t.down.got], p.epoch);
    assert Next(Tiny(), t1, ClientAdvance) == Reads(t, p, crypto, m);
  }

  lemma ReadKeepsAllocated(ep: Endpoint, f: TcpFrame, epoch: uint16)
    ensures Allocated(OpenTcp(ep, f).1) == Allocated(ep)
    ensures Allocated(ObservePeer(OpenTcp(ep, f).1, epoch)) == Allocated(ep)
  {
  }

  /** So has the server's. */
  function Serves(t: System, p: Parcel, crypto: Crypto): (result: System)
  {
    t.(server := t.server.(ep := t.server.ep.(crypto := crypto)), serverTask := Observed(p), up := Read(t.up))
  }

  lemma ServerReads(t: System, p: Parcel, crypto: Crypto)
    requires Reached(t, 1) && t.serverOpen && t.serverTask == Ready && t.up.got < |t.up.sent|
    requires var f := t.up.sent[t.up.got];
             var (text, ep) := OpenTcp(t.server.ep, f);
             text == Some(p.text) && f.epoch == p.epoch && ObservePeer(ep, p.epoch) == t.server.ep.(crypto := crypto)
    requires t.server.transaction.Some? ==> t.server.transaction.value.epoch != p.epoch
    ensures Reached(Serves(t, p, crypto), 1)
  {
    hide Reached, OpenTcp, ObservePeer, Tiny;
    var t1 := Next(Tiny(), t, ServerReceive);
    Go(t, 1, ServerReceive);
    Go(t1, 1, ServerAdvance(0));
    ReadKeepsAllocated(t.server.ep, t.up.sent[t.up.got], p.epoch);
    assert Next(Tiny(), t1, ServerAdvance(0)) == Serves(t, p, crypto);
  }

  function ServerSide(phase: Phase, observed: uint16, t: TcpCrypto): (result: Server)
  {
    var m := if phase == Staged then Machine(Staged, Keys(0), 0, Keys(1), 1, observed) else Machine1(phase, observed);
    Server(Some(Answer(phase != Staged)), Endpoint(m, Tcp(t)))
  }

  /** The server reads the first copy and stages epoch 1. */
  function Answering(): (result: System)
  {
    Sent2().(server := ServerSide(Staged, 0, TcpCrypto(Side(1, 1, 0, 0), Some(Side(0, 0, 0, 1)), false, 1, true)),
             serverTask := Replying(Ack(), Some(1)), up := Channel(Inits(2), 1),
             log := Log([Keys(0)], [Keys(0), Keys(1)], [First()], [Answer(false)]))
  }

  lemma ServerAnswers()
    requires Reached(Sent2(), 1)
    ensures Reached(Answering(), 1)
  {
    hide Reached, Fill, PublicKey, ZeroKeys, Shared, Derive, HandleAck, MaybeBuildInit;
    TinyFacts();
    var p := Parcel(0, InitOfSeed(1));
    ServerReads(Sent2(), p, Tcp(TcpCrypto(Side(0, 0, 0, 1), None, true, 0, true)));
    var t2 := Serves(Sent2(), p, Tcp(TcpCrypto(Side(0, 0, 0, 1), None, true, 0, true)));
    Go(t2, 1, ServerAdvance(1));
    var t3 := Next(Tiny(), t2, ServerAdvance(1));
    assert t3.log.serverKeys == [Keys(0), Keys(1)] && t3.log.answers == [Answer(false)];
  }

  /** It sends the ack under epoch 0. */
  function Replied(): (result: System)
  {
    Answering().(server := ServerSide(Staged, 0, TcpCrypto(Side(1, 1, 0, 0), Some(Side(0, 0, 1, 1)), false, 1, true)),
                 serverTask := Promoting(1), down := Channel(Acks(1), 0), acks := [0])
  }

  lemma ServerReplies()
    requires Reached(Answering(), 1)
    ensures Reached(Replied(), 1)
  {
    hide Reached, Fill, PublicKey, ZeroKeys, Shared, Derive, Handle, HandleAck, MaybeBuildInit;
    var t1 := Next(Tiny(), Answering(), ServerAdvance(0));
    assert t1.down.sent == Acks(1) && t1.acks == [0];
    Go(Answering(), 1, ServerAdvance(0));
  }

  /** It promotes epoch 1 and sends a packet under it. */
  function Promoted(): (result: System)
  {
    Replied().(server := ServerSide(Retiring, 0, TcpCrypto(Side(1, 1, 1, 0), Some(Side(0, 0, 1, 1)), true, 1, true)),
               serverTask := Ready, down := Channel(Acks(2), 0))
  }

  lemma ServerPromotes()
    requires Reached(Replied(), 1)
    ensures Reached(Promoted(), 1)
  {
    hide Reached, Fill, PublicKey, ZeroKeys, Shared, Derive, Handle, HandleAck, MaybeBuildInit;
    var s, t := Tiny(), Replied();
    var t2 := Next(s, t, ServerAdvance(0));
    assert t2.server == ServerSide(Retiring, 0, TcpCrypto(Side(1, 1, 0, 0), Some(Side(0, 0, 1, 1)), true, 1, true));
    Go(t, 1, ServerAdvance(0));
    Go(t2, 1, ServerSend(Data([])));
    assert Next(s, t2, ServerSend(Data([]))).down.sent == Acks(2);
  }

  /** The server sends under a new epoch before any client frame has been sealed under it. */
  lemma PromotedBeforeProof()
    ensures exists steps :: var sys := Run(Tiny(), Keys(0), 0, steps);
              && ServerEpoch(sys) == 1 && ClientEpoch(sys) == 0
              && forall i :: 0 <= i < |sys.up.sent| ==> sys.up.sent[i].epoch == 0
  {
    hide Run, Resent;
    StartReached();
    SendsInit();
    ResendsInit();
    ServerAnswers();
    ServerReplies();
    ServerPromotes();
    PromotedState();
    var steps :| Run(Tiny(), Keys(0), 0, steps) == Promoted() && Resent(Tiny(), Keys(0), 0, steps) == 1;
    assert Run(Tiny(), Keys(0), 0, steps) == Promoted();
  }

  lemma PromotedState()
    ensures var sys := Promoted();
            && ServerEpoch(sys) == 1 && ClientEpoch(sys) == 0
            && forall i :: 0 <= i < |sys.up.sent| ==> sys.up.sent[i].epoch == 0
  {
    hide Fill, PublicKey, ZeroKeys, Shared, Derive;
  }

  /** It reads the second copy and repeats the ack, now under epoch 1. */
  function Repeated(): (result: System)
  {
    Promoted().(server := ServerSide(Retiring, 0, TcpCrypto(Side(1, 1, 2, 0), Some(Side(0, 0, 1, 2)), true, 1, true)),
                serverTask := Promoting(1), up := Channel(Inits(2), 2), down := Channel(Acks(3), 0))
  }

  lemma ServerRepeats()
    requires Reached(Promoted(), 1)
    ensures Reached(Repeated(), 1)
  {
    hide Reached, Fill, PublicKey, ZeroKeys, Shared, Derive, HandleAck, MaybeBuildInit, OpenTransaction;
    TinyFacts();
    var p := Parcel(0, InitOfSeed(1));
    var crypto := Tcp(TcpCrypto(Side(1, 1, 1, 0), Some(Side(0, 0, 1, 2)), true, 1, true));
    ServerReads(Promoted(), p, crypto);
    var t2 := Serves(Promoted(), p, crypto);
    Go(t2, 1, ServerAdvance(0));
    var t3 := t2.(serverTask := Replying(Ack(), Some(1)));
    assert Next(Tiny(), t2, ServerAdvance(0)) == t3;
    Go(t3, 1, ServerAdvance(0));
    assert Next(Tiny(), t3, ServerAdvance(0)).down.sent == Acks(3);
  }

  function ClientSide(pending: Option<Pending>, m: Machine, t: TcpCrypto): (result: Client)
  {
    Client(pending, 0, 0, Endpoint(m, Tcp(t)))
  }

  /** The client takes the true ack and moves to epoch 1. */
  function Moved(): (result: System)
  {
    Repeated().(client := ClientSide(None, Machine1(Retiring, 0),
                                     TcpCrypto(Side(1, 1, 0, 0), Some(Side(0, 0, 2, 1)), true, 1, false)),
                down := Channel(Acks(3), 1),
                log := Log([Keys(0), Keys(1)], [Keys(0), Keys(1)], [First()], [Answer(false)]))
  }

  lemma ClientMoves()
    requires Reached(Repeated(), 1)
    ensures Reached(Moved(), 1)
  {
    hide Reached, Fill, PublicKey, ZeroKeys, Shared, Derive, Handle, MaybeBuildInit;
    TinyFacts();
    var t := Repeated();
    var p := Parcel(0, Ack());
    ClientReads(t, p, Tcp(TcpCrypto(Side(0, 0, 2, 1), None, true, 0, false)), t.client.ep.machine);
    var t2 := Reads(t, p, Tcp(TcpCrypto(Side(0, 0, 2, 1), None, true, 0, false)), t.client.ep.machine);
    Go(t2, 1, ClientAdvance);
    assert Next(Tiny(), t2, ClientAdvance).log.clientKeys == [Keys(0), Keys(1)];
  }

  /** It reads the packet under epoch 1 and comes to rest. */
  function Rested(): (result: System)
  {
    Moved().(client := ClientSide(None, Machine1(Idle, 1), TcpCrypto(Side(1, 1, 0, 1), None, true, 1, false)),
             down := Channel(Acks(3), 2))
  }

  lemma ClientRests()
    requires Reached(Moved(), 1)
    ensures Reached(Rested(), 1)
  {
    hide Reached, Fill, PublicKey, ZeroKeys, Shared, Derive, Handle, HandleAck, MaybeBuildInit;
    var t := Moved();
    var p := Parcel(1, Data([]));
    ClientReads(t, p, Tcp(TcpCrypto(Side(1, 1, 0, 1), None, true, 1, false)), Machine1(Idle, 1));
    Go(Reads(t, p, Tcp(TcpCrypto(Side(1, 1, 0, 1), None, true, 1, false)), Machine1(Idle, 1)), 1, ClientAdvance);
  }

  /** It opens its next exchange, while the repeated ack is still on the stream. */
  function Reopened(): (result: System)
  {
    var t := Rested();
    t.(client := t.client.(pending := Some(Second())), built := Some(InitOfSeed(3)),
       log := t.log.(exchanges := [First(), Second()]))
  }

  lemma ClientReopens()
    requires Reached(Rested(), 1)
    ensures Reached(Reopened(), 1)
  {
    hide Reached, Fill, PublicKey, ZeroKeys, Shared, Derive, Handle, HandleAck;
    TinyFacts();
    Go(Rested(), 1, ClientBuild(0, Some(3), 35));
    assert Next(Tiny(), Rested(), ClientBuild(0, Some(3), 35)).log.exchanges == [First(), Second()];
  }

  /** The repeated ack, carried by epoch 1, is taken for the answer to the new exchange. */
  function Misled(): (result: System)
  {
    Reopened().(client := ClientSide(None, Machine(Retiring, Keys(3), 2, ZeroKeys(), 1, 1),
                                     TcpCrypto(Side(2, 3, 0, 0), Some(Side(1, 1, 0, 2)), true, 2, false)),
                down := Channel(Acks(3), 3),
                log := Log([Keys(0), Keys(1), Keys(3)], [Keys(0), Keys(1)], [First(), Second()], [Answer(false)]))
  }

  lemma ClientIsMisled()
    requires Reached(Reopened(), 1)
    ensures Reached(Misled(), 1)
  {
    hide Reached, Fill, PublicKey, ZeroKeys, Shared, Derive, Handle, MaybeBuildInit;
    TinyFacts();
    var t := Reopened();
    var p := Parcel(1, Ack());
    ClientReads(t, p, Tcp(TcpCrypto(Side(1, 1, 0, 2), None, true, 1, false)), t.client.ep.machine);
    var t2 := Reads(t, p, Tcp(TcpCrypto(Side(1, 1, 0, 2), None, true, 1, false)), t.client.ep.machine);
    Go(t2, 1, ClientAdvance);
    assert Next(Tiny(), t2, ClientAdvance).log.clientKeys == [Keys(0), Keys(1), Keys(3)];
  }

  lemma ServerFinishes()
    requires Reached(Misled(), 1)
    ensures Reached(Misled().(serverTask := Ready), 1)
  {
    hide Reached, Fill, PublicKey, ZeroKeys, Shared, Derive, Handle, HandleAck, MaybeBuildInit;
    Go(Misled(), 1, ServerAdvance(0));
  }

  /** Its next packet is under an epoch the server does not have. */
  lemma ClientSendsOn()
    ensures var t1 := Misled().(serverTask := Ready);
            var t2 := Next(Tiny(), t1, ClientSend(Data([])));
            && t2.up == t1.up.(sent := t1.up.sent + [Frame(2, 3, 1, Data([]))])
            && t2.server == t1.server && t2.serverTask == Ready && t2.serverOpen && ClientEpoch(t2) == 2
            && !Resends(Tiny(), t1, ClientSend(Data([])))
  {
    hide Fill, PublicKey, ZeroKeys, Shared, Derive, Handle, HandleAck, MaybeBuildInit, ServerService, ServerActivate;
  }

  lemma ServerRefuses(t: System)
    requires t.server == Misled().server && t.serverTask == Ready && t.serverOpen && ClientEpoch(t) == 2
    requires t.up == Misled().up.(sent := Misled().up.sent + [Frame(2, 3, 1, Data([]))])
    ensures var t' := Next(Tiny(), t, ServerReceive);
            ClientEpoch(t') == 2 && Allocated(t'.server.ep) == 1 && !t'.serverOpen && !Resends(Tiny(), t, ServerReceive)
  {
    hide Fill, PublicKey, ZeroKeys, Shared, Derive, Handle, HandleAck, MaybeBuildInit, ServerService, ServerActivate;
  }

  lemma ServerCloses() returns (t: System)
    requires Reached(Misled().(serverTask := Ready), 1)
    ensures Reached(t, 1) && ClientEpoch(t) == 2 && Allocated(t.server.ep) == 1 && !t.serverOpen
  {
    hide Reached, Fill, PublicKey, ZeroKeys, Shared, Derive, Handle, HandleAck, MaybeBuildInit, ServerService, ServerActivate, Next;
    var t1 := Misled().(serverTask := Ready);
    var t2 := Next(Tiny(), t1, ClientSend(Data([])));
    Go(t1, 1, ClientSend(Data([])));
    ClientSendsOn();
    t := Next(Tiny(), t2, ServerReceive);
    Go(t2, 1, ServerReceive);
    ServerRefuses(t2);
  }

  /**
   * One resent init is enough: the client ends up an epoch ahead of a server that has no such
   * epoch, and the server closes the connection at the client's next packet.
   */
  lemma OneResendBreaksDelivery()
    ensures Lawful(Tiny())
    ensures exists steps ::
              && Resent(Tiny(), Keys(0), 0, steps) == 1
              && var sys := Run(Tiny(), Keys(0), 0, steps);
                 ClientEpoch(sys) == 2 && Allocated(sys.server.ep) == 1 && !sys.serverOpen
  {
    hide Lawful, Tiny, Keys, Run, Resent, Sent1, Sent2, Answering, Replied, Promoted, Repeated, Moved, Rested, Reopened, Misled;
    TinyLawful();
    SendsInit(); ResendsInit(); ServerAnswers(); ServerReplies(); ServerPromotes(); ServerRepeats();
    ClientMoves(); ClientRests(); ClientReopens(); ClientIsMisled();
    ServerFinishes();
    var t := ServerCloses();
  }
}
