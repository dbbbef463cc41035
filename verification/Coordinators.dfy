/** The two coordinators of a rekey, as functions on values. */
module Coordinators {
  import opened Basics
  import opened Epochs
  import opened Exchange

  const HEADER_LEN: nat := 3
  const V1_PACKET_LEN: nat := 35

  /** Length on the wire of a service packet. */
  function PacketLen(body: Bytes): (result: nat) { HEADER_LEN + |body| }

  function InitKind(suite: Suite): (result: Kind) { if suite.V1? then RekeyInit else RekeyInitV2 }

  function AckKind(suite: Suite): (result: Kind) { if suite.V1? then RekeyAck else RekeyAckV2 }

  // ---- server ----

  datatype Transaction = Transaction(request: Plaintext, response: Plaintext, carrier: uint16, epoch: uint16,
                                     sendActivated: bool, peerObserved: bool)
  {
    predicate Complete() { sendActivated && peerObserved }
  }

  datatype Server = Server(transaction: Option<Transaction>, ep: Endpoint)

  datatype Reply = Reply(response: Plaintext, epoch: uint16)

  /** Whether a packet is a request this session answers at all. */
  predicate IsRequest(suite: Suite, request: Plaintext)
  {
    && request.Service?
    && request.kind == InitKind(suite)
    && (if suite.V1? then PacketLen(request.body) == V1_PACKET_LEN else request.body != [])
  }

  /** Answers an init; a None reply means nothing is sent. */
  function Handle(suite: Suite, s: Server, carrier: uint16, request: Plaintext, seed: Seed)
    : (result: (Result<Option<Reply>, Error>, Server))
  {
    if !IsRequest(suite, request) then (Ok(None), s)
    else if s.transaction.Some? && s.transaction.value.request == request then
      var t := s.transaction.value;
      if t.Complete() || t.carrier != carrier then (Ok(None), s)
      else (Ok(Some(Reply(t.response, t.epoch))), s)
    else if s.transaction.Some? && (!s.transaction.value.Complete() || carrier != s.transaction.value.epoch) then
      (Ok(None), s)
    else if !ReadyForRekey(s.ep) then (Ok(None), s)
    else OpenTransaction(suite, s, carrier, request, seed)
  }

  /** The part of Handle that changes state. */
  function OpenTransaction(suite: Suite, s: Server, carrier: uint16, request: Plaintext, seed: Seed)
    : (result: (Result<Option<Reply>, Error>, Server))
    requires IsRequest(suite, request)
  {
    match Respond(suite, seed, s.ep.machine.current, request.body)
    case None => (Err(ExchangeFailed), s)
    case Some(answer) =>
      match StartRekey(s.ep, answer.keys)
      case (Err(e), _) => (Err(e), s)
      case (Ok(epoch), ep) =>
        var response := Service(AckKind(suite), answer.body);
        (Ok(Some(Reply(response, epoch))),
         Server(Some(Transaction(request, response, carrier, epoch, false, false)), ep))
  }

  function ServerActivate(s: Server, epoch: uint16): (result: Server)
  {
    Server(if s.transaction.Some? && s.transaction.value.epoch == epoch
           then Some(s.transaction.value.(sendActivated := true)) else s.transaction,
           ActivateSend(s.ep, epoch))
  }

  function ServerObserve(s: Server, epoch: uint16): (result: Server)
  {
    Server(if s.transaction.Some? && s.transaction.value.epoch == epoch
           then Some(s.transaction.value.(peerObserved := true)) else s.transaction,
           ObservePeer(s.ep, epoch))
  }

  // ---- client ----

  /** The exchange in flight: its draw, the keys it started from, the epoch that carries it. */
  datatype Pending = Pending(seed: Seed, startKeys: KeyPair, carrier: uint16)

  datatype Client = Client(pending: Option<Pending>, rotateAt: int, interval: nat, ep: Endpoint)

  /** The init packet of a pending exchange; a retry sends the same one. */
  function InitPacket(suite: Suite, p: Pending): (result: Plaintext)
  {
    Service(InitKind(suite), InitBody(suite, p.seed, p.startKeys))
  }

  /**
   * The init to send now, if any: draw is the random source's next value, None when it or
   * the handshake refuses; room is the length of the caller's buffer.
   */
  function MaybeBuildInit(suite: Suite, c: Client, now: int, draw: Option<Seed>, room: nat)
    : (result: (Result<Option<Plaintext>, Error>, Client))
  {
    if now < c.rotateAt then (Ok(None), c)
    else
      var due := c.(rotateAt := now + c.interval);
      if !ReadyForRekey(c.ep) then (Ok(None), due)
      else if suite.V1? && room < V1_PACKET_LEN then (Ok(None), due)
      else if due.pending.Some? then
        if due.ep.machine.currentEpoch != due.pending.value.carrier then (Err(CarrierChanged), due)
        else (Ok(Fitting(suite, due.pending.value, room)), due)
      else if draw.None? then (Err(ExchangeFailed), due)
      else
        var p := Pending(draw.value, due.ep.machine.current, due.ep.machine.currentEpoch);
        (Ok(Fitting(suite, p, room)), due.(pending := Some(p)))
  }

  function Fitting(suite: Suite, p: Pending, room: nat): (result: Option<Plaintext>)
  {
    var len := PacketLen(InitPacket(suite, p).body);
    if len > room || (suite.V1? && len != V1_PACKET_LEN) then None else Some(InitPacket(suite, p))
  }

  /** Whether a packet carried by an epoch can complete a pending exchange. */
  predicate Completes(suite: Suite, pending: Option<Pending>, carrier: uint16, ack: Plaintext)
  {
    && ack.Service?
    && ack.kind == AckKind(suite)
    && (if suite.V1? then PacketLen(ack.body) == V1_PACKET_LEN else ack.body != [])
    && pending.Some?
    && carrier == pending.value.carrier
  }

  predicate IsAnswer(suite: Suite, c: Client, carrier: uint16, ack: Plaintext)
  {
    Completes(suite, c.pending, carrier, ack)
  }

  /** Installs and promotes the new epoch; Ok(false) means the packet was ignored. */
  function HandleAck(suite: Suite, c: Client, carrier: uint16, ack: Plaintext): (result: (Result<bool, Error>, Client))
  {
    if !IsAnswer(suite, c, carrier, ack) then (Ok(false), c)
    else
      var p := c.pending.value;
      // Version 2 consumes its handshake state whatever comes of it.
      var c1 := if suite.V2? then c.(pending := None) else c;
      match Finish(suite, p.seed, p.startKeys, c.ep.machine.current, ack.body)
      case None => (Err(ExchangeFailed), c1)
      case Some(keys) =>
        match StartRekey(c.ep, keys)
        case (Err(e), _) => (Err(e), c1)
        case (Ok(epoch), ep) =>
          (Ok(true), c.(pending := None, ep := ActivateSend(ep, epoch)))
  }

  function ClientObserve(c: Client, epoch: uint16): (result: Client) { c.(ep := ObservePeer(c.ep, epoch)) }

  function ClientActivate(c: Client, epoch: uint16): (result: Client) { c.(ep := ActivateSend(c.ep, epoch)) }
}
