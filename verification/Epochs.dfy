/**
 * What one end of a session does to its epochs, as functions on values: the two crypto back
 * ends (a four-slot ring for UDP, newest and previous receive sessions for TCP) and the
 * staged / retiring phases laid over them.
 */
module Epochs {
  import opened Basics
  import opened Nonces
  import opened ReplayWindow

  datatype Error =
    | BadKeySize
    | RekeyInProgress
    | PreviousNotRetired
    | WouldEvictSender
    | EpochExhausted
    | CarrierChanged
    | ExchangeFailed

  // ---- plaintexts ----

  datatype Kind = RekeyInit | RekeyAck | RekeyInitV2 | RekeyAckV2 | Ping | Pong | ExhaustedNotice | OtherKind

  /** A decrypted packet: a service packet or an IP packet. */
  datatype Plaintext = Service(kind: Kind, body: Bytes) | Data(bytes: Bytes)

  // ---- UDP back end ----

  const RING_CAPACITY: nat := 4

  datatype UdpSlot = UdpSlot(epoch: uint16, sendKey: Bytes, recvKey: Bytes, sent: nat, window: Window)

  datatype UdpCrypto = UdpCrypto(ring: seq<UdpSlot>, sendEpoch: uint16, counter: uint16, isServer: bool)

  /** A sealed datagram: it opens only with the key and nonce it was sealed with. */
  datatype Datagram = Datagram(epoch: uint16, number: nat, key: Bytes, text: Plaintext)

  function SendKey(keys: KeyPair, isServer: bool): (result: Bytes) { if isServer then keys.s2c else keys.c2s }

  function RecvKey(keys: KeyPair, isServer: bool): (result: Bytes) { if isServer then keys.c2s else keys.s2c }

  function NewUdpSlot(epoch: uint16, keys: KeyPair, isServer: bool): (result: UdpSlot)
  {
    UdpSlot(epoch, SendKey(keys, isServer), RecvKey(keys, isServer), 0, [])
  }

  function NewUdp(keys: KeyPair, isServer: bool): (result: UdpCrypto)
  {
    UdpCrypto([NewUdpSlot(0, keys, isServer)], 0, 0, isServer)
  }

  /** Position of epoch in the ring, or |ring|. */
  function Resolve(ring: seq<UdpSlot>, epoch: uint16): (i: nat)
    ensures i <= |ring|
    ensures i < |ring| ==> ring[i].epoch == epoch
    ensures forall j :: 0 <= j < i ==> ring[j].epoch != epoch
  {
    if ring == [] || ring[0].epoch == epoch then 0 else 1 + Resolve(ring[1..], epoch)
  }

  function Insert(ring: seq<UdpSlot>, slot: UdpSlot): (result: seq<UdpSlot>)
  {
    (if |ring| == RING_CAPACITY then ring[1..] else ring) + [slot]
  }

  function UdpStage(c: UdpCrypto, keys: KeyPair): (result: (Result<uint16, Error>, UdpCrypto))
  {
    if c.counter >= MAX_EPOCH then (Err(EpochExhausted), c)
    else if |c.ring| == RING_CAPACITY && c.ring[0].epoch == c.sendEpoch then (Err(WouldEvictSender), c)
    else
      var next := c.counter + 1;
      (Ok(next), c.(ring := Insert(c.ring, NewUdpSlot(next, keys, c.isServer)), counter := next))
  }

  /** The slot Encrypt uses: the send epoch's, else the newest. */
  function SendSlot(c: UdpCrypto): (i: nat)
    requires c.ring != []
    ensures i < |c.ring|
  {
    var i := Resolve(c.ring, c.sendEpoch);
    if i < |c.ring| then i else |c.ring| - 1
  }

  function UdpEncrypt(c: UdpCrypto, text: Plaintext): (result: (Option<Datagram>, UdpCrypto))
  {
    if c.ring == [] || c.ring[SendSlot(c)].sent >= LAST_COUNTER then (None, c)
    else
      var i := SendSlot(c);
      var slot := c.ring[i];
      (Some(Datagram(slot.epoch, slot.sent + 1, slot.sendKey, text)),
       c.(ring := c.ring[i := slot.(sent := slot.sent + 1)]))
  }

  function LowHalf(number: nat): (result: uint64) { number % WORD }

  function HighHalf(number: nat): (result: uint16) { number / WORD % 0x1_0000 }

  function UdpDecrypt(c: UdpCrypto, d: Datagram): (result: (Option<Plaintext>, UdpCrypto))
  {
    var i := Resolve(c.ring, d.epoch);
    if i == |c.ring| then (None, c)
    else
      var slot := c.ring[i];
      var low, high := LowHalf(d.number), HighHalf(d.number);
      if !Check(slot.window, low, high) || d.key != slot.recvKey then (None, c)
      else (Some(d.text), c.(ring := c.ring[i := slot.(window := Accept(slot.window, low, high))]))
  }

  // ---- TCP back end ----

  datatype TcpSession = TcpSession(epoch: uint16, sendKey: Bytes, recvKey: Bytes, sent: nat, received: nat)

  /** sendsNewest says which of the two receive sessions is also the send session. */
  datatype TcpCrypto = TcpCrypto(newest: TcpSession, previous: Option<TcpSession>, sendsNewest: bool,
                                 counter: uint16, isServer: bool)

  /** A frame on the wire names its epoch; its counter is implicit in the nonce it was sealed with. */
  datatype TcpFrame = TcpFrame(epoch: uint16, number: nat, key: Bytes, text: Plaintext)

  function NewTcpSession(epoch: uint16, keys: KeyPair, isServer: bool): (result: TcpSession)
  {
    TcpSession(epoch, SendKey(keys, isServer), RecvKey(keys, isServer), 0, 0)
  }

  function NewTcp(keys: KeyPair, isServer: bool): (result: TcpCrypto)
  {
    TcpCrypto(NewTcpSession(0, keys, isServer), None, true, 0, isServer)
  }

  function TcpStage(c: TcpCrypto, keys: KeyPair): (result: (Result<uint16, Error>, TcpCrypto))
  {
    if c.previous.Some? then (Err(PreviousNotRetired), c)
    else if c.counter >= MAX_EPOCH then (Err(EpochExhausted), c)
    else
      var next := c.counter + 1;
      (Ok(next), TcpCrypto(NewTcpSession(next, keys, c.isServer), Some(c.newest), false, next, c.isServer))
  }

  function TcpPromote(c: TcpCrypto, epoch: uint16): (result: TcpCrypto)
  {
    if c.newest.epoch == epoch then c.(sendsNewest := true) else c
  }

  function TcpRetire(c: TcpCrypto): (result: (bool, TcpCrypto))
  {
    if c.previous.Some? && c.sendsNewest then (true, c.(previous := None)) else (false, c)
  }

  function TcpEncrypt(c: TcpCrypto, text: Plaintext): (result: (Option<TcpFrame>, TcpCrypto))
  {
    if !c.sendsNewest && c.previous.None? then (None, c)
    else
      var s := if c.sendsNewest then c.newest else c.previous.value;
      if s.sent >= LAST_COUNTER then (None, c)
      else
        var s' := s.(sent := s.sent + 1);
        (Some(TcpFrame(s.epoch, s.sent + 1, s.sendKey, text)),
         if c.sendsNewest then c.(newest := s') else c.(previous := Some(s')))
  }

  function TcpDecrypt(c: TcpCrypto, f: TcpFrame): (result: (Option<Plaintext>, TcpCrypto))
  {
    if f.epoch == c.newest.epoch then
      if c.newest.received < LAST_COUNTER && f.number == c.newest.received + 1 && f.key == c.newest.recvKey then
        (Some(f.text), c.(newest := c.newest.(received := f.number)))
      else (None, c)
    else if c.previous.Some? && f.epoch == c.previous.value.epoch then
      var p := c.previous.value;
      if p.received < LAST_COUNTER && f.number == p.received + 1 && f.key == p.recvKey then
        (Some(f.text), c.(previous := Some(p.(received := f.number))))
      else (None, c)
    else (None, c)
  }

  // ---- either back end ----

  datatype Crypto = Udp(udp: UdpCrypto) | Tcp(tcp: TcpCrypto)

  function Stage(c: Crypto, keys: KeyPair): (result: (Result<uint16, Error>, Crypto))
  {
    match c
    case Udp(u) => var (r, u') := UdpStage(u, keys); (r, Udp(u'))
    case Tcp(t) => var (r, t') := TcpStage(t, keys); (r, Tcp(t'))
  }

  function Promote(c: Crypto, epoch: uint16): (result: Crypto)
  {
    match c
    case Udp(u) => Udp(u.(sendEpoch := epoch))
    case Tcp(t) => Tcp(TcpPromote(t, epoch))
  }

  /** UDP keeps older sessions until the ring evicts them. */
  function RetirePrevious(c: Crypto): (result: (bool, Crypto))
  {
    match c
    case Udp(u) => (true, c)
    case Tcp(t) => var (ok, t') := TcpRetire(t); (ok, Tcp(t'))
  }

  // ---- the phases ----

  datatype Phase = Idle | Staged | Retiring

  datatype Machine = Machine(phase: Phase, current: KeyPair, currentEpoch: uint16,
                             staged: KeyPair, stagedEpoch: uint16, maxObserved: uint16)

  datatype Endpoint = Endpoint(machine: Machine, crypto: Crypto)

  function ZeroKeys(): (result: KeyPair)
  {
    KeyPair(seq(KEY_SIZE, _ => 0), seq(KEY_SIZE, _ => 0))
  }

  function NewMachine(keys: KeyPair): (result: Machine)
  {
    Machine(Idle, keys, 0, ZeroKeys(), 0, 0)
  }

  function ReadyForRekey(ep: Endpoint): (result: bool) { ep.machine.phase == Idle }

  function StartRekey(ep: Endpoint, keys: KeyPair): (result: (Result<uint16, Error>, Endpoint))
  {
    if |keys.c2s| != KEY_SIZE || |keys.s2c| != KEY_SIZE then (Err(BadKeySize), ep)
    else if ep.machine.phase != Idle then (Err(RekeyInProgress), ep)
    else
      match Stage(ep.crypto, keys)
      case (Err(e), _) => (Err(e), ep)
      case (Ok(epoch), crypto) =>
        (Ok(epoch), Endpoint(ep.machine.(staged := keys, stagedEpoch := epoch, phase := Staged), crypto))
  }

  function RetireIfConfirmed(ep: Endpoint): (result: Endpoint)
  {
    if ep.machine.phase != Retiring || ep.machine.maxObserved < ep.machine.currentEpoch then ep
    else
      var (ok, crypto) := RetirePrevious(ep.crypto);
      Endpoint(if ok then ep.machine.(phase := Idle) else ep.machine, crypto)
  }

  /** Current and staged trade places; the keys left behind are cleared. */
  function SwapStaged(m: Machine): (result: Machine)
  {
    Machine(Retiring, m.staged, m.stagedEpoch, ZeroKeys(), m.currentEpoch, m.maxObserved)
  }

  function ActivateSend(ep: Endpoint, epoch: uint16): (result: Endpoint)
  {
    if ep.machine.phase != Staged || epoch != ep.machine.stagedEpoch then ep
    else RetireIfConfirmed(Endpoint(SwapStaged(ep.machine), Promote(ep.crypto, epoch)))
  }

  function ObservePeer(ep: Endpoint, epoch: uint16): (result: Endpoint)
  {
    var m := ep.machine.(maxObserved := if epoch > ep.machine.maxObserved then epoch else ep.machine.maxObserved);
    RetireIfConfirmed(Endpoint(m, ep.crypto))
  }

  // ---- packets through an endpoint ----

  function SealUdp(ep: Endpoint, text: Plaintext): (result: (Option<Datagram>, Endpoint))
  {
    match ep.crypto
    case Udp(u) => var (d, u') := UdpEncrypt(u, text); (d, ep.(crypto := Udp(u')))
    case Tcp(_) => (None, ep)
  }

  function OpenUdp(ep: Endpoint, d: Datagram): (result: (Option<Plaintext>, Endpoint))
  {
    match ep.crypto
    case Udp(u) => var (text, u') := UdpDecrypt(u, d); (text, ep.(crypto := Udp(u')))
    case Tcp(_) => (None, ep)
  }

  function SealTcp(ep: Endpoint, text: Plaintext): (result: (Option<TcpFrame>, Endpoint))
  {
    match ep.crypto
    case Tcp(t) => var (f, t') := TcpEncrypt(t, text); (f, ep.(crypto := Tcp(t')))
    case Udp(_) => (None, ep)
  }

  function OpenTcp(ep: Endpoint, f: TcpFrame): (result: (Option<Plaintext>, Endpoint))
  {
    match ep.crypto
    case Tcp(t) => var (text, t') := TcpDecrypt(t, f); (text, ep.(crypto := Tcp(t')))
    case Udp(_) => (None, ep)
  }

  /** The highest epoch an endpoint has allocated, and that epoch's keys. */
  function Allocated(ep: Endpoint): (result: uint16)
  {
    match ep.crypto
    case Udp(u) => u.counter
    case Tcp(t) => t.counter
  }

  function NewestKeys(ep: Endpoint): (result: KeyPair)
  {
    if ep.machine.phase == Staged then ep.machine.staged else ep.machine.current
  }
}
