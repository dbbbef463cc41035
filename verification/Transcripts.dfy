/**
 * What a run writes down about the two coordinators, and what relates their exchanges,
 * transactions and packets whatever the transport.
 */
module Transcripts {
  import opened Basics
  import opened Coordinators
  import opened Epochs
  import opened Exchange

  /** What the two ends have installed so far; written down, never read by a step. */
  datatype Log = Log(clientKeys: seq<KeyPair>, serverKeys: seq<KeyPair>,
                     exchanges: seq<Pending>, answers: seq<Transaction>)

  /** An authenticated packet and the epoch that carried it. */
  datatype Parcel = Parcel(epoch: uint16, text: Plaintext)

  /** How far a packet loop is with the packet it has read; each call of the loop is one step. */
  datatype Task =
    | Ready
    | Opened(parcel: Parcel)
    | Observed(parcel: Parcel)
    | Activated(parcel: Parcel)
    | Replying(reply: Plaintext, epoch: Option<uint16>)
    | Promoting(staged: uint16)

  predicate IsInit(text: Plaintext) { text.Service? && (text.kind == RekeyInit || text.kind == RekeyInitV2) }

  predicate IsAck(text: Plaintext) { text.Service? && (text.kind == RekeyAck || text.kind == RekeyAckV2) }

  predicate IsReconnect(text: Plaintext) { text.Service? && text.kind == ExhaustedNotice }

  /** What the TUN loops and the keepalive send: IP packets and pings. */
  predicate IsTraffic(text: Plaintext) { text.Data? || text == Service(Ping, []) }

  /** The server's answer to a service packet: what to send, and the epoch of a rekey reply. */
  function ServerService(suite: Suite, s: Server, parcel: Parcel, seed: Seed): (result: (Task, Server))
  {
    if IsInit(parcel.text) then
      match Handle(suite, s, parcel.epoch, parcel.text, seed)
      case (Err(e), s') => (if e == EpochExhausted then Replying(Service(ExhaustedNotice, []), None) else Ready, s')
      case (Ok(None), s') => (Ready, s')
      case (Ok(Some(reply)), s') => (Replying(reply.response, Some(reply.epoch)), s')
    else if parcel.text.Service? && parcel.text.kind == Ping then (Replying(Service(Pong, []), None), s)
    else (Ready, s)
  }

  /** The client's control plane: whether the connection stays open, and the client. */
  function ClientService(suite: Suite, c: Client, parcel: Parcel): (result: (bool, Client))
  {
    if IsReconnect(parcel.text) then (false, c)
    else if IsAck(parcel.text) then
      var (r, c') := HandleAck(suite, c, parcel.epoch, parcel.text);
      (r != Err(EpochExhausted), c')
    else (true, c)
  }

  /** Writes down what a step installed. */
  function Record(log: Log, c: Client, c': Client, s: Server, s': Server): (result: Log)
  {
    var serverStaged := Allocated(s'.ep) > Allocated(s.ep);
    Log(if Allocated(c'.ep) > Allocated(c.ep) then log.clientKeys + [NewestKeys(c'.ep)] else log.clientKeys,
        if serverStaged then log.serverKeys + [NewestKeys(s'.ep)] else log.serverKeys,
        if c.pending.None? && c'.pending.Some? then log.exchanges + [c'.pending.value] else log.exchanges,
        if serverStaged && s'.transaction.Some? then log.answers + [s'.transaction.value] else log.answers)
  }

  function Current(ep: Endpoint): (result: uint16) { ep.machine.currentEpoch }

  /** The newest epoch the server has installed. */
  function Newest(log: Log): (result: int) { |log.serverKeys| - 1 }

  ghost predicate KeysAgree(log: Log)
  {
    forall e: nat :: e < |log.clientKeys| && e < |log.serverKeys| ==> log.clientKeys[e] == log.serverKeys[e]
  }

  /** The client's exchanges: one for each epoch left behind, and the pending one. */
  ghost predicate Exchanges(c: Client, log: Log)
  {
    var xs := log.exchanges;
    && |xs| == Current(c.ep) + (if c.pending.Some? then 1 else 0)
    && (c.pending.Some? ==> c.ep.machine.phase == Idle && c.pending.value == xs[Current(c.ep)])
    && (forall k: nat :: k < |xs| ==> xs[k].carrier == k && k < |log.clientKeys| && xs[k].startKeys == log.clientKeys[k])
  }

  /** An answer from which the asking client derives exactly the server's keys. */
  ghost predicate Answers(suite: Suite, t: Transaction, k: nat, p: Pending, before: KeyPair, after: KeyPair)
  {
    && t.carrier == k && t.epoch == k + 1
    && t.request == InitPacket(suite, p)
    && t.response.Service? && t.response.kind == AckKind(suite)
    && (suite.V1? ==> |t.response.body| == KEY_SIZE) && t.response.body != []
    && FullSize(after)
    && Finish(suite, p.seed, p.startKeys, before, t.response.body) == Some(after)
  }

  /** Each server epoch answers the exchange of the same number; the last answer is remembered. */
  ghost predicate Transactions(suite: Suite, s: Server, log: Log)
  {
    var ts, n := log.answers, Newest(log);
    && |ts| == n <= |log.exchanges|
    && (forall k: nat :: k < n ==>
          Answers(suite, ts[k], k, log.exchanges[k], log.serverKeys[k], log.serverKeys[k + 1]))
    && s.transaction == LastTransaction(s.ep.machine, ts)
  }

  /** The last answer, with its flags read off the phase machine. */
  function LastTransaction(m: Machine, ts: seq<Transaction>): (result: Option<Transaction>)
  {
    if ts == [] then None
    else Some(ts[|ts| - 1].(sendActivated := m.phase != Staged, peerObserved := m.maxObserved >= |ts|))
  }

  lemma LastEpoch(suite: Suite, s: Server, log: Log)
    requires Transactions(suite, s, log)
    ensures s.transaction.Some? <==> Newest(log) > 0
    ensures s.transaction.Some? ==> s.transaction.value.epoch == Newest(log) == s.transaction.value.carrier + 1
  {
    var n := Newest(log);
    if n > 0 {
      assert Answers(suite, log.answers[n - 1], n - 1, log.exchanges[n - 1], log.serverKeys[n - 1], log.serverKeys[n]);
    }
  }

  /** An observation marks the last answer exactly when it is of that answer's epoch. */
  lemma ObserveTransactions(suite: Suite, s: Server, log: Log, epoch: uint16)
    requires Transactions(suite, s, log) && epoch <= Newest(log)
    ensures Transactions(suite, ServerObserve(s, epoch), log)
  {
    LastEpoch(suite, s, log);
  }

  /** The init of epoch k, or one of epoch k - 1 built just before the client moved on. */
  ghost predicate InitOf(suite: Suite, text: Plaintext, k: int, xs: seq<Pending>)
  {
    || (0 <= k < |xs| && text == InitPacket(suite, xs[k]))
    || (0 <= k - 1 < |xs| && text == InitPacket(suite, xs[k - 1]))
  }

  lemma InitOfGrows(suite: Suite, text: Plaintext, k: int, xs: seq<Pending>, p: Pending)
    requires InitOf(suite, text, k, xs)
    ensures InitOf(suite, text, k, xs + [p])
  {
  }

  ghost predicate AnswerOf(ack: Plaintext, carrier: uint16, answers: seq<Transaction>)
  {
    carrier < |answers| && ack == answers[carrier].response
  }

  /** From an answer to its pending exchange the client derives the server's next keys. */
  lemma AcceptedAck(suite: Suite, c: Client, s: Server, log: Log, p: Parcel)
    requires Exchanges(c, log) && Transactions(suite, s, log) && KeysAgree(log)
    requires Current(c.ep) < |log.clientKeys| && c.ep.machine.current == log.clientKeys[Current(c.ep)]
    requires c.pending.Some? && p.epoch == c.pending.value.carrier && AnswerOf(p.text, p.epoch, log.answers)
    ensures p.epoch == Current(c.ep) < Newest(log) && IsAnswer(suite, c, p.epoch, p.text)
    ensures var keys := log.serverKeys[p.epoch + 1];
            && FullSize(keys)
            && Finish(suite, c.pending.value.seed, c.pending.value.startKeys, c.ep.machine.current, p.text.body) == Some(keys)
  {
    var k := Current(c.ep);
    assert Answers(suite, log.answers[k], k, log.exchanges[k], log.serverKeys[k], log.serverKeys[k + 1]);
    assert log.clientKeys[k] == log.serverKeys[k];
  }

  /** An init the server acts on is the pending one, carried by the epoch both ends are on. */
  lemma AcceptedInit(suite: Suite, c: Client, s: Server, log: Log, parcel: Parcel)
    requires Exchanges(c, log) && Transactions(suite, s, log) && KeysAgree(log)
    requires parcel.epoch <= Current(c.ep) <= Newest(log)
    requires s.ep.machine.current == log.serverKeys[Newest(log)]
    requires InitOf(suite, parcel.text, parcel.epoch, log.exchanges)
    requires s.transaction.Some? ==> s.transaction.value.request != parcel.text && parcel.epoch == s.transaction.value.epoch
    ensures parcel.epoch == Newest(log) == Current(c.ep)
    ensures c.pending.Some? && parcel.text == InitPacket(suite, c.pending.value)
    ensures c.pending.value.startKeys == s.ep.machine.current
  {
    var n, xs := Newest(log), log.exchanges;
    if s.transaction.Some? {
      assert Answers(suite, log.answers[n - 1], n - 1, xs[n - 1], log.serverKeys[n - 1], log.serverKeys[n]);
    }
    assert parcel.epoch == n;
    assert parcel.text == InitPacket(suite, xs[n]);
    assert log.clientKeys[n] == log.serverKeys[n];
  }

  /** What a server that has just answered adds to the log. */
  lemma AnsweredTransactions(suite: Suite, c: Client, s: Server, s': Server, log: Log, answer: Response)
    requires Exchanges(c, log) && Transactions(suite, s, log)
    requires Current(c.ep) == Newest(log) < MAX_EPOCH && c.pending.Some?
    requires var p := c.pending.value;
             && (suite.V1? ==> |answer.body| == KEY_SIZE) && answer.body != [] && FullSize(answer.keys)
             && Finish(suite, p.seed, p.startKeys, log.serverKeys[Newest(log)], answer.body) == Some(answer.keys)
             && s'.transaction == Some(Transaction(InitPacket(suite, p), Service(AckKind(suite), answer.body),
                                                   Newest(log), Newest(log) + 1, false, false))
    requires s'.ep.machine.phase == Staged && s'.ep.machine.maxObserved <= Newest(log)
    ensures |log.answers| == Newest(log)
    ensures Transactions(suite, s', log.(serverKeys := log.serverKeys + [answer.keys],
                                         answers := log.answers + [s'.transaction.value]))
  {
    var n, ks', ts' := Newest(log), log.serverKeys + [answer.keys], log.answers + [s'.transaction.value];
    forall k: nat | k < n + 1
      ensures Answers(suite, ts'[k], k, log.exchanges[k], ks'[k], ks'[k + 1])
    {
      if k < n {
        assert Answers(suite, log.answers[k], k, log.exchanges[k], log.serverKeys[k], log.serverKeys[k + 1]);
      }
    }
  }
}
