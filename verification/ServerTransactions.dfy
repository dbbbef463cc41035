/** The server coordinator on its own: every sequence of calls, over either back end. */
module ServerTransactions {
  import opened Basics
  import opened Coordinators
  import opened Epochs
  import opened Exchange

  datatype Call =
    | CallHandle(request: Plaintext, carrier: uint16, seed: Seed)
    | CallActivate(epoch: uint16)
    | CallObserve(epoch: uint16)

  /** ledger lists the transactions that staged an epoch, as they were when opened. */
  datatype History = History(server: Server, ledger: seq<Transaction>)

  function Do(suite: Suite, s: Server, call: Call): (result: Server)
  {
    match call
    case CallHandle(request, carrier, seed) => Handle(suite, s, carrier, request, seed).1
    case CallActivate(epoch) => ServerActivate(s, epoch)
    case CallObserve(epoch) => ServerObserve(s, epoch)
  }

  function Next(suite: Suite, h: History, call: Call): (result: History)
  {
    var s := Do(suite, h.server, call);
    History(s, if Allocated(s.ep) != Allocated(h.server.ep) && s.transaction.Some?
               then h.ledger + [s.transaction.value] else h.ledger)
  }

  function Start(crypto: Crypto, keys: KeyPair): (result: History)
  {
    History(Server(None, Endpoint(NewMachine(keys), crypto)), [])
  }

  /** A back end no epoch has been staged on yet. */
  predicate Unused(crypto: Crypto)
  {
    match crypto
    case Udp(u) => u.counter == 0
    case Tcp(t) => t.counter == 0
  }

  function Run(suite: Suite, start: History, calls: seq<Call>): (result: History)
  {
    if calls == [] then start else Next(suite, Run(suite, start, calls[..|calls| - 1]), calls[|calls| - 1])
  }

  /** Epochs come from authenticated packets and from replies, so each has been allocated. */
  predicate KnownEpoch(s: Server, call: Call)
  {
    match call
    case CallHandle(_, carrier, _) => carrier <= Allocated(s.ep)
    case CallActivate(epoch) => epoch <= Allocated(s.ep)
    case CallObserve(epoch) => epoch <= Allocated(s.ep)
  }

  predicate Known(suite: Suite, start: History, calls: seq<Call>)
  {
    calls == [] ||
    (Known(suite, start, calls[..|calls| - 1])
     && KnownEpoch(Run(suite, start, calls[..|calls| - 1]).server, calls[|calls| - 1]))
  }

  predicate Completed(calls: seq<Call>, epoch: uint16)
  {
    CallActivate(epoch) in calls && CallObserve(epoch) in calls
  }

  /** The k-th transaction is carried by epoch k and stages epoch k + 1; all but the last are complete. */
  ghost predicate Ordered(h: History, calls: seq<Call>)
  {
    var n, t := |h.ledger|, h.server.transaction;
    && n == Allocated(h.server.ep)
    && (forall k :: 0 <= k < n ==> h.ledger[k].carrier == k && h.ledger[k].epoch == k + 1)
    && (forall k :: 1 <= k < n ==> Completed(calls, k))
    && (forall call :: call in calls ==> KnownEpoch(h.server, call))
    && t == (if n == 0 then None
             else Some(h.ledger[n - 1].(sendActivated := CallActivate(n) in calls, peerObserved := CallObserve(n) in calls)))
  }

  lemma PhasesAllocateNothing(ep: Endpoint, epoch: uint16)
    ensures Allocated(ActivateSend(ep, epoch)) == Allocated(ep)
    ensures Allocated(ObservePeer(ep, epoch)) == Allocated(ep)
  {
  }

  lemma StartAllocatesNext(ep: Endpoint, keys: KeyPair)
    ensures var (r, ep') := StartRekey(ep, keys);
            && (r.Ok? ==> r.value == Allocated(ep) + 1 == Allocated(ep'))
            && (r.Err? ==> ep' == ep)
  {
  }

  /** Only an unanswered request moves the coordinator, and then by exactly one epoch. */
  lemma HandleCases(suite: Suite, s: Server, carrier: uint16, request: Plaintext, seed: Seed)
    ensures var (r, s') := Handle(suite, s, carrier, request, seed);
            || (s' == s && (r.Ok? && r.value.Some? ==>
                              && s.transaction.Some?
                              && s.transaction.value.request == request && s.transaction.value.carrier == carrier
                              && r.value == Some(Reply(s.transaction.value.response, s.transaction.value.epoch))))
            || (&& r.Ok? && r.value.Some?
                && Allocated(s'.ep) == Allocated(s.ep) + 1 == r.value.value.epoch
                && s'.transaction == Some(Transaction(request, r.value.value.response, carrier, Allocated(s'.ep), false, false))
                && (s.transaction.Some? ==> s.transaction.value.Complete() && carrier == s.transaction.value.epoch))
  {
    hide StartRekey, Respond;
    if IsRequest(suite, request) {
      var answer := Respond(suite, seed, s.ep.machine.current, request.body);
      if answer.Some? { StartAllocatesNext(s.ep, answer.value.keys); }
    }
  }

  lemma HandleOrdered(suite: Suite, h: History, calls: seq<Call>, call: Call)
    requires Ordered(h, calls) && KnownEpoch(h.server, call) && call.CallHandle?
    ensures Ordered(Next(suite, h, call), calls + [call])
  {
    hide Handle, Allocated;
    var n, all := |h.ledger|, calls + [call];
    forall k | 1 <= k < n ensures Completed(all, k) { assert Completed(calls, k); }
    HandleCases(suite, h.server, call.carrier, call.request, call.seed);
  }

  lemma FlagOrdered(suite: Suite, h: History, calls: seq<Call>, call: Call)
    requires Ordered(h, calls) && KnownEpoch(h.server, call) && !call.CallHandle?
    ensures Ordered(Next(suite, h, call), calls + [call])
  {
    hide ActivateSend, ObservePeer, Allocated;
    var n, all := |h.ledger|, calls + [call];
    forall k | 1 <= k < n ensures Completed(all, k) { assert Completed(calls, k); }
    PhasesAllocateNothing(h.server.ep, call.epoch);
    assert CallActivate(n) in all <==> CallActivate(n) in calls || call == CallActivate(n);
    assert CallObserve(n) in all <==> CallObserve(n) in calls || call == CallObserve(n);
  }

  lemma NextOrdered(suite: Suite, h: History, calls: seq<Call>, call: Call)
    requires Ordered(h, calls) && KnownEpoch(h.server, call)
    ensures Ordered(Next(suite, h, call), calls + [call])
  {
    hide Ordered, Next, KnownEpoch;
    if call.CallHandle? { HandleOrdered(suite, h, calls, call); } else { FlagOrdered(suite, h, calls, call); }
  }

  lemma {:induction false} RunOrdered(suite: Suite, crypto: Crypto, keys: KeyPair, calls: seq<Call>)
    requires Unused(crypto) && Known(suite, Start(crypto, keys), calls)
    ensures Ordered(Run(suite, Start(crypto, keys), calls), calls)
  {
    hide Next;
    if calls != [] {
      var n := |calls| - 1;
      RunOrdered(suite, crypto, keys, calls[..n]);
      NextOrdered(suite, Run(suite, Start(crypto, keys), calls[..n]), calls[..n], calls[n]);
      assert calls[..n] + [calls[n]] == calls;
    }
  }

  /** No (request, carrier epoch) pair stages an epoch twice: transactions are carried by 0, 1, 2, ... */
  lemma {:induction false} OpenedAtMostOnce(suite: Suite, crypto: Crypto, keys: KeyPair, calls: seq<Call>, i: nat, j: nat)
    requires Unused(crypto) && Known(suite, Start(crypto, keys), calls)
    requires i < j < |Run(suite, Start(crypto, keys), calls).ledger|
    ensures var ledger := Run(suite, Start(crypto, keys), calls).ledger;
            && ledger[i].carrier == i && ledger[i].epoch == i + 1
            && (ledger[i].request, ledger[i].carrier) != (ledger[j].request, ledger[j].carrier)
  {
    RunOrdered(suite, crypto, keys, calls);
  }

  /** Every answer belongs to the transaction of its carrier epoch, opened before or by this very call. */
  lemma {:induction false} AnswersComeFromTransactions(suite: Suite, crypto: Crypto, keys: KeyPair, calls: seq<Call>,
                                    request: Plaintext, carrier: uint16, seed: Seed)
    requires Unused(crypto) && Known(suite, Start(crypto, keys), calls)
    requires KnownEpoch(Run(suite, Start(crypto, keys), calls).server, CallHandle(request, carrier, seed))
    ensures var h := Run(suite, Start(crypto, keys), calls);
            var r := Handle(suite, h.server, carrier, request, seed).0;
            var ledger := Next(suite, h, CallHandle(request, carrier, seed)).ledger;
            r.Ok? && r.value.Some? ==>
              && carrier < |ledger| && ledger[carrier].request == request
              && r.value == Some(Reply(ledger[carrier].response, ledger[carrier].epoch))
  {
    hide Handle, Run, Allocated;
    var h := Run(suite, Start(crypto, keys), calls);
    RunOrdered(suite, crypto, keys, calls);
    HandleCases(suite, h.server, carrier, request, seed);
  }

  /**
   * Once answered, a request repeated on its carrier epoch changes nothing; it gets the first
   * answer again until that epoch has been both activated and observed, and then no answer.
   */
  lemma {:induction false} RepeatsAreIdempotent(suite: Suite, crypto: Crypto, keys: KeyPair, calls: seq<Call>,
                             h: History, request: Plaintext, carrier: uint16, seed: Seed)
    requires Unused(crypto) && Known(suite, Start(crypto, keys), calls) && h == Run(suite, Start(crypto, keys), calls)
    requires IsRequest(suite, request) && carrier < |h.ledger| && h.ledger[carrier].request == request
    ensures Handle(suite, h.server, carrier, request, seed) ==
            (Ok(if Completed(calls, h.ledger[carrier].epoch) then None
                else Some(Reply(h.ledger[carrier].response, h.ledger[carrier].epoch))), h.server)
  {
    hide Run;
    RunOrdered(suite, crypto, keys, calls);
  }

  /** Transactions are never forgotten or altered by later calls. */
  lemma {:induction false} OpenedGrows(suite: Suite, start: History, calls: seq<Call>, more: seq<Call>)
    ensures Run(suite, start, calls).ledger <= Run(suite, start, calls + more).ledger
    decreases |more|
  {
    hide Do;
    if more == [] {
      assert calls + more == calls;
    } else {
      assert (calls + more)[..|calls + more| - 1] == calls + more[..|more| - 1];
      OpenedGrows(suite, start, calls, more[..|more| - 1]);
    }
  }
}
