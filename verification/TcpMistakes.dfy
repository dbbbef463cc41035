/**
 * The converse of delivery over TCP: acting on an ack, the client makes the next epoch usable
 * exactly when the ack is not mistaken; after a mistake that moved it, frames under that epoch
 * are lost in every continuation unless the server comes to install the same key.
 */
module TcpMistakes {
  import opened Basics
  import opened Coordinators
  import opened Epochs
  import opened Exchange
  import opened Nonces
  import opened TcpChannels
  import opened TcpEndpoints
  import opened TcpKeys
  import opened TcpProtocol
  import opened Transcripts

  /** Each end opens the first frame the other seals under epoch e, the newest of both. */
  ghost predicate Usable(client: Endpoint, server: Endpoint, e: nat)
  {
    && client.crypto.Tcp? && server.crypto.Tcp?
    && var c, s := client.crypto.tcp, server.crypto.tcp;
       && c.newest.epoch == e == s.newest.epoch
       && (forall text :: SealTcp(client, text).0.Some? && OpenTcp(server, SealTcp(client, text).0.value).0 == Some(text))
       && (forall text :: OpenTcp(client, TcpFrame(s.newest.epoch, 1, s.newest.sendKey, text)).0 == Some(text))
  }

  /** A client that has just moved to the epoch after those of ks, under new keys. */
  ghost predicate Moved(ep: Endpoint, ks: seq<KeyPair>, keys: KeyPair)
  {
    && |ks| <= MAX_EPOCH && TcpShaped(ep, ks + [keys], false)
    && ep.crypto.tcp.newest == NewTcpSession(|ks|, keys, false) && ep.crypto.tcp.sendsNewest
  }

  lemma UsableIff(client: Endpoint, ks: seq<KeyPair>, keys: KeyPair, server: Endpoint, serverKeys: seq<KeyPair>)
    requires Moved(client, ks, keys) && TcpShaped(server, serverKeys, true)
    requires |serverKeys| == |ks| + 1 ==> server.crypto.tcp.newest.received == 0
    ensures Usable(client, server, |ks|) <==> |serverKeys| == |ks| + 1 && keys == serverKeys[|ks|]
  {
    if Usable(client, server, |ks|) {
      var f := SealTcp(client, Data([])).0.value;
      assert OpenTcp(server, f).0 == Some(Data([]));
      assert OpenTcp(client, TcpFrame(server.crypto.tcp.newest.epoch, 1, server.crypto.tcp.newest.sendKey, Data([]))).0 == Some(Data([]));
    }
  }

  /** The keys a client derives from an ack's body. */
  function Derived(suite: Suite, c: Client, body: Bytes): (result: Option<KeyPair>)
  {
    if c.pending.None? then None
    else Finish(suite, c.pending.value.seed, c.pending.value.startKeys, c.ep.machine.current, body)
  }

  /** Acting on an ack either moves the client under the keys it derives or leaves its end alone. */
  lemma ActedClient(suite: Suite, sys: System, p: Parcel)
    requires Inv(suite, sys)
    ensures var (r, c) := HandleAck(suite, sys.client, p.epoch, p.text);
            && (c.pending != sys.client.pending ==> c.pending == None && IsAnswer(suite, sys.client, p.epoch, p.text))
            && (r != Ok(true) ==> c.ep == sys.client.ep)
            && (r == Ok(true) ==>
                  && c.pending != sys.client.pending && p.text.Service?
                  && Derived(suite, sys.client, p.text.body).Some?
                  && Moved(c.ep, sys.log.clientKeys, Derived(suite, sys.client, p.text.body).value))
  {
    hide Inv, TcpShaped, Finish, ActivateSend;
    var c := sys.client;
    ShapedEnds(suite, sys);
    if IsAnswer(suite, c, p.epoch, p.text) && Derived(suite, c, p.text.body).Some? {
      var ks, keys := sys.log.clientKeys, Derived(suite, c, p.text.body).value;
      TcpStartShaped(c.ep, ks, false, keys);
      var (r, ep) := StartRekey(c.ep, keys);
      if r.Ok? {
        TcpActivateShaped(ep, ks + [keys], false, r.value);
        TcpShapedFacts(ep, ks + [keys], false);
        PhasesKeepSessions(ep, r.value);
        MovedShape(c.ep, ep, ActivateSend(ep, r.value), ks, keys);
      }
    }
  }

  lemma MovedShape(ep: Endpoint, mid: Endpoint, ep': Endpoint, ks: seq<KeyPair>, keys: KeyPair)
    requires TcpShaped(ep, ks, false) && StartRekey(ep, keys).0.Ok? && mid == StartRekey(ep, keys).1
    requires TcpShaped(ep', ks + [keys], false) && ep'.machine.phase != Staged
    requires mid.crypto.Tcp? && ep'.crypto.tcp.newest == mid.crypto.tcp.newest
    ensures Moved(ep', ks, keys)
  {
  }

  lemma ServerUnheard(suite: Suite, sys: System)
    requires Inv(suite, sys)
    ensures TcpShaped(sys.server.ep, sys.log.serverKeys, true)
    ensures |sys.log.serverKeys| == |sys.log.clientKeys| + 1 ==> sys.server.ep.crypto.tcp.newest.received == 0
  {
    hide Framed, Transactions, Exchanges, KeysAgree, ServerTaskSound, ClientTaskSound, AcksPlaced, AnswerAhead;
    if |sys.log.serverKeys| == |sys.log.clientKeys| + 1 { CountNone(sys.up.sent[..sys.up.got], ServerNewest(sys)); }
  }

  /**
   * In a run faithful so far, the client's next step mistakes an ack exactly when it settles its
   * exchange and leaves the two ends without a next epoch that both can use.
   */
  lemma {:induction false} ExactlyFaithful(suite: Suite, keys: KeyPair, interval: nat, steps: seq<Step>, sys: System)
    requires Lawful(suite) && Faithful(suite, keys, interval, steps) && sys == Run(suite, keys, interval, steps)
    ensures var sys' := Next(suite, sys, ClientAdvance);
            Mistakes(suite, sys, ClientAdvance) <==>
              && sys'.client.pending != sys.client.pending
              && !Usable(sys'.client.ep, sys'.server.ep, ClientEpoch(sys) + 1)
  {
    hide Inv, HandleAck, IsAnswer, Finish, Usable, Moved, Record, Run, Faithful, Lawful;
    RunInv(suite, keys, interval, steps);
    if sys.clientOpen && sys.clientTask.Observed? && IsAck(sys.clientTask.parcel.text) {
      ActsExactly(suite, sys, sys.clientTask.parcel);
    }
  }

  /** Wherever the client settled its exchange in a run, it got an epoch both ends could use. */
  ghost predicate KeptTogether(suite: Suite, keys: KeyPair, interval: nat, steps: seq<Step>)
  {
    steps == [] ||
    var rest := steps[..|steps| - 1];
    var sys, sys' := Run(suite, keys, interval, rest), Run(suite, keys, interval, steps);
    && KeptTogether(suite, keys, interval, rest)
    && (steps[|steps| - 1] == ClientAdvance && sys'.client.pending != sys.client.pending ==>
          Usable(sys'.client.ep, sys'.server.ep, ClientEpoch(sys) + 1))
  }

  /** The faithful runs are exactly those that keep the two ends together. */
  lemma {:induction false} FaithfulIff(suite: Suite, keys: KeyPair, interval: nat, steps: seq<Step>)
    requires Lawful(suite)
    ensures Faithful(suite, keys, interval, steps) <==> KeptTogether(suite, keys, interval, steps)
  {
    hide Lawful, Next, Mistakes, Usable;
    if steps != [] {
      var rest, step := steps[..|steps| - 1], steps[|steps| - 1];
      FaithfulIff(suite, keys, interval, rest);
      if Faithful(suite, keys, interval, rest) {
        ExactlyFaithful(suite, keys, interval, rest, Run(suite, keys, interval, rest));
        OnlyAdvanceMistakes(suite, Run(suite, keys, interval, rest), step);
      }
    }
  }

  lemma OnlyAdvanceMistakes(suite: Suite, sys: System, step: Step)
    ensures Mistakes(suite, sys, step) ==> step == ClientAdvance
  {
  }

  lemma ActsExactly(suite: Suite, sys: System, p: Parcel)
    requires Inv(suite, sys)
    ensures var c := HandleAck(suite, sys.client, p.epoch, p.text).1;
            c.pending != sys.client.pending ==>
              && p.text.Service?
              && (Usable(c.ep, sys.server.ep, ClientEpoch(sys) + 1) <==> Fits(suite, sys, p.text.body))
  {
    hide Inv, HandleAck, Finish, Usable, Moved;
    var (r, c) := HandleAck(suite, sys.client, p.epoch, p.text);
    ActedClient(suite, sys, p);
    ServerUnheard(suite, sys);
    ShapedEnds(suite, sys);
    if r == Ok(true) {
      UsableIff(c.ep, sys.log.clientKeys, Derived(suite, sys.client, p.text.body).value, sys.server.ep, sys.log.serverKeys);
    } else if c.pending != sys.client.pending {
      StandsStill(c.ep, sys.log.clientKeys, sys.server.ep);
      if Fits(suite, sys, p.text.body) { FitsMoves(suite, sys, p); }
    }
  }

  lemma StandsStill(client: Endpoint, ks: seq<KeyPair>, server: Endpoint)
    requires TcpShaped(client, ks, false)
    ensures !Usable(client, server, |ks|)
  {
  }

  /** A client that acts on a fitting ack moves. */
  lemma FitsMoves(suite: Suite, sys: System, p: Parcel)
    requires Inv(suite, sys) && IsAnswer(suite, sys.client, p.epoch, p.text) && Fits(suite, sys, p.text.body)
    ensures HandleAck(suite, sys.client, p.epoch, p.text).0 == Ok(true)
  {
    hide Inv, TcpShaped, Finish, StartRekey, ActivateSend;
    FitsNewest(suite, sys, p.text.body);
    ShapedEnds(suite, sys);
    TcpStartShaped(sys.client.ep, sys.log.clientKeys, false, sys.log.serverKeys[ClientEpoch(sys) + 1]);
  }

  // ---- what a mistake breaks ----

  /** An end that sends under an epoch its reader does not have seals only frames the reader cannot open. */
  lemma AheadIsRefused(reader: Endpoint, readerKeys: seq<KeyPair>, sender: Endpoint, senderKeys: seq<KeyPair>,
                       isServer: bool, text: Plaintext)
    requires TcpShaped(reader, readerKeys, !isServer) && TcpShaped(sender, senderKeys, isServer)
    requires sender.machine.currentEpoch >= |readerKeys|
    ensures var f := SealTcp(sender, text).0;
            f.Some? ==> OpenTcp(reader, f.value).0 == None
  {
  }

  /** No frame the client seals now is one the server can open. */
  ghost predicate UpRefused(client: Endpoint, server: Endpoint)
  {
    forall text :: SealTcp(client, text).0.Some? ==> OpenTcp(server, SealTcp(client, text).0.value).0 == None
  }

  /** No frame under the server's newest epoch and key is one the client can open. */
  ghost predicate DownRefused(client: Endpoint, server: Endpoint)
  {
    server.crypto.Tcp? &&
    var s := server.crypto.tcp.newest;
    forall number, text :: OpenTcp(client, TcpFrame(s.epoch, number, s.sendKey, text)).0 == None
  }

  /** A client that has moved by mistake cannot be read, or cannot read the server's newest epoch. */
  lemma MovedByMistake(client: Endpoint, ks: seq<KeyPair>, keys: KeyPair, server: Endpoint, serverKeys: seq<KeyPair>)
    requires Moved(client, ks, keys) && TcpShaped(server, serverKeys, true) && |serverKeys| <= |ks| + 1
    requires |serverKeys| == |ks| + 1 ==> keys != serverKeys[|ks|]
    ensures UpRefused(client, server) || DownRefused(client, server)
  {
    if |serverKeys| == |ks| + 1 && keys.c2s == serverKeys[|ks|].c2s {
      assert DownRefused(client, server);
    } else {
      assert UpRefused(client, server);
    }
  }

  /**
   * Right after a mistake the client either has moved, and then one direction is refused between
   * the ends as they are, or has given its exchange up, and then it follows no answer to it and
   * opens nothing under a later epoch.
   */
  lemma {:induction false} AfterMistake(suite: Suite, keys: KeyPair, interval: nat, steps: seq<Step>, sys: System)
    requires Lawful(suite) && Faithful(suite, keys, interval, steps) && sys == Run(suite, keys, interval, steps)
    requires Mistakes(suite, sys, ClientAdvance)
    ensures var sys' := Next(suite, sys, ClientAdvance);
            var c := sys'.client;
            || (ClientEpoch(sys') == ClientEpoch(sys) + 1
                && (UpRefused(c.ep, sys'.server.ep) || DownRefused(c.ep, sys'.server.ep)))
            || (c.ep == sys.client.ep
                && (forall carrier, ack :: HandleAck(suite, c, carrier, ack) == (Ok(false), c))
                && (forall server, ks, text :: TcpShaped(server, ks, true) && server.machine.currentEpoch > ClientEpoch(sys') ==>
                      Refused(server, c.ep, text)))
  {
    hide Inv, HandleAck, IsAnswer, Finish, Moved, Record, Run, Faithful, Lawful, UpRefused, DownRefused, TcpShaped, Refused;
    RunInv(suite, keys, interval, steps);
    MistakeBreaks(suite, sys, sys.clientTask.parcel);
  }

  ghost predicate Refused(sender: Endpoint, reader: Endpoint, text: Plaintext)
  {
    var f := SealTcp(sender, text).0;
    f.Some? ==> OpenTcp(reader, f.value).0 == None
  }

  lemma MistakeBreaks(suite: Suite, sys: System, p: Parcel)
    requires Inv(suite, sys) && IsAck(p.text)
    requires HandleAck(suite, sys.client, p.epoch, p.text).1.pending != sys.client.pending && !Fits(suite, sys, p.text.body)
    ensures var (r, c) := HandleAck(suite, sys.client, p.epoch, p.text);
            || (Current(c.ep) == ClientEpoch(sys) + 1 && (UpRefused(c.ep, sys.server.ep) || DownRefused(c.ep, sys.server.ep)))
            || (c.ep == sys.client.ep
                && (forall carrier, ack :: HandleAck(suite, c, carrier, ack) == (Ok(false), c))
                && (forall server, ks, text :: TcpShaped(server, ks, true) && server.machine.currentEpoch > Current(c.ep) ==>
                      Refused(server, c.ep, text)))
  {
    hide Inv, Finish, Moved, UpRefused, DownRefused, TcpShaped, HandleAck, Refused;
    var (r, c) := HandleAck(suite, sys.client, p.epoch, p.text);
    ActedClient(suite, sys, p);
    ServerUnheard(suite, sys);
    ShapedEnds(suite, sys);
    if r == Ok(true) {
      var keys := Derived(suite, sys.client, p.text.body).value;
      MovedEpoch(c.ep, sys.log.clientKeys, keys);
      MovedByMistake(c.ep, sys.log.clientKeys, keys, sys.server.ep, sys.log.serverKeys);
    } else {
      NothingPending(suite, c);
      forall server, ks, text | TcpShaped(server, ks, true) && server.machine.currentEpoch > Current(c.ep)
        ensures Refused(server, c.ep, text)
      {
        LaterRefused(server, ks, c.ep, sys.log.clientKeys, text);
      }
    }
  }

  lemma LaterRefused(server: Endpoint, ks: seq<KeyPair>, client: Endpoint, clientKeys: seq<KeyPair>, text: Plaintext)
    requires TcpShaped(server, ks, true) && TcpShaped(client, clientKeys, false)
    requires server.machine.currentEpoch >= |clientKeys|
    ensures Refused(server, client, text)
  {
    hide TcpShaped;
    AheadIsRefused(client, clientKeys, server, ks, true, text);
  }

  lemma MovedEpoch(ep: Endpoint, ks: seq<KeyPair>, keys: KeyPair)
    requires Moved(ep, ks, keys)
    ensures Current(ep) == |ks|
  {
  }

  lemma NothingPending(suite: Suite, c: Client)
    requires c.pending == None
    ensures forall carrier, ack :: HandleAck(suite, c, carrier, ack) == (Ok(false), c)
  {
  }

  // ---- for how long ----

  /** Of all the client has sent under an epoch, the server has read nothing and opens nothing. */
  ghost predicate UpLost(sys: System, epoch: nat)
  {
    forall i :: 0 <= i < |sys.up.sent| && sys.up.sent[i].epoch == epoch ==>
      sys.up.got <= i && OpenTcp(sys.server.ep, sys.up.sent[i]).0 == None
  }

  /** Of all the server has sent under an epoch, the client has read nothing and opens nothing. */
  ghost predicate DownLost(sys: System, epoch: nat)
  {
    forall i :: 0 <= i < |sys.down.sent| && sys.down.sent[i].epoch == epoch ==>
      sys.down.got <= i && OpenTcp(sys.client.ep, sys.down.sent[i]).0 == None
  }

  /** In any run, an epoch whose key towards the server the two ends do not share is lost that way. */
  lemma {:induction false} UnsharedUpLost(suite: Suite, keys: KeyPair, interval: nat, steps: seq<Step>, sys: System, epoch: nat)
    requires sys == Run(suite, keys, interval, steps) && !ShareUp(sys.log, epoch)
    ensures UpLost(sys, epoch)
  {
    hide Run, OpenTcp;
    forall i | 0 <= i < |sys.up.sent| && sys.up.sent[i].epoch == epoch
      ensures sys.up.got <= i && OpenTcp(sys.server.ep, sys.up.sent[i]).0 == None
    {
      if i < sys.up.got || OpenTcp(sys.server.ep, sys.up.sent[i]).0.Some? { UpNeedsSharedKey(suite, keys, interval, steps, sys, i); }
    }
  }

  lemma {:induction false} UnsharedDownLost(suite: Suite, keys: KeyPair, interval: nat, steps: seq<Step>, sys: System, epoch: nat)
    requires sys == Run(suite, keys, interval, steps) && !ShareDown(sys.log, epoch)
    ensures DownLost(sys, epoch)
  {
    hide Run, OpenTcp;
    forall i | 0 <= i < |sys.down.sent| && sys.down.sent[i].epoch == epoch
      ensures sys.down.got <= i && OpenTcp(sys.client.ep, sys.down.sent[i]).0 == None
    {
      if i < sys.down.got || OpenTcp(sys.client.ep, sys.down.sent[i]).0.Some? {
        DownNeedsSharedKey(suite, keys, interval, steps, sys, i);
      }
    }
  }

  /** What a mistake that moves the client writes down: keys the server does not hold for that epoch. */
  lemma {:induction false} MistakenKeys(suite: Suite, keys: KeyPair, interval: nat, steps: seq<Step>, sys: System, moved: System)
    requires Lawful(suite) && Faithful(suite, keys, interval, steps) && sys == Run(suite, keys, interval, steps)
    requires Mistakes(suite, sys, ClientAdvance) && moved == Next(suite, sys, ClientAdvance)
    requires ClientEpoch(moved) == ClientEpoch(sys) + 1
    ensures var e := ClientEpoch(moved);
            && e < |moved.log.clientKeys| && moved.log.clientKeys[e] == moved.client.ep.machine.current
            && moved.log.serverKeys == sys.log.serverKeys
            && (e < |sys.log.serverKeys| ==> sys.log.serverKeys[e] != moved.client.ep.machine.current)
  {
    hide Inv, HandleAck, IsAnswer, Finish, Moved, Run, Faithful, Lawful, TcpShaped, Keyed;
    var p := sys.clientTask.parcel;
    RunInv(suite, keys, interval, steps);
    ActedClient(suite, sys, p);
    ShapedEnds(suite, sys);
    var made := Derived(suite, sys.client, p.text.body);
    MovedInstalls(sys.client.ep, moved.client.ep, sys.log.clientKeys, made.value);
  }

  lemma MovedInstalls(ep: Endpoint, ep': Endpoint, ks: seq<KeyPair>, keys: KeyPair)
    requires TcpShaped(ep, ks, false) && Moved(ep', ks, keys)
    ensures Current(ep') == |ks| && ep'.machine.current == keys && Installed(ep, ep', ks) == ks + [keys]
  {
  }

  /**
   * In every continuation after a mistake that moved the client, its keys for that epoch stay, and
   * a direction of that epoch is lost unless the server has installed the same key for it; where
   * the server had installed the epoch before the mistake, one direction is lost for good.
   */
  lemma {:induction false} MistakeLasts(suite: Suite, keys: KeyPair, interval: nat, steps: seq<Step>, more: seq<Step>,
                                        sys: System, moved: System, late: System)
    requires Lawful(suite) && Faithful(suite, keys, interval, steps) && sys == Run(suite, keys, interval, steps)
    requires Mistakes(suite, sys, ClientAdvance) && moved == Next(suite, sys, ClientAdvance)
    requires ClientEpoch(moved) == ClientEpoch(sys) + 1
    requires late == Run(suite, keys, interval, steps + [ClientAdvance] + more)
    ensures var e, mine, theirs := ClientEpoch(moved), moved.client.ep.machine.current, late.log.serverKeys;
            && e < |late.log.clientKeys| && late.log.clientKeys[e] == mine
            && ((e < |theirs| && theirs[e].c2s == mine.c2s) || UpLost(late, e))
            && ((e < |theirs| && theirs[e].s2c == mine.s2c) || DownLost(late, e))
            && (e < |sys.log.serverKeys| ==>
                  sys.log.serverKeys <= theirs && theirs[e] != mine && (UpLost(late, e) || DownLost(late, e)))
  {
    hide Inv, Faithful, Lawful, Mistakes, UpLost, DownLost, Move, Logged;
    var e := ClientEpoch(moved);
    MistakenKeys(suite, keys, interval, steps, sys, moved);
    var so := steps + [ClientAdvance];
    assert so[..|so| - 1] == steps;
    KeysStay(suite, keys, interval, so, more);
    if !ShareUp(late.log, e) { UnsharedUpLost(suite, keys, interval, so + more, late, e); }
    if !ShareDown(late.log, e) { UnsharedDownLost(suite, keys, interval, so + more, late, e); }
  }
}
