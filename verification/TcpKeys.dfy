/**
 * What every TCP run keeps, whatever acks were mistaken in it: an end reads only frames sealed
 * with the key it has itself installed for their epoch and direction, and installed keys stay.
 */
module TcpKeys {
  import opened Basics
  import opened Coordinators
  import opened Epochs
  import opened Exchange
  import opened Nonces
  import opened TcpChannels
  import opened TcpEndpoints
  import opened TcpProtocol
  import opened TcpTheorems
  import opened Transcripts

  /** Each frame carries the sending key of its epoch in ks; isServer tells who sent them. */
  ghost predicate Under(frames: seq<TcpFrame>, ks: seq<KeyPair>, isServer: bool)
  {
    forall i :: 0 <= i < |frames| ==> frames[i].epoch < |ks| && frames[i].key == SendKey(ks[frames[i].epoch], isServer)
  }

  /** The sender's keys are on everything sent, the reader's on everything read. */
  ghost predicate Keyed(ch: Channel, sender: seq<KeyPair>, reader: seq<KeyPair>, isServer: bool)
  {
    ch.got <= |ch.sent| && Under(ch.sent, sender, isServer) && Under(ch.sent[..ch.got], reader, isServer)
  }

  ghost predicate KeysInv(sys: System)
  {
    var log := sys.log;
    && TcpShaped(sys.client.ep, log.clientKeys, false) && TcpShaped(sys.server.ep, log.serverKeys, true)
    && Keyed(sys.up, log.clientKeys, log.serverKeys, false)
    && Keyed(sys.down, log.serverKeys, log.clientKeys, true)
  }

  // ---- frames ----

  lemma SealsUnder(ep: Endpoint, ks: seq<KeyPair>, isServer: bool, text: Plaintext)
    requires TcpShaped(ep, ks, isServer)
    ensures var f := SealTcp(ep, text).0;
            f.Some? ==> f.value.epoch < |ks| && f.value.key == SendKey(ks[f.value.epoch], isServer)
  {
  }

  lemma OpensUnder(ep: Endpoint, ks: seq<KeyPair>, isServer: bool, f: TcpFrame)
    requires TcpShaped(ep, ks, isServer) && OpenTcp(ep, f).0.Some?
    ensures f.epoch < |ks| && f.key == SendKey(ks[f.epoch], !isServer)
  {
  }

  lemma KeyedAppended(ch: Channel, f: TcpFrame, sender: seq<KeyPair>, reader: seq<KeyPair>, isServer: bool)
    requires Keyed(ch, sender, reader, isServer) && f.epoch < |sender| && f.key == SendKey(sender[f.epoch], isServer)
    ensures Keyed(Appended(ch, f), sender, reader, isServer)
  {
    assert Appended(ch, f).sent[..ch.got] == ch.sent[..ch.got];
  }

  lemma KeyedRead(ch: Channel, sender: seq<KeyPair>, reader: seq<KeyPair>, isServer: bool)
    requires Keyed(ch, sender, reader, isServer) && ch.got < |ch.sent|
    requires var f := ch.sent[ch.got]; f.epoch < |reader| && f.key == SendKey(reader[f.epoch], isServer)
    ensures Keyed(Read(ch), sender, reader, isServer)
  {
    assert ch.sent[..ch.got + 1] == ch.sent[..ch.got] + [ch.sent[ch.got]];
  }

  lemma KeyedGrows(ch: Channel, sender: seq<KeyPair>, sender': seq<KeyPair>, reader: seq<KeyPair>, reader': seq<KeyPair>,
                   isServer: bool)
    requires Keyed(ch, sender, reader, isServer) && sender <= sender' && reader <= reader'
    ensures Keyed(ch, sender', reader', isServer)
  {
  }

  // ---- the two ends ----

  /** The keys a call leaves an end with, as the log writes them down. */
  function Installed(ep: Endpoint, ep': Endpoint, ks: seq<KeyPair>): (ks': seq<KeyPair>)
    ensures ks <= ks'
  {
    if Allocated(ep') > Allocated(ep) then ks + [NewestKeys(ep')] else ks
  }

  lemma SameShape(ep: Endpoint, ep': Endpoint, ks: seq<KeyPair>, isServer: bool)
    requires TcpShaped(ep, ks, isServer) && TcpShaped(ep', ks, isServer)
    ensures Installed(ep, ep', ks) == ks
  {
  }

  lemma GrownShape(ep: Endpoint, ep': Endpoint, ks: seq<KeyPair>, keys: KeyPair, isServer: bool)
    requires TcpShaped(ep, ks, isServer) && TcpShaped(ep', ks + [keys], isServer)
    ensures Installed(ep, ep', ks) == ks + [keys]
  {
  }

  lemma AckShaped(suite: Suite, c: Client, ks: seq<KeyPair>, carrier: uint16, ack: Plaintext)
    requires TcpShaped(c.ep, ks, false)
    ensures var ep := HandleAck(suite, c, carrier, ack).1.ep;
            TcpShaped(ep, Installed(c.ep, ep, ks), false)
  {
    hide TcpShaped, Finish, StartRekey, ActivateSend, Installed;
    SameShape(c.ep, c.ep, ks, false);
    if IsAnswer(suite, c, carrier, ack) {
      var p := c.pending.value;
      var keys := Finish(suite, p.seed, p.startKeys, c.ep.machine.current, ack.body);
      if keys.Some? {
        TcpStartShaped(c.ep, ks, false, keys.value);
        var (r, ep) := StartRekey(c.ep, keys.value);
        if r.Ok? {
          TcpActivateShaped(ep, ks + [keys.value], false, r.value);
          GrownShape(c.ep, ActivateSend(ep, r.value), ks, keys.value, false);
        }
      }
    }
  }

  lemma HandleShaped(suite: Suite, s: Server, ks: seq<KeyPair>, carrier: uint16, request: Plaintext, seed: Seed)
    requires TcpShaped(s.ep, ks, true)
    ensures var ep := Handle(suite, s, carrier, request, seed).1.ep;
            TcpShaped(ep, Installed(s.ep, ep, ks), true)
  {
    hide TcpShaped, Respond, StartRekey, Installed;
    SameShape(s.ep, s.ep, ks, true);
    if IsRequest(suite, request) {
      var answer := Respond(suite, seed, s.ep.machine.current, request.body);
      if answer.Some? {
        TcpStartShaped(s.ep, ks, true, answer.value.keys);
        var (r, ep) := StartRekey(s.ep, answer.value.keys);
        if r.Ok? { GrownShape(s.ep, ep, ks, answer.value.keys, true); }
      }
    }
  }

  // ---- every step ----

  /** Both ends and both streams, without the log of a step that is still being written down. */
  ghost predicate Reaches(sys: System, sys': System)
  {
    var log := sys.log;
    var clientKeys := Installed(sys.client.ep, sys'.client.ep, log.clientKeys);
    var serverKeys := Installed(sys.server.ep, sys'.server.ep, log.serverKeys);
    && TcpShaped(sys'.client.ep, clientKeys, false) && TcpShaped(sys'.server.ep, serverKeys, true)
    && Keyed(sys'.up, clientKeys, serverKeys, false) && Keyed(sys'.down, serverKeys, clientKeys, true)
  }

  lemma Stays(sys: System, sys': System)
    requires KeysInv(sys) && sys'.up == sys.up && sys'.down == sys.down
    requires TcpShaped(sys'.client.ep, Installed(sys.client.ep, sys'.client.ep, sys.log.clientKeys), false)
    requires TcpShaped(sys'.server.ep, Installed(sys.server.ep, sys'.server.ep, sys.log.serverKeys), true)
    ensures Reaches(sys, sys')
  {
    hide TcpShaped, Keyed, Installed;
    var log := sys.log;
    var clientKeys := Installed(sys.client.ep, sys'.client.ep, log.clientKeys);
    var serverKeys := Installed(sys.server.ep, sys'.server.ep, log.serverKeys);
    KeyedGrows(sys.up, log.clientKeys, clientKeys, log.serverKeys, serverKeys, false);
    KeyedGrows(sys.down, log.serverKeys, serverKeys, log.clientKeys, clientKeys, true);
  }

  lemma Unmoved(sys: System)
    requires KeysInv(sys)
    ensures Installed(sys.client.ep, sys.client.ep, sys.log.clientKeys) == sys.log.clientKeys
    ensures Installed(sys.server.ep, sys.server.ep, sys.log.serverKeys) == sys.log.serverKeys
    ensures Reaches(sys, sys)
  {
    hide TcpShaped, Keyed;
  }

  lemma ClientSends(sys: System, text: Plaintext)
    requires KeysInv(sys)
    ensures Reaches(sys, ClientTransmit(sys, text).1)
  {
    hide TcpShaped, Keyed, SealTcp, Installed;
    Unmoved(sys);
    var ks := sys.log.clientKeys;
    var (f, ep) := SealTcp(sys.client.ep, text);
    TcpSealShaped(sys.client.ep, ks, false, text);
    SealsUnder(sys.client.ep, ks, false, text);
    SameShape(sys.client.ep, ep, ks, false);
    if f.Some? { KeyedAppended(sys.up, f.value, ks, sys.log.serverKeys, false); }
  }

  lemma ServerSends(sys: System, text: Plaintext)
    requires KeysInv(sys)
    ensures Reaches(sys, ServerTransmit(sys, text).1)
  {
    hide TcpShaped, Keyed, SealTcp, Installed;
    Unmoved(sys);
    var ks := sys.log.serverKeys;
    var (f, ep) := SealTcp(sys.server.ep, text);
    TcpSealShaped(sys.server.ep, ks, true, text);
    SealsUnder(sys.server.ep, ks, true, text);
    SameShape(sys.server.ep, ep, ks, true);
    if f.Some? { KeyedAppended(sys.down, f.value, ks, sys.log.clientKeys, true); }
  }

  lemma ClientReads(suite: Suite, sys: System)
    requires KeysInv(sys)
    ensures Reaches(sys, Move(suite, sys, ClientReceive))
  {
    hide TcpShaped, Keyed, OpenTcp, Installed;
    Unmoved(sys);
    if sys.down.got < |sys.down.sent| {
      var f, ks := sys.down.sent[sys.down.got], sys.log.clientKeys;
      var (text, ep) := OpenTcp(sys.client.ep, f);
      TcpOpenShaped(sys.client.ep, ks, false, f);
      SameShape(sys.client.ep, ep, ks, false);
      if text.Some? {
        OpensUnder(sys.client.ep, ks, false, f);
        KeyedRead(sys.down, sys.log.serverKeys, ks, true);
      }
    }
  }

  lemma ServerReads(suite: Suite, sys: System)
    requires KeysInv(sys)
    ensures Reaches(sys, Move(suite, sys, ServerReceive))
  {
    hide TcpShaped, Keyed, OpenTcp, Installed;
    Unmoved(sys);
    if sys.up.got < |sys.up.sent| {
      var f, ks := sys.up.sent[sys.up.got], sys.log.serverKeys;
      var (text, ep) := OpenTcp(sys.server.ep, f);
      TcpOpenShaped(sys.server.ep, ks, true, f);
      SameShape(sys.server.ep, ep, ks, true);
      if text.Some? {
        OpensUnder(sys.server.ep, ks, true, f);
        KeyedRead(sys.up, sys.log.clientKeys, ks, false);
      }
    }
  }

  lemma ClientAdvances(suite: Suite, sys: System)
    requires KeysInv(sys)
    ensures Reaches(sys, AdvanceClient(suite, sys))
  {
    hide TcpShaped, Keyed, HandleAck, ObservePeer, Installed, Reaches;
    Unmoved(sys);
    var c, ks := sys.client, sys.log.clientKeys;
    match sys.clientTask
    case Opened(p) =>
      TcpObserveShaped(c.ep, ks, false, p.epoch);
      SameShape(c.ep, ObservePeer(c.ep, p.epoch), ks, false);
      Stays(sys, AdvanceClient(suite, sys));
    case Observed(p) =>
      AckShaped(suite, c, ks, p.epoch, p.text);
      Stays(sys, AdvanceClient(suite, sys));
    case _ =>
  }

  lemma ServerAdvances(suite: Suite, sys: System, seed: Seed)
    requires KeysInv(sys)
    ensures Reaches(sys, AdvanceServer(suite, sys, seed))
  {
    hide TcpShaped, Keyed, Handle, ObservePeer, ActivateSend, ServerTransmit, Installed;
    Unmoved(sys);
    var s, ks := sys.server, sys.log.serverKeys;
    match sys.serverTask
    case Opened(p) =>
      TcpObserveShaped(s.ep, ks, true, p.epoch);
      SameShape(s.ep, ObservePeer(s.ep, p.epoch), ks, true);
      Stays(sys, AdvanceServer(suite, sys, seed));
    case Observed(p) =>
      HandleShaped(suite, s, ks, p.epoch, p.text, seed);
      Stays(sys, AdvanceServer(suite, sys, seed));
    case Replying(reply, _) => ServerSends(sys, reply);
    case Promoting(epoch) =>
      TcpActivateShaped(s.ep, ks, true, epoch);
      SameShape(s.ep, ActivateSend(s.ep, epoch), ks, true);
      Stays(sys, AdvanceServer(suite, sys, seed));
    case _ =>
  }

  lemma MoveReaches(suite: Suite, sys: System, step: Step)
    requires KeysInv(sys)
    ensures Reaches(sys, Move(suite, sys, step))
  {
    hide KeysInv, TcpShaped, Keyed, MaybeBuildInit, ClientTransmit, ServerTransmit, OpenTcp, AdvanceClient, AdvanceServer, Installed;
    Unmoved(sys);
    match step
    case ClientBuild(now, draw, room) => BuildKeepsEnd(suite, sys.client, now, draw, room);
    case ClientSendBuilt => if sys.built.Some? { BuiltSends(sys); }
    case ClientSend(text) => ClientSends(sys, text);
    case ClientReceive => ClientReads(suite, sys);
    case ClientAdvance => ClientAdvances(suite, sys);
    case ServerSend(text) => ServerSends(sys, text);
    case ServerReceive => ServerReads(suite, sys);
    case ServerAdvance(seed) => ServerAdvances(suite, sys, seed);
  }

  lemma BuildKeepsEnd(suite: Suite, c: Client, now: int, draw: Option<Seed>, room: nat)
    ensures MaybeBuildInit(suite, c, now, draw, room).1.ep == c.ep
  {
  }

  lemma BuiltSends(sys: System)
    requires KeysInv(sys) && sys.built.Some?
    ensures Reaches(sys, ClientTransmit(sys.(built := None), sys.built.value).1)
  {
    hide TcpShaped, Keyed, SealTcp, Installed;
    ClientSends(sys.(built := None), sys.built.value);
  }

  lemma LoggedKeys(sys: System, sys': System)
    requires Reaches(sys, sys') && sys'.log == sys.log
    ensures KeysInv(Logged(sys, sys'))
    ensures sys.log.clientKeys <= Logged(sys, sys').log.clientKeys && sys.log.serverKeys <= Logged(sys, sys').log.serverKeys
  {
    hide TcpShaped, Keyed, Allocated, NewestKeys;
  }

  lemma {:induction false} RunKeys(suite: Suite, keys: KeyPair, interval: nat, steps: seq<Step>)
    ensures KeysInv(Run(suite, keys, interval, steps))
  {
    hide Move, Logged, TcpShaped, Keyed, Reaches;
    if steps == [] {
      NewTcpShaped(keys, false);
      NewTcpShaped(keys, true);
      StartKeyed(keys, interval);
    } else {
      var sys, step := Run(suite, keys, interval, steps[..|steps| - 1]), steps[|steps| - 1];
      RunKeys(suite, keys, interval, steps[..|steps| - 1]);
      MoveReaches(suite, sys, step);
      MoveKeepsLog(suite, sys, step);
      LoggedKeys(sys, Move(suite, sys, step));
    }
  }

  lemma StartKeyed(keys: KeyPair, interval: nat)
    ensures var sys := Start(keys, interval); Keyed(sys.up, [keys], [keys], false) && Keyed(sys.down, [keys], [keys], true)
  {
  }

  // ---- every run ----

  /** Both ends have the epoch installed, with the same key from client to server. */
  predicate ShareUp(log: Log, epoch: nat)
  {
    epoch < |log.clientKeys| && epoch < |log.serverKeys| && log.clientKeys[epoch].c2s == log.serverKeys[epoch].c2s
  }

  predicate ShareDown(log: Log, epoch: nat)
  {
    epoch < |log.clientKeys| && epoch < |log.serverKeys| && log.clientKeys[epoch].s2c == log.serverKeys[epoch].s2c
  }

  /** In every run: of all the client ever sent, the server has read and opens only frames of epochs whose key both share. */
  lemma {:induction false} UpNeedsSharedKey(suite: Suite, keys: KeyPair, interval: nat, steps: seq<Step>, sys: System, i: nat)
    requires sys == Run(suite, keys, interval, steps) && i < |sys.up.sent|
    requires i < sys.up.got || OpenTcp(sys.server.ep, sys.up.sent[i]).0.Some?
    ensures ShareUp(sys.log, sys.up.sent[i].epoch)
  {
    hide Run, TcpShaped, OpenTcp;
    RunKeys(suite, keys, interval, steps);
    if i < sys.up.got {
      assert sys.up.sent[..sys.up.got][i] == sys.up.sent[i];
    } else {
      OpensUnder(sys.server.ep, sys.log.serverKeys, true, sys.up.sent[i]);
    }
  }

  /** So it is the other way. */
  lemma {:induction false} DownNeedsSharedKey(suite: Suite, keys: KeyPair, interval: nat, steps: seq<Step>, sys: System, i: nat)
    requires sys == Run(suite, keys, interval, steps) && i < |sys.down.sent|
    requires i < sys.down.got || OpenTcp(sys.client.ep, sys.down.sent[i]).0.Some?
    ensures ShareDown(sys.log, sys.down.sent[i].epoch)
  {
    hide Run, TcpShaped, OpenTcp;
    RunKeys(suite, keys, interval, steps);
    if i < sys.down.got {
      assert sys.down.sent[..sys.down.got][i] == sys.down.sent[i];
    } else {
      OpensUnder(sys.client.ep, sys.log.clientKeys, false, sys.down.sent[i]);
    }
  }

  /** In every run, faithful or not, installed keys stay what they are. */
  lemma {:induction false} KeysStay(suite: Suite, keys: KeyPair, interval: nat, steps: seq<Step>, more: seq<Step>)
    ensures var a, b := Run(suite, keys, interval, steps).log, Run(suite, keys, interval, steps + more).log;
            a.clientKeys <= b.clientKeys && a.serverKeys <= b.serverKeys
    decreases |more|
  {
    hide Move, Logged, KeysInv, Reaches;
    if more == [] {
      assert steps + more == steps;
    } else {
      var n := |more| - 1;
      var sys := Run(suite, keys, interval, steps + more[..n]);
      KeysStay(suite, keys, interval, steps, more[..n]);
      assert (steps + more)[..|steps + more| - 1] == steps + more[..n];
      RunKeys(suite, keys, interval, steps + more[..n]);
      MoveReaches(suite, sys, more[n]);
      MoveKeepsLog(suite, sys, more[n]);
      LoggedKeys(sys, Move(suite, sys, more[n]));
    }
  }
}
