/**
 * What derived keys are made of: each new key comes from the old key of its own direction, and
 * the two directions of a session never seal with one key and nonce.
 */
module DerivedKeys {
  import opened Basics
  import opened Coordinators
  import opened Epochs
  import opened Exchange
  import opened Nonces
  import opened TcpEndpoints
  import opened TcpKeys
  import opened Transcripts
  import T = TcpProtocol
  import TT = TcpTheorems
  import U = UdpProtocol
  import UE = UdpEndpoints
  import UN = UdpNumbers

  // ---- what is asked of the primitives ----

  /** A key pair some version 2 handshake yields. */
  ghost predicate Yielded(suite: Suite, keys: KeyPair)
    requires suite.V2?
  {
    || (exists seed, prologue, init :: suite.respond(seed, prologue, init).Some? && suite.respond(seed, prologue, init).value.keys == keys)
    || (exists seed, prologue, body :: suite.finish(seed, prologue, body) == Some(keys))
  }

  /**
   * On the keys of ks the derivation keeps labels apart, and, under one secret and label, keys.
   * A handshake's two directions are never one key, and its first message depends on both keys.
   */
  ghost predicate Separates(suite: Suite, ks: set<Bytes>)
  {
    match suite
    case V1(_, _, derive) =>
      && (forall s, t, a, b :: a in ks && b in ks ==> derive(s, a, LabelC2S) != derive(t, b, LabelS2C))
      && (forall s, a, b, way :: a in ks && b in ks && derive(s, a, way) == derive(s, b, way) ==> a == b)
    case V2(prologue, start, _, _) =>
      && (forall x, y :: Yielded(suite, x) && Yielded(suite, y) ==> x.c2s != y.s2c)
      && (forall seed, p, q :: start(seed, p) == start(seed, q) ==> p == q)
      && (forall x: KeyPair, y: KeyPair ::
            x.c2s in ks && x.s2c in ks && y.c2s in ks && y.s2c in ks && prologue(x) == prologue(y) ==> x == y)
  }

  function KeysOf(ks: seq<KeyPair>): (result: set<Bytes>)
  {
    (set i | 0 <= i < |ks| :: ks[i].c2s) + (set i | 0 <= i < |ks| :: ks[i].s2c)
  }

  // ---- one exchange ----

  /** The two keys of an answer differ. */
  lemma AnswerDirections(suite: Suite, seed: Seed, current: KeyPair, body: Bytes)
    requires Separates(suite, KeysOf([current])) && Respond(suite, seed, current, body).Some?
    ensures var keys := Respond(suite, seed, current, body).value.keys; keys.c2s != keys.s2c
  {
    assert current.c2s == [current][0].c2s && current.s2c == [current][0].s2c;
    if suite.V2? {
      assert Yielded(suite, suite.respond(seed, suite.prologue(current), body).value.keys);
    }
  }

  /** A version 1 answer takes each new key from the old key of its own direction, and from that alone. */
  lemma AnswerChains(suite: Suite, seed: Seed, current: KeyPair, other: KeyPair, body: Bytes)
    requires suite.V1? && Separates(suite, KeysOf([current, other])) && Respond(suite, seed, current, body).Some?
    ensures Respond(suite, seed, other, body).Some?
    ensures var x, y := Respond(suite, seed, current, body).value.keys, Respond(suite, seed, other, body).value.keys;
            (x.c2s == y.c2s <==> current.c2s == other.c2s) && (x.s2c == y.s2c <==> current.s2c == other.s2c)
  {
    PairKeys(current, other);
  }

  /** So does the client's end of it. */
  lemma FinishChains(suite: Suite, seed: Seed, start: KeyPair, current: KeyPair, other: KeyPair, body: Bytes)
    requires suite.V1? && Separates(suite, KeysOf([current, other])) && Finish(suite, seed, start, current, body).Some?
    ensures Finish(suite, seed, start, other, body).Some?
    ensures var x, y := Finish(suite, seed, start, current, body).value, Finish(suite, seed, start, other, body).value;
            (x.c2s == y.c2s <==> current.c2s == other.c2s) && (x.s2c == y.s2c <==> current.s2c == other.s2c)
  {
    PairKeys(current, other);
  }

  /** Version 1 finishes under the keys of now, whatever those of the start; version 2 the other way around, even after later rekeys. */
  lemma FinishUses(suite: Suite, seed: Seed, start: KeyPair, other: KeyPair, current: KeyPair, serverSeed: Seed)
    requires Lawful(suite)
    ensures var answer := Respond(suite, serverSeed, start, InitBody(suite, seed, start));
            suite.V2? && answer.Some? ==> Finish(suite, seed, start, current, answer.value.body) == Some(answer.value.keys)
    ensures var answer := Respond(suite, serverSeed, current, InitBody(suite, seed, other));
            suite.V1? && answer.Some? ==> Finish(suite, seed, start, current, answer.value.body) == Some(answer.value.keys)
  {
    ExchangeAgrees(suite, seed, serverSeed, start);
    ExchangeAgrees(suite, seed, serverSeed, current);
  }

  /** A version 2 init is bound to both current keys. */
  lemma InitChains(suite: Suite, seed: Seed, current: KeyPair, other: KeyPair)
    requires suite.V2? && Separates(suite, KeysOf([current, other]))
    ensures InitBody(suite, seed, current) == InitBody(suite, seed, other) <==> current == other
  {
    PairKeys(current, other);
  }

  lemma PairKeys(x: KeyPair, y: KeyPair)
    ensures KeysOf([x, y]) == {x.c2s, x.s2c, y.c2s, y.s2c}
  {
    assert [x, y][0] == x && [x, y][1] == y;
    assert KeysOf([x, y]) >= {[x, y][0].c2s, [x, y][0].s2c, [x, y][1].c2s, [x, y][1].s2c};
  }

  // ---- one epoch after another ----

  /** Keys some exchange derives at either end whose keys of now are before. */
  ghost predicate From(suite: Suite, before: KeyPair, after: KeyPair)
  {
    || (exists seed, body :: Respond(suite, seed, before, body).Some? && Respond(suite, seed, before, body).value.keys == after)
    || (exists seed, start, body :: Finish(suite, seed, start, before, body) == Some(after))
  }

  ghost predicate Descends(suite: Suite, ks: seq<KeyPair>)
  {
    forall k :: 0 < k < |ks| ==> From(suite, ks[k - 1], ks[k])
  }

  /** One secret and the old key of each direction make the new key of that direction. */
  ghost predicate Stretched(suite: Suite, before: KeyPair, after: KeyPair)
    requires suite.V1?
  {
    exists secret :: after.c2s == suite.derive(secret, before.c2s, LabelC2S) && after.s2c == suite.derive(secret, before.s2c, LabelS2C)
  }

  lemma FromStretched(suite: Suite, before: KeyPair, after: KeyPair)
    requires suite.V1? && From(suite, before, after)
    ensures Stretched(suite, before, after)
  {
    if seed, body :| Respond(suite, seed, before, body).Some? && Respond(suite, seed, before, body).value.keys == after {
      assert after.c2s == suite.derive(suite.shared(seed, body).value, before.c2s, LabelC2S);
    } else {
      var seed, start, body :| Finish(suite, seed, start, before, body) == Some(after);
      assert after.c2s == suite.derive(suite.shared(seed, body).value, before.c2s, LabelC2S);
    }
  }

  lemma FromYielded(suite: Suite, before: KeyPair, after: KeyPair)
    requires suite.V2? && From(suite, before, after)
    ensures Yielded(suite, after)
  {
    if seed, body :| Respond(suite, seed, before, body).Some? && Respond(suite, seed, before, body).value.keys == after {
      assert suite.respond(seed, suite.prologue(before), body).value.keys == after;
    } else {
      var seed, start, body :| Finish(suite, seed, start, before, body) == Some(after);
      assert suite.finish(seed, suite.prologue(start), body) == Some(after);
    }
  }

  /** Whatever the two ends have installed, the one's client key is not the other's server key. */
  lemma CrossDirections(suite: Suite, x: KeyPair, x': KeyPair, y: KeyPair, y': KeyPair, ks: set<Bytes>)
    requires Separates(suite, ks) && {x.c2s, x.s2c, y.c2s, y.s2c} <= ks
    requires From(suite, x, x') && From(suite, y, y')
    ensures x'.c2s != y'.s2c
  {
    hide From;
    if suite.V1? {
      FromStretched(suite, x, x');
      FromStretched(suite, y, y');
    } else {
      FromYielded(suite, x, x');
      FromYielded(suite, y, y');
    }
  }

  lemma EpochDirections(suite: Suite, xs: seq<KeyPair>, ys: seq<KeyPair>, e: nat)
    requires Separates(suite, KeysOf(xs + ys)) && Descends(suite, xs) && Descends(suite, ys)
    requires e < |xs| && e < |ys| && xs[0] == ys[0] && xs[0].c2s != xs[0].s2c
    ensures xs[e].c2s != ys[e].s2c
  {
    hide Separates, From;
    if e > 0 {
      assert (xs + ys)[e - 1] == xs[e - 1] && (xs + ys)[|xs| + e - 1] == ys[e - 1];
      CrossDirections(suite, xs[e - 1], xs[e], ys[e - 1], ys[e], KeysOf(xs + ys));
    }
  }

  // ---- every UDP run ----

  lemma UdpDescends(suite: Suite, sys: U.System)
    requires U.Inv(suite, sys)
    ensures Descends(suite, sys.log.serverKeys) && Descends(suite, sys.log.clientKeys)
    ensures 0 < |sys.log.clientKeys| <= |sys.log.serverKeys|
    ensures forall e :: 0 <= e < |sys.log.clientKeys| ==> sys.log.clientKeys[e] == sys.log.serverKeys[e]
  {
    hide U.Frames, U.Tasks, Finish, UE.RingOf;
    var log := sys.log;
    forall k | 0 < k < |log.serverKeys|
      ensures From(suite, log.serverKeys[k - 1], log.serverKeys[k])
    {
      assert Answers(suite, log.answers[k - 1], k - 1, log.exchanges[k - 1], log.serverKeys[k - 1], log.serverKeys[k]);
    }
  }

  lemma {:induction false} UdpFirst(suite: Suite, keys: KeyPair, interval: nat, steps: seq<U.Step>)
    ensures var log := U.Run(suite, keys, interval, steps).log;
            log.clientKeys != [] && log.serverKeys != [] && log.clientKeys[0] == keys == log.serverKeys[0]
  {
    hide U.Move;
    if steps != [] {
      var sys := U.Run(suite, keys, interval, steps[..|steps| - 1]);
      UdpFirst(suite, keys, interval, steps[..|steps| - 1]);
      UdpMoveKeepsLog(suite, sys, steps[|steps| - 1]);
    }
  }

  lemma UdpMoveKeepsLog(suite: Suite, sys: U.System, step: U.Step)
    ensures U.Move(suite, sys, step).log == sys.log
  {
    hide MaybeBuildInit, SealUdp, OpenUdp, ClientService, ServerService, ServerActivate, ServerObserve, ClientActivate, ClientObserve;
  }

  /** In every UDP run the two directions of an installed epoch have different keys, at both ends. */
  lemma {:induction false} UdpDirections(suite: Suite, keys: KeyPair, interval: nat, steps: seq<U.Step>, log: Log, e: nat)
    requires Lawful(suite) && log == U.Run(suite, keys, interval, steps).log
    requires keys.c2s != keys.s2c && Separates(suite, KeysOf(log.clientKeys + log.serverKeys))
    ensures e < |log.clientKeys| ==> log.clientKeys[e].c2s != log.clientKeys[e].s2c
    ensures e < |log.serverKeys| ==> log.serverKeys[e].c2s != log.serverKeys[e].s2c
  {
    hide U.Run, U.Inv, Separates, From, Lawful;
    U.RunInv(suite, keys, interval, steps);
    UdpDescends(suite, U.Run(suite, keys, interval, steps));
    UdpFirst(suite, keys, interval, steps);
    if e < |log.serverKeys| {
      OneSide(suite, log.clientKeys, log.serverKeys);
      EpochDirections(suite, log.serverKeys, log.serverKeys, e);
    }
  }

  lemma OneSide(suite: Suite, xs: seq<KeyPair>, ys: seq<KeyPair>)
    requires Separates(suite, KeysOf(xs + ys))
    ensures Separates(suite, KeysOf(xs + xs)) && Separates(suite, KeysOf(ys + ys))
  {
    hide Separates;
    assert KeysOf(xs + ys) == KeysOf(xs) + KeysOf(ys) by { KeysOfBoth(xs, ys); }
    KeysOfBoth(xs, xs);
    KeysOfBoth(ys, ys);
    FewerSeparate(suite, KeysOf(xs + ys), KeysOf(xs + xs));
    FewerSeparate(suite, KeysOf(xs + ys), KeysOf(ys + ys));
  }

  lemma KeysOfBoth(xs: seq<KeyPair>, ys: seq<KeyPair>)
    ensures KeysOf(xs + ys) == KeysOf(xs) + KeysOf(ys)
  {
    forall i | 0 <= i < |xs| ensures xs[i].c2s in KeysOf(xs + ys) && xs[i].s2c in KeysOf(xs + ys) { assert (xs + ys)[i] == xs[i]; }
    forall i | 0 <= i < |ys| ensures ys[i].c2s in KeysOf(xs + ys) && ys[i].s2c in KeysOf(xs + ys) {
      assert (xs + ys)[|xs| + i] == ys[i];
    }
  }

  lemma FewerSeparate(suite: Suite, ks: set<Bytes>, fewer: set<Bytes>)
    requires Separates(suite, ks) && fewer <= ks
    ensures Separates(suite, fewer)
  {
  }

  /** Over version 1 each installed key is one secret's stretch of the key before it in the same direction. */
  lemma {:induction false} UdpStretched(suite: Suite, keys: KeyPair, interval: nat, steps: seq<U.Step>, log: Log, e: nat)
    requires Lawful(suite) && suite.V1? && log == U.Run(suite, keys, interval, steps).log && 0 < e < |log.serverKeys|
    ensures Stretched(suite, log.serverKeys[e - 1], log.serverKeys[e])
  {
    hide U.Run, U.Inv, From, Stretched, Lawful;
    U.RunInv(suite, keys, interval, steps);
    UdpDescends(suite, U.Run(suite, keys, interval, steps));
    FromStretched(suite, log.serverKeys[e - 1], log.serverKeys[e]);
  }

  /** No datagram of one direction shares key and nonce with one of the other. */
  lemma {:induction false} UdpNoSharedNonce(suite: Suite, keys: KeyPair, interval: nat, steps: seq<U.Step>, sys: U.System,
                                            up: Datagram, down: Datagram)
    requires Lawful(suite) && sys == U.Run(suite, keys, interval, steps) && up in sys.up && down in sys.down
    requires keys.c2s != keys.s2c && Separates(suite, KeysOf(sys.log.clientKeys + sys.log.serverKeys))
    ensures up.number <= LAST_COUNTER && down.number <= LAST_COUNTER
    ensures up.key != down.key || NonceBytes(up.number, up.epoch) != NonceBytes(down.number, down.epoch)
  {
    hide U.Run, U.Inv, Separates, Lawful, NonceBytes;
    U.RunInv(suite, keys, interval, steps);
    UN.RunFresh(suite, keys, interval, steps);
    UdpSealedUnder(suite, sys, up, down);
    if NonceBytes(up.number, up.epoch) == NonceBytes(down.number, down.epoch) {
      NonceInjective(up.number, up.epoch, down.number, down.epoch);
      UdpDescends(suite, sys);
      UdpDirections(suite, keys, interval, steps, sys.log, up.epoch);
    }
  }

  lemma UdpSealedUnder(suite: Suite, sys: U.System, up: Datagram, down: Datagram)
    requires U.Inv(suite, sys) && up in sys.up && down in sys.down
    ensures up.epoch < |sys.log.clientKeys| && up.key == sys.log.clientKeys[up.epoch].c2s
    ensures down.epoch < |sys.log.serverKeys| && down.key == sys.log.serverKeys[down.epoch].s2c
  {
  }

  // ---- every TCP run ----

  lemma AckDescends(suite: Suite, c: Client, ks: seq<KeyPair>, carrier: uint16, ack: Plaintext)
    requires TcpShaped(c.ep, ks, false) && Descends(suite, ks)
    ensures Descends(suite, Installed(c.ep, HandleAck(suite, c, carrier, ack).1.ep, ks))
  {
    hide TcpShaped, Finish, StartRekey, ActivateSend, Installed, Respond;
    SameShape(c.ep, c.ep, ks, false);
    if IsAnswer(suite, c, carrier, ack) {
      var p := c.pending.value;
      var keys := Finish(suite, p.seed, p.startKeys, c.ep.machine.current, ack.body);
      if keys.Some? {
        TcpStartShaped(c.ep, ks, false, keys.value);
        TcpShapedFacts(c.ep, ks, false);
        var (r, ep) := StartRekey(c.ep, keys.value);
        if r.Ok? {
          TcpActivateShaped(ep, ks + [keys.value], false, r.value);
          GrownShape(c.ep, ActivateSend(ep, r.value), ks, keys.value, false);
        }
      }
    }
  }

  lemma HandleDescends(suite: Suite, s: Server, ks: seq<KeyPair>, carrier: uint16, request: Plaintext, seed: Seed)
    requires TcpShaped(s.ep, ks, true) && Descends(suite, ks)
    ensures Descends(suite, Installed(s.ep, Handle(suite, s, carrier, request, seed).1.ep, ks))
  {
    hide TcpShaped, Respond, StartRekey, Installed, Finish;
    SameShape(s.ep, s.ep, ks, true);
    if IsRequest(suite, request) {
      var answer := Respond(suite, seed, s.ep.machine.current, request.body);
      if answer.Some? {
        TcpStartShaped(s.ep, ks, true, answer.value.keys);
        TcpShapedFacts(s.ep, ks, true);
        var (r, ep) := StartRekey(s.ep, answer.value.keys);
        if r.Ok? { GrownShape(s.ep, ep, ks, answer.value.keys, true); }
      }
    }
  }

  lemma PhasesInstallNothing(ep: Endpoint, epoch: uint16, ks: seq<KeyPair>)
    ensures Installed(ep, ActivateSend(ep, epoch), ks) == ks && Installed(ep, ObservePeer(ep, epoch), ks) == ks
  {
  }

  lemma PacketsInstallNothing(ep: Endpoint, text: Plaintext, f: TcpFrame, ks: seq<KeyPair>)
    ensures Installed(ep, SealTcp(ep, text).1, ks) == ks && Installed(ep, OpenTcp(ep, f).1, ks) == ks
  {
  }

  ghost predicate BothDescend(suite: Suite, sys: T.System, sys': T.System)
  {
    && Descends(suite, Installed(sys.client.ep, sys'.client.ep, sys.log.clientKeys))
    && Descends(suite, Installed(sys.server.ep, sys'.server.ep, sys.log.serverKeys))
  }

  lemma StillDescend(suite: Suite, sys: T.System)
    requires Descends(suite, sys.log.clientKeys) && Descends(suite, sys.log.serverKeys)
    ensures BothDescend(suite, sys, sys)
  {
  }

  lemma ClientTurnDescends(suite: Suite, sys: T.System)
    requires KeysInv(sys) && Descends(suite, sys.log.clientKeys) && Descends(suite, sys.log.serverKeys)
    ensures BothDescend(suite, sys, T.AdvanceClient(suite, sys))
  {
    hide TcpShaped, Descends, HandleAck, ObservePeer, Installed, Keyed;
    Unmoved(sys);
    match sys.clientTask
    case Opened(p) => PhasesInstallNothing(sys.client.ep, p.epoch, sys.log.clientKeys);
    case Observed(p) => AckDescends(suite, sys.client, sys.log.clientKeys, p.epoch, p.text);
    case _ =>
  }

  lemma ServerTurnDescends(suite: Suite, sys: T.System, seed: Seed)
    requires KeysInv(sys) && Descends(suite, sys.log.clientKeys) && Descends(suite, sys.log.serverKeys)
    ensures BothDescend(suite, sys, T.AdvanceServer(suite, sys, seed))
  {
    hide TcpShaped, Descends, Handle, ObservePeer, ActivateSend, SealTcp, Installed, Keyed;
    Unmoved(sys);
    match sys.serverTask
    case Opened(p) => PhasesInstallNothing(sys.server.ep, p.epoch, sys.log.serverKeys);
    case Observed(p) => HandleDescends(suite, sys.server, sys.log.serverKeys, p.epoch, p.text, seed);
    case Replying(reply, _) => PacketsInstallNothing(sys.server.ep, reply, TcpFrame(0, 0, [], reply), sys.log.serverKeys);
    case Promoting(epoch) => PhasesInstallNothing(sys.server.ep, epoch, sys.log.serverKeys);
    case _ =>
  }

  lemma MoveDescends(suite: Suite, sys: T.System, step: T.Step)
    requires KeysInv(sys) && Descends(suite, sys.log.clientKeys) && Descends(suite, sys.log.serverKeys)
    ensures BothDescend(suite, sys, T.Move(suite, sys, step))
  {
    hide KeysInv, Descends, MaybeBuildInit, SealTcp, OpenTcp, T.AdvanceClient, T.AdvanceServer, Installed;
    Unmoved(sys);
    StillDescend(suite, sys);
    var ce, se, none := sys.client.ep, sys.server.ep, TcpFrame(0, 0, [], Data([]));
    match step
    case ClientBuild(now, draw, room) => BuildKeepsEnd(suite, sys.client, now, draw, room);
    case ClientSendBuilt => if sys.built.Some? { PacketsInstallNothing(ce, sys.built.value, none, sys.log.clientKeys); }
    case ClientSend(text) => PacketsInstallNothing(ce, text, none, sys.log.clientKeys);
    case ClientReceive =>
      if sys.down.got < |sys.down.sent| { PacketsInstallNothing(ce, none.text, sys.down.sent[sys.down.got], sys.log.clientKeys); }
    case ClientAdvance => ClientTurnDescends(suite, sys);
    case ServerSend(text) => PacketsInstallNothing(se, text, none, sys.log.serverKeys);
    case ServerReceive =>
      if sys.up.got < |sys.up.sent| { PacketsInstallNothing(se, none.text, sys.up.sent[sys.up.got], sys.log.serverKeys); }
    case ServerAdvance(seed) => ServerTurnDescends(suite, sys, seed);
  }

  lemma {:induction false} TcpDescends(suite: Suite, keys: KeyPair, interval: nat, steps: seq<T.Step>)
    ensures var log := T.Run(suite, keys, interval, steps).log;
            && Descends(suite, log.clientKeys) && Descends(suite, log.serverKeys)
            && log.clientKeys != [] && log.serverKeys != [] && log.clientKeys[0] == keys == log.serverKeys[0]
  {
    hide T.Move, Descends, KeysInv;
    if steps == [] {
      FirstDescends(suite, keys);
    } else {
      var sys := T.Run(suite, keys, interval, steps[..|steps| - 1]);
      TcpDescends(suite, keys, interval, steps[..|steps| - 1]);
      RunKeys(suite, keys, interval, steps[..|steps| - 1]);
      MoveDescends(suite, sys, steps[|steps| - 1]);
      TT.MoveKeepsLog(suite, sys, steps[|steps| - 1]);
    }
  }

  lemma FirstDescends(suite: Suite, keys: KeyPair)
    ensures Descends(suite, [keys])
  {
  }

  /** In every TCP run, mistakes or not, no two keys of one epoch but different directions are the same. */
  lemma {:induction false} TcpDirections(suite: Suite, keys: KeyPair, interval: nat, steps: seq<T.Step>, log: Log, e: nat)
    requires log == T.Run(suite, keys, interval, steps).log
    requires keys.c2s != keys.s2c && Separates(suite, KeysOf(log.clientKeys + log.serverKeys))
    ensures e < |log.clientKeys| ==> log.clientKeys[e].c2s != log.clientKeys[e].s2c
    ensures e < |log.serverKeys| ==> log.serverKeys[e].c2s != log.serverKeys[e].s2c
    ensures e < |log.clientKeys| && e < |log.serverKeys| ==> log.clientKeys[e].c2s != log.serverKeys[e].s2c
  {
    hide T.Run, Separates, From;
    TcpDescends(suite, keys, interval, steps);
    OneSide(suite, log.clientKeys, log.serverKeys);
    if e < |log.clientKeys| { EpochDirections(suite, log.clientKeys, log.clientKeys, e); }
    if e < |log.serverKeys| { EpochDirections(suite, log.serverKeys, log.serverKeys, e); }
    if e < |log.clientKeys| && e < |log.serverKeys| { EpochDirections(suite, log.clientKeys, log.serverKeys, e); }
  }

  /** Over version 1 each installed key is one secret's stretch of the key before it in the same direction. */
  lemma {:induction false} TcpStretched(suite: Suite, keys: KeyPair, interval: nat, steps: seq<T.Step>, log: Log, e: nat)
    requires suite.V1? && log == T.Run(suite, keys, interval, steps).log && e > 0
    ensures e < |log.clientKeys| ==> Stretched(suite, log.clientKeys[e - 1], log.clientKeys[e])
    ensures e < |log.serverKeys| ==> Stretched(suite, log.serverKeys[e - 1], log.serverKeys[e])
  {
    hide T.Run, From, Stretched;
    TcpDescends(suite, keys, interval, steps);
    if e < |log.clientKeys| { FromStretched(suite, log.clientKeys[e - 1], log.clientKeys[e]); }
    if e < |log.serverKeys| { FromStretched(suite, log.serverKeys[e - 1], log.serverKeys[e]); }
  }

  /** No frame of one direction shares key and epoch with one of the other, so none shares key and nonce. */
  lemma {:induction false} TcpNoSharedKey(suite: Suite, keys: KeyPair, interval: nat, steps: seq<T.Step>, sys: T.System,
                                          i: nat, j: nat)
    requires sys == T.Run(suite, keys, interval, steps) && i < |sys.up.sent| && j < |sys.down.sent|
    requires keys.c2s != keys.s2c && Separates(suite, KeysOf(sys.log.clientKeys + sys.log.serverKeys))
    ensures sys.up.sent[i].epoch != sys.down.sent[j].epoch || sys.up.sent[i].key != sys.down.sent[j].key
  {
    hide T.Run, Separates, TcpShaped;
    RunKeys(suite, keys, interval, steps);
    TcpSealedUnder(sys, i, j);
    TcpDirections(suite, keys, interval, steps, sys.log, sys.up.sent[i].epoch);
  }

  lemma TcpSealedUnder(sys: T.System, i: nat, j: nat)
    requires KeysInv(sys) && i < |sys.up.sent| && j < |sys.down.sent|
    ensures var f, g, log := sys.up.sent[i], sys.down.sent[j], sys.log;
            && f.epoch < |log.clientKeys| && f.key == log.clientKeys[f.epoch].c2s
            && g.epoch < |log.serverKeys| && g.key == log.serverKeys[g.epoch].s2c
  {
    hide TcpShaped;
  }

  // ---- the laws can hold together ----

  function Marked(way: Label, key: Bytes): (result: Key)
  {
    if |key| != KEY_SIZE then seq(KEY_SIZE, _ => 0) else [if way == LabelC2S then 0 else 1] + key[1..]
  }

  function Marking(): (result: Suite) { V1(_ => seq(KEY_SIZE, _ => 0), (_, _) => Some([]), (_, key, way) => Marked(way, key)) }

  function Zeros(): (result: KeyPair) { KeyPair(seq(KEY_SIZE, _ => 0), seq(KEY_SIZE, _ => 1)) }

  lemma LawsTogether()
    ensures Lawful(Marking()) && Separates(Marking(), KeysOf([Zeros()])) && Zeros().c2s != Zeros().s2c
    ensures forall secret :: Marking().derive(secret, Zeros().c2s, LabelC2S) == Zeros().c2s
                             && Marking().derive(secret, Zeros().s2c, LabelS2C) == Zeros().s2c
  {
    var c, s := Zeros().c2s, Zeros().s2c;
    assert c[1] != s[1];
    forall way ensures Marked(way, c)[1] != Marked(way, s)[1] {}
    assert Marked(LabelC2S, c) == c && Marked(LabelS2C, s) == s;
    forall a, b | |a| == KEY_SIZE && |b| == KEY_SIZE ensures Marked(LabelC2S, a)[0] != Marked(LabelS2C, b)[0] {}
  }
}
