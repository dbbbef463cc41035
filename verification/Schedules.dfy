/** When a client asks for new keys: not before its time, then at most once an interval, and with what. */
module Schedules {
  import opened Basics
  import opened Coordinators
  import opened Epochs
  import opened Exchange
  import opened Transcripts
  import T = TcpProtocol
  import U = UdpProtocol

  // ---- one call ----

  /** Once a call was due, whatever came of it, calls before an interval has passed do nothing. */
  lemma NothingBefore(suite: Suite, c: Client, now: int, draw: Option<Seed>, room: nat,
                      c': Client, later: int, draw': Option<Seed>, room': nat)
    requires c.rotateAt <= now && c' == MaybeBuildInit(suite, c, now, draw, room).1
    requires later < now + c.interval
    ensures MaybeBuildInit(suite, c', later, draw', room') == (Ok(None), c')
  {
  }

  /** A call moves the schedule exactly when it is due, and only to an interval after it. */
  lemma Postpones(suite: Suite, c: Client, now: int, draw: Option<Seed>, room: nat)
    ensures var (r, c') := MaybeBuildInit(suite, c, now, draw, room);
            && c'.interval == c.interval && c'.ep == c.ep
            && c'.rotateAt == (if c.rotateAt <= now then now + c.interval else c.rotateAt)
            && (now < c.rotateAt ==> r == Ok(None) && c' == c)
  {
  }

  /** The packet of an exchange: the public key, or the first handshake message under both keys of its start. */
  function Asking(suite: Suite, p: Pending): (result: Plaintext)
  {
    match suite
    case V1(publicKey, _, _) => Service(RekeyInit, publicKey(p.seed))
    case V2(prologue, start, _, _) => Service(RekeyInitV2, start(p.seed, prologue(p.startKeys)))
  }

  /** It goes out only whole, behind three bytes of header, and over version 1 only with a public key of 32 bytes. */
  predicate Carries(suite: Suite, p: Pending, room: nat)
  {
    3 + |Asking(suite, p).body| <= room && (suite.V1? ==> |Asking(suite, p).body| == 32)
  }

  /** A due call by an idle client with a buffer that, over version 1, holds the packet. */
  predicate Timely(suite: Suite, c: Client, now: int, room: nat)
  {
    c.rotateAt <= now && c.ep.machine.phase == Idle && (suite.V1? ==> room >= 35)
  }

  /**
   * An init is sent exactly when it is due, the client is idle, the pending exchange (or one on a
   * fresh draw under the keys and epoch of now) is carried by the send epoch, and it fits the
   * buffer. Such a call opens an exchange unless one is pending; the refusals are a carrier that
   * has changed and, with none pending, a draw or handshake that fails.
   */
  lemma AsksExactly(suite: Suite, c: Client, now: int, draw: Option<Seed>, room: nat, text: Plaintext)
    ensures var m, timely := c.ep.machine, Timely(suite, c, now, room);
            var (r, c') := MaybeBuildInit(suite, c, now, draw, room);
            var begun := if timely && draw.Some? then Some(Pending(draw.value, m.current, m.currentEpoch)) else None;
            && c'.pending == (if c.pending.Some? then c.pending else begun)
            && (r == Ok(Some(text)) <==>
                  && timely && c'.pending.Some? && c'.pending.value.carrier == m.currentEpoch
                  && Carries(suite, c'.pending.value, room) && text == Asking(suite, c'.pending.value))
            && (r == Err(CarrierChanged) <==> timely && c.pending.Some? && c.pending.value.carrier != m.currentEpoch)
            && (r == Err(ExchangeFailed) <==> timely && c.pending.None? && draw.None?)
            && (r.Err? ==> r.error == CarrierChanged || r.error == ExchangeFailed)
  {
  }

  // ---- over runs ----

  /** A build the loop makes at its time. */
  predicate UdpDue(sys: U.System, step: U.Step)
  {
    step.ClientBuild? && sys.open && sys.built.None? && sys.client.rotateAt <= step.now
  }

  /** A build that leaves an init to be sent. */
  predicate UdpAsks(suite: Suite, sys: U.System, step: U.Step)
  {
    step.ClientBuild? && sys.built.None? && U.Next(suite, sys, step).built.Some?
  }

  lemma UdpAsksDue(suite: Suite, sys: U.System, step: U.Step)
    ensures UdpAsks(suite, sys, step) ==> UdpDue(sys, step)
  {
  }

  lemma AckKeepsTime(suite: Suite, c: Client, p: Parcel)
    ensures ClientService(suite, c, p).1.rotateAt == c.rotateAt && ClientService(suite, c, p).1.interval == c.interval
  {
    hide StartRekey, ActivateSend, Finish;
  }

  lemma UdpStepTime(suite: Suite, sys: U.System, step: U.Step)
    ensures var c, c' := sys.client, U.Next(suite, sys, step).client;
            && c'.interval == c.interval
            && c'.rotateAt == (if UdpDue(sys, step) then step.now + c.interval else c.rotateAt)
  {
    hide MaybeBuildInit, SealUdp, OpenUdp, ClientService, U.AdvanceServer, Record, ObservePeer, ActivateSend;
    match step
    case ClientBuild(now, draw, room) => Postpones(suite, sys.client, now, draw, room);
    case ClientAdvance => if sys.clientTask.Activated? { AckKeepsTime(suite, sys.client, sys.clientTask.parcel); }
    case ServerAdvance(seed) => UdpServerKeepsClient(suite, sys, seed);
    case _ =>
  }

  lemma UdpServerKeepsClient(suite: Suite, sys: U.System, seed: Seed)
    ensures U.AdvanceServer(suite, sys, seed).client == sys.client
  {
    hide ServerService, ServerObserve, ServerActivate, SealUdp;
  }

  lemma {:induction false} UdpTimeGrows(suite: Suite, keys: KeyPair, interval: nat, steps: seq<U.Step>, i: nat)
    requires i <= |steps|
    ensures U.Run(suite, keys, interval, steps).client.interval == interval
    ensures U.Run(suite, keys, interval, steps[..i]).client.rotateAt <= U.Run(suite, keys, interval, steps).client.rotateAt
  {
    hide U.Next;
    if steps == [] {
      assert steps[..i] == [];
    } else {
      var n := |steps| - 1;
      UdpTimeGrows(suite, keys, interval, steps[..n], if i <= n then i else n);
      UdpStepTime(suite, U.Run(suite, keys, interval, steps[..n]), steps[n]);
      if i <= n { assert steps[..n][..i] == steps[..i]; } else { assert steps[..i] == steps; }
    }
  }

  /**
   * In any UDP run, whatever the clock does, an interval lies between a due build, refused or not,
   * and the next build that is due or leaves an init to send; the first comes an interval after the start.
   */
  lemma {:induction false} UdpApart(suite: Suite, keys: KeyPair, interval: nat, steps: seq<U.Step>, i: nat, j: nat)
    requires i < j < |steps| && UdpDue(U.Run(suite, keys, interval, steps[..i]), steps[i])
    requires var sys := U.Run(suite, keys, interval, steps[..j]); UdpDue(sys, steps[j]) || UdpAsks(suite, sys, steps[j])
    ensures interval <= steps[i].now && steps[i].now + interval <= steps[j].now
  {
    hide U.Next, U.Run;
    UdpTimeGrows(suite, keys, interval, steps[..i], 0);
    assert steps[..i][..0] == [];
    UdpStarts(suite, keys, interval);
    assert steps[..i + 1][..i] == steps[..i] && steps[..j][..i + 1] == steps[..i + 1];
    UdpStepTime(suite, U.Run(suite, keys, interval, steps[..i]), steps[i]);
    UdpOneMore(suite, keys, interval, steps[..i + 1]);
    UdpTimeGrows(suite, keys, interval, steps[..j], i + 1);
    UdpAsksDue(suite, U.Run(suite, keys, interval, steps[..j]), steps[j]);
  }

  lemma {:induction false} UdpStarts(suite: Suite, keys: KeyPair, interval: nat)
    ensures U.Run(suite, keys, interval, []).client.rotateAt == interval
  {
  }

  lemma {:induction false} UdpOneMore(suite: Suite, keys: KeyPair, interval: nat, steps: seq<U.Step>)
    requires steps != []
    ensures U.Run(suite, keys, interval, steps) ==
            U.Next(suite, U.Run(suite, keys, interval, steps[..|steps| - 1]), steps[|steps| - 1])
  {
    hide U.Next;
  }

  predicate TcpDue(sys: T.System, step: T.Step)
  {
    step.ClientBuild? && sys.clientOpen && sys.built.None? && sys.client.rotateAt <= step.now
  }

  predicate TcpAsks(suite: Suite, sys: T.System, step: T.Step)
  {
    step.ClientBuild? && sys.built.None? && T.Next(suite, sys, step).built.Some?
  }

  lemma TcpAsksDue(suite: Suite, sys: T.System, step: T.Step)
    ensures TcpAsks(suite, sys, step) ==> TcpDue(sys, step)
  {
  }

  lemma TcpStepTime(suite: Suite, sys: T.System, step: T.Step)
    ensures var c, c' := sys.client, T.Next(suite, sys, step).client;
            && c'.interval == c.interval
            && c'.rotateAt == (if TcpDue(sys, step) then step.now + c.interval else c.rotateAt)
  {
    hide MaybeBuildInit, SealTcp, OpenTcp, ClientService, T.AdvanceServer, Record, ObservePeer;
    match step
    case ClientBuild(now, draw, room) => Postpones(suite, sys.client, now, draw, room);
    case ClientAdvance => if sys.clientTask.Observed? { AckKeepsTime(suite, sys.client, sys.clientTask.parcel); }
    case ServerAdvance(seed) => TcpServerKeepsClient(suite, sys, seed);
    case _ =>
  }

  lemma TcpServerKeepsClient(suite: Suite, sys: T.System, seed: Seed)
    ensures T.AdvanceServer(suite, sys, seed).client == sys.client
  {
    hide ServerService, ServerObserve, ServerActivate, SealTcp;
  }

  lemma {:induction false} TcpTimeGrows(suite: Suite, keys: KeyPair, interval: nat, steps: seq<T.Step>, i: nat)
    requires i <= |steps|
    ensures T.Run(suite, keys, interval, steps).client.interval == interval
    ensures T.Run(suite, keys, interval, steps[..i]).client.rotateAt <= T.Run(suite, keys, interval, steps).client.rotateAt
  {
    hide T.Next;
    if steps == [] {
      assert steps[..i] == [];
    } else {
      var n := |steps| - 1;
      TcpTimeGrows(suite, keys, interval, steps[..n], if i <= n then i else n);
      TcpStepTime(suite, T.Run(suite, keys, interval, steps[..n]), steps[n]);
      if i <= n { assert steps[..n][..i] == steps[..i]; } else { assert steps[..i] == steps; }
    }
  }

  /** The same in any TCP run. */
  lemma {:induction false} TcpApart(suite: Suite, keys: KeyPair, interval: nat, steps: seq<T.Step>, i: nat, j: nat)
    requires i < j < |steps| && TcpDue(T.Run(suite, keys, interval, steps[..i]), steps[i])
    requires var sys := T.Run(suite, keys, interval, steps[..j]); TcpDue(sys, steps[j]) || TcpAsks(suite, sys, steps[j])
    ensures interval <= steps[i].now && steps[i].now + interval <= steps[j].now
  {
    hide T.Next, T.Run;
    TcpTimeGrows(suite, keys, interval, steps[..i], 0);
    assert steps[..i][..0] == [];
    TcpStarts(suite, keys, interval);
    assert steps[..i + 1][..i] == steps[..i] && steps[..j][..i + 1] == steps[..i + 1];
    TcpStepTime(suite, T.Run(suite, keys, interval, steps[..i]), steps[i]);
    TcpOneMore(suite, keys, interval, steps[..i + 1]);
    TcpTimeGrows(suite, keys, interval, steps[..j], i + 1);
    TcpAsksDue(suite, T.Run(suite, keys, interval, steps[..j]), steps[j]);
  }

  lemma {:induction false} TcpStarts(suite: Suite, keys: KeyPair, interval: nat)
    ensures T.Run(suite, keys, interval, []).client.rotateAt == interval
  {
  }

  lemma {:induction false} TcpOneMore(suite: Suite, keys: KeyPair, interval: nat, steps: seq<T.Step>)
    requires steps != []
    ensures T.Run(suite, keys, interval, steps) ==
            T.Next(suite, T.Run(suite, keys, interval, steps[..|steps| - 1]), steps[|steps| - 1])
  {
    hide T.Next;
  }
}
