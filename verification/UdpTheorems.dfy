/** What every UDP run keeps, in the terms of the two ends. */
module UdpTheorems {
  import opened Basics
  import opened Coordinators
  import opened Epochs
  import opened Exchange
  import opened Transcripts
  import opened UdpEndpoints
  import opened UdpProtocol
  import Receipts = UdpReceipts

  /** Whatever was lost, reordered or duplicated, an epoch staged on both sides has equal keys. */
  lemma {:induction false} KeyAgreement(suite: Suite, keys: KeyPair, interval: nat, steps: seq<Step>, sys: System, epoch: nat)
    requires Lawful(suite) && sys == Run(suite, keys, interval, steps)
    ensures var log := sys.log;
            epoch < |log.clientKeys| && epoch < |log.serverKeys| ==> log.clientKeys[epoch] == log.serverKeys[epoch]
  {
    RunInv(suite, keys, interval, steps);
  }

  /** Slots of one epoch in the two rings seal and open with each other's keys. */
  lemma {:induction false} RingsAgree(suite: Suite, keys: KeyPair, interval: nat, steps: seq<Step>, sys: System, epoch: uint16)
    requires Lawful(suite) && sys == Run(suite, keys, interval, steps)
    ensures && sys.client.ep.crypto.Udp? && sys.server.ep.crypto.Udp?
            && var cr, sr := sys.client.ep.crypto.udp.ring, sys.server.ep.crypto.udp.ring;
               var i, j := Resolve(cr, epoch), Resolve(sr, epoch);
               i < |cr| && j < |sr| ==> cr[i].sendKey == sr[j].recvKey && sr[j].sendKey == cr[i].recvKey
  {
    RunInv(suite, keys, interval, steps);
    SlotKeys(sys.client.ep.crypto.udp, sys.log.clientKeys, epoch);
    SlotKeys(sys.server.ep.crypto.udp, sys.log.serverKeys, epoch);
  }

  /** The two ends stay within one epoch, and each can open what the other now sends. */
  lemma {:induction false} EpochsWithinOne(suite: Suite, keys: KeyPair, interval: nat, steps: seq<Step>, sys: System)
    requires Lawful(suite) && sys == Run(suite, keys, interval, steps)
    ensures && sys.client.ep.crypto.Udp? && sys.server.ep.crypto.Udp?
            && var cu, su := sys.client.ep.crypto.udp, sys.server.ep.crypto.udp;
               && su.sendEpoch <= cu.sendEpoch <= su.counter <= su.sendEpoch + 1
               && cu.counter == cu.sendEpoch
               && Resolve(su.ring, cu.sendEpoch) < |su.ring|
               && Resolve(cu.ring, su.sendEpoch) < |cu.ring|
  {
    RunInv(suite, keys, interval, steps);
    ResolveRing(sys.server.ep.crypto.udp, sys.log.serverKeys, ClientEpoch(sys));
    ResolveRing(sys.client.ep.crypto.udp, sys.log.clientKeys, ServerEpoch(sys));
  }

  /** A pending init implies the idle phase and the carrier epoch as send epoch. */
  lemma {:induction false} PendingMeansIdle(suite: Suite, keys: KeyPair, interval: nat, steps: seq<Step>, sys: System)
    requires Lawful(suite) && sys == Run(suite, keys, interval, steps)
    ensures var c := sys.client;
            c.pending.Some? ==> ReadyForRekey(c.ep) && c.ep.machine.currentEpoch == c.pending.value.carrier
  {
    RunInv(suite, keys, interval, steps);
  }

  /** The error "pending rekey carrier epoch changed" cannot arise in any run. */
  lemma {:induction false} CarrierNeverChanges(suite: Suite, keys: KeyPair, interval: nat, steps: seq<Step>, sys: System,
                            now: int, draw: Option<Seed>, room: nat)
    requires Lawful(suite) && sys == Run(suite, keys, interval, steps)
    ensures MaybeBuildInit(suite, sys.client, now, draw, room).0 != Err(CarrierChanged)
  {
    RunInv(suite, keys, interval, steps);
    BuildNeverRefused(suite, sys, now, draw, room);
  }

  /**
   * The client's control plane never refuses an ack: it either ignores it or moves to the
   * epoch after the ack's carrier, which is then the server's newest.
   */
  lemma {:induction false} AcksNeverFail(suite: Suite, keys: KeyPair, interval: nat, steps: seq<Step>, sys: System, p: Parcel)
    requires Lawful(suite) && sys == Run(suite, keys, interval, steps)
    requires sys.clientTask == Activated(p) && IsAck(p.text)
    ensures var (r, c) := HandleAck(suite, sys.client, p.epoch, p.text);
            && r.Ok?
            && (r.value ==> Current(c.ep) == p.epoch + 1 == Newest(sys.log)
                            && c.ep.machine.current == sys.log.serverKeys[p.epoch + 1])
            && (!r.value ==> c == sys.client)
  {
    hide Inv;
    RunInv(suite, keys, interval, steps);
    ClientAckInv(suite, sys, p);
    var (r, c) := HandleAck(suite, sys.client, p.epoch, p.text);
    if r.value { AckedKeys(suite, Logged(sys, sys.(client := c, clientTask := Ready))); }
  }

  lemma AckedKeys(suite: Suite, sys: System)
    requires Inv(suite, sys)
    ensures ClientEpoch(sys) < |sys.log.serverKeys| && sys.client.ep.machine.current == sys.log.serverKeys[ClientEpoch(sys)]
  {
    ShapedFacts(sys.client.ep, sys.log.clientKeys, false);
  }

  // ---- the log only grows ----

  lemma NextGrows(suite: Suite, sys: System, step: Step)
    ensures sys.log.exchanges <= Next(suite, sys, step).log.exchanges
    ensures sys.log.clientKeys <= Next(suite, sys, step).log.clientKeys
    ensures sys.log.serverKeys <= Next(suite, sys, step).log.serverKeys
  {
    hide MaybeBuildInit, SealUdp, OpenUdp, ClientService, ServerService, ServerActivate, ServerObserve, ClientActivate, ClientObserve;
    assert Move(suite, sys, step).log == sys.log;
  }

  lemma {:induction false} RunGrows(suite: Suite, keys: KeyPair, interval: nat, steps: seq<Step>, more: seq<Step>)
    ensures Run(suite, keys, interval, steps).log.exchanges <= Run(suite, keys, interval, steps + more).log.exchanges
    ensures Run(suite, keys, interval, steps).log.clientKeys <= Run(suite, keys, interval, steps + more).log.clientKeys
    ensures Run(suite, keys, interval, steps).log.serverKeys <= Run(suite, keys, interval, steps + more).log.serverKeys
    decreases |more|
  {
    hide Next;
    if more == [] {
      assert steps + more == steps;
    } else {
      var n := |more| - 1;
      RunGrows(suite, keys, interval, steps, more[..n]);
      assert (steps + more)[..|steps + more| - 1] == steps + more[..n];
      NextGrows(suite, Run(suite, keys, interval, steps + more[..n]), more[n]);
    }
  }

  /** Each send epoch has one init: whenever two exchanges name the same carrier, they are the same. */
  lemma {:induction false} OneInitPerEpoch(suite: Suite, keys: KeyPair, interval: nat, steps: seq<Step>, more: seq<Step>)
    requires Lawful(suite)
    ensures var p, q := Run(suite, keys, interval, steps).client.pending,
                        Run(suite, keys, interval, steps + more).client.pending;
            p.Some? && q.Some? && p.value.carrier == q.value.carrier ==> p == q
  {
    RunInv(suite, keys, interval, steps);
    RunInv(suite, keys, interval, steps + more);
    RunGrows(suite, keys, interval, steps, more);
  }

  lemma EndShapes(suite: Suite, sys: System)
    requires Inv(suite, sys)
    ensures ClientEpoch(sys) == |sys.log.clientKeys| - 1
    ensures Shaped(sys.server.ep, sys.log.serverKeys, true)
  {
  }

  lemma ServerStaysAhead(suite: Suite, sys: System, step: Step)
    requires Inv(suite, sys)
    ensures ServerEpoch(sys) <= ServerEpoch(Next(suite, sys, step))
  {
    hide Inv, Shaped, MaybeBuildInit, UdpEncrypt, UdpDecrypt, ServerService, ClientService, ActivateSend, Record;
    EndShapes(suite, sys);
    if step.ServerAdvance? {
      match sys.serverTask
      case Observed(p) =>
        SendEpochOf(sys.server.ep, sys.log.serverKeys);
        ActivateShaped(sys.server.ep, sys.log.serverKeys, true, p.epoch);
      case Activated(p) => Receipts.HandleKeepsCurrent(suite, sys.server, p, step.seed);
      case _ =>
    }
  }

  lemma SendEpochOf(ep: Endpoint, ks: seq<KeyPair>)
    requires Shaped(ep, ks, true)
    ensures Current(ep) <= |ks| - 1
  {
  }

  /** However a run goes on, neither end goes back to sending under an earlier epoch. */
  lemma {:induction false} SendEpochNeverDecreases(suite: Suite, keys: KeyPair, interval: nat, steps: seq<Step>, more: seq<Step>)
    requires Lawful(suite)
    ensures var sys, sys' := Run(suite, keys, interval, steps), Run(suite, keys, interval, steps + more);
            ClientEpoch(sys) <= ClientEpoch(sys') && ServerEpoch(sys) <= ServerEpoch(sys')
    decreases |more|
  {
    hide Inv, Lawful, Next;
    RunInv(suite, keys, interval, steps);
    RunInv(suite, keys, interval, steps + more);
    EndShapes(suite, Run(suite, keys, interval, steps));
    EndShapes(suite, Run(suite, keys, interval, steps + more));
    RunGrows(suite, keys, interval, steps, more);
    if more == [] {
      assert steps + more == steps;
    } else {
      var n := |more| - 1;
      var all := steps + more[..n];
      assert steps + more == all + [more[n]] && (all + [more[n]])[..|all|] == all;
      SendEpochNeverDecreases(suite, keys, interval, steps, more[..n]);
      RunInv(suite, keys, interval, all);
      ServerStaysAhead(suite, Run(suite, keys, interval, all), more[n]);
    }
  }
}
