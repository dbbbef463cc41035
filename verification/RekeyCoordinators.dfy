/**
 * The two coordinators as objects over a phase machine. Each method is the coordinator
 * function of the same name; derived keys pass through buffers that are cleared afterwards.
 */
module RekeyCoordinators {
  import opened Basics
  import C = Coordinators
  import opened Epochs
  import opened Exchange
  import opened Managers
  import opened StateMachines

  method ToSlice(bytes: Bytes) returns (s: Slice)
    ensures fresh(s.data) && s.Valid() && s.len == |bytes| && s.Bytes() == bytes
  {
    var data := new byte[|bytes|](i requires 0 <= i < |bytes| => bytes[i]);
    s := Slice(data, |bytes|);
  }

  /** Installs derived keys, then clears the caller's copies: the machine keeps its own. */
  method Install(controller: StateMachine, keys: KeyPair) returns (r: Result<uint16, Error>)
    requires controller.Valid()
    modifies controller.state.Repr(), controller.manager.Repr()
    ensures controller.Valid() && controller.state.Repr() == old(controller.state.Repr())
    ensures fresh(controller.manager.Repr() - old(controller.manager.Repr()))
    ensures (r, controller.End()) == StartRekey(old(controller.End()), keys)
    ensures r.Err? ==> controller.End() == old(controller.End())
  {
    hide StartRekey, StateMachine.Valid, StateMachine.End, State.Valid, State.Model, Manager.Valid, Manager.Model;
    var c2s := ToSlice(keys.c2s);
    var s2c := ToSlice(keys.s2c);
    controller.Kept();
    r := controller.StartRekey(c2s, s2c);
    Clear(controller, c2s);
    Clear(controller, s2c);
  }

  /** The initiator switches to the new epoch as soon as it is installed. */
  method InstallAndActivate(controller: StateMachine, keys: KeyPair) returns (r: Result<uint16, Error>)
    requires controller.Valid()
    modifies controller.state.Repr(), controller.manager.Repr()
    ensures controller.Valid() && controller.state.Repr() == old(controller.state.Repr())
    ensures fresh(controller.manager.Repr() - old(controller.manager.Repr()))
    ensures var (r', ep) := StartRekey(old(controller.End()), keys);
            r == r' && controller.End() == if r.Ok? then ActivateSend(ep, r.value) else old(controller.End())
  {
    hide StartRekey, ActivateSend, StateMachine.Valid, StateMachine.End, State.Valid, State.Model, Manager.Valid, Manager.Model;
    r := Install(controller, keys);
    if r.Ok? {
      controller.ActivateSendEpoch(r.value);
    }
  }

  /** Clearing a slice that is not the machine's does not reach the machine. */
  method Clear(controller: StateMachine, s: Slice)
    requires controller.Valid() && s.Valid() && s.data !in controller.state.Repr() + controller.manager.Repr()
    modifies s.data
    ensures s.Bytes() == seq(s.len, _ => 0)
    ensures controller.Valid() && controller.End() == old(controller.End())
    ensures controller.state.Repr() == old(controller.state.Repr()) && controller.manager.Repr() == old(controller.manager.Repr())
  {
    hide StateMachine.Valid, StateMachine.End, State.Valid, State.Model, Manager.Valid, Manager.Model;
    ZeroBytes(s.data, s.len);
    controller.Kept();
  }

  /** The machine's keys, through copies that are cleared again. */
  method ReadKeys(controller: StateMachine) returns (keys: KeyPair)
    requires controller.Valid()
    ensures keys == old(controller.End()).machine.current
    ensures controller.Valid() && controller.End() == old(controller.End())
    ensures controller.state.Repr() == old(controller.state.Repr()) && controller.manager.Repr() == old(controller.manager.Repr())
  {
    hide StateMachine.Valid, StateMachine.End, State.Valid, State.Model, Manager.Valid, Manager.Model;
    var c2s, s2c := controller.CurrentKeys();
    controller.Kept();
    keys := KeyPair(c2s.Bytes(), s2c.Bytes());
    ZeroBytes(c2s.data, c2s.len);
    ZeroBytes(s2c.data, s2c.len);
    controller.Kept();
  }

  /** Whether the machine can start a rekey, and the epoch it sends under. */
  method Standing(controller: StateMachine) returns (ready: bool, epoch: uint16)
    requires controller.Valid()
    ensures ready == ReadyForRekey(controller.End()) && epoch == controller.End().machine.currentEpoch
    ensures controller.Valid() && controller.End() == old(controller.End())
    ensures controller.state.Repr() == old(controller.state.Repr()) && controller.manager.Repr() == old(controller.manager.Repr())
  {
    hide StateMachine.Valid, StateMachine.End, State.Valid, State.Model, Manager.Valid, Manager.Model;
    ready := controller.ReadyForRekey();
    controller.Kept();
    epoch := controller.SendEpoch();
    controller.Kept();
  }

  class ServerRekeyCoordinator {
    const controller: StateMachine
    const suite: Suite
    var current: Option<C.Transaction>

    constructor (controller: StateMachine, suite: Suite)
      requires controller.Valid()
      ensures this.controller == controller && this.suite == suite && current == None
    {
      this.controller, this.suite, current := controller, suite, None;
    }

    ghost function Repr(): (result: set<object>)
      reads controller.state, controller.manager.Root()
    {
      {this} + controller.state.Repr() + controller.manager.Repr()
    }

    ghost predicate Valid()
      reads this, controller.state, controller.manager.Root(), controller.state.Repr(), controller.manager.Repr()
    {
      && controller.Valid()
      && this !in controller.state.Repr() && this !in controller.manager.Repr()
    }

    ghost function Model(): (result: C.Server)
      reads this, controller.state, controller.manager.Root(), controller.state.Repr(), controller.manager.Repr()
      requires Valid()
    {
      C.Server(current, controller.End())
    }

    method Handle(carrier: uint16, request: Plaintext, seed: Seed) returns (r: Result<Option<C.Reply>, Error>)
      requires Valid()
      modifies Repr()
      ensures Valid() && fresh(Repr() - old(Repr()))
      ensures (r, Model()) == C.Handle(suite, old(Model()), carrier, request, seed)
    {
      hide C.OpenTransaction, C.IsRequest, C.Handle, StateMachine.Valid, StateMachine.End, State.Valid, State.Model,
           Manager.Valid, Manager.Model;
      var known := Recall(carrier, request, seed);
      controller.Kept();
      if known.Some? {
        return Ok(known.value);
      }
      r := OpenTransaction(carrier, request, seed);
    }

    /** What the current transaction says to a request; None when it may open a new one. */
    method Recall(carrier: uint16, request: Plaintext, ghost seed: Seed) returns (known: Option<Option<C.Reply>>)
      requires Valid()
      ensures known.Some? ==> C.Handle(suite, old(Model()), carrier, request, seed) == (Ok(known.value), old(Model()))
      ensures known.None? ==>
                && C.IsRequest(suite, request)
                && C.Handle(suite, old(Model()), carrier, request, seed) == C.OpenTransaction(suite, old(Model()), carrier, request, seed)
    {
      hide C.OpenTransaction, StateMachine.Valid, StateMachine.End, State.Valid, State.Model, Manager.Valid, Manager.Model;
      if !C.IsRequest(suite, request) {
        return Some(None);
      }
      if current.Some? && current.value.request == request {
        if current.value.Complete() || current.value.carrier != carrier {
          return Some(None);
        }
        return Some(Some(C.Reply(current.value.response, current.value.epoch)));
      }
      if current.Some? && (!current.value.Complete() || carrier != current.value.epoch) {
        return Some(None);
      }
      var ready := controller.ReadyForRekey();
      controller.Kept();
      known := if ready then None else Some(None);
    }

    method OpenTransaction(carrier: uint16, request: Plaintext, seed: Seed) returns (r: Result<Option<C.Reply>, Error>)
      requires Valid() && C.IsRequest(suite, request)
      modifies Repr()
      ensures Valid() && fresh(Repr() - old(Repr()))
      ensures (r, Model()) == C.OpenTransaction(suite, old(Model()), carrier, request, seed)
    {
      hide StartRekey, Respond, StateMachine.Valid, StateMachine.End, State.Valid, State.Model, Manager.Valid, Manager.Model;
      var keys := ReadKeys(controller);
      var answer := Respond(suite, seed, keys, request.body);
      if answer.None? {
        return Err(ExchangeFailed);
      }
      var epoch := Install(controller, answer.value.keys);
      if epoch.Err? {
        return Err(epoch.error);
      }
      var response := Service(C.AckKind(suite), answer.value.body);
      Remember(C.Transaction(request, response, carrier, epoch.value, false, false));
      r := Ok(Some(C.Reply(response, epoch.value)));
    }

    method Remember(t: C.Transaction)
      requires Valid()
      modifies this`current
      ensures Valid() && Repr() == old(Repr())
      ensures Model() == C.Server(Some(t), old(Model()).ep)
    {
      hide StateMachine.Valid, StateMachine.End, State.Valid, State.Model, Manager.Valid, Manager.Model;
      current := Some(t);
      controller.Kept();
    }

    method ActivateSendEpoch(epoch: uint16)
      requires Valid()
      modifies Repr()
      ensures Valid() && fresh(Repr() - old(Repr()))
      ensures Model() == C.ServerActivate(old(Model()), epoch)
    {
      hide ActivateSend, StateMachine.Valid, StateMachine.End, State.Valid, State.Model, Manager.Valid, Manager.Model;
      controller.ActivateSendEpoch(epoch);
      if current.Some? && current.value.epoch == epoch {
        label Activated:
        current := Some(current.value.(sendActivated := true));
        controller.Kept@Activated();
      }
    }

    method ObservePeerEpoch(epoch: uint16)
      requires Valid()
      modifies Repr()
      ensures Valid() && fresh(Repr() - old(Repr()))
      ensures Model() == C.ServerObserve(old(Model()), epoch)
    {
      hide ObservePeer, StateMachine.Valid, StateMachine.End, State.Valid, State.Model, Manager.Valid, Manager.Model;
      controller.ObservePeerEpoch(epoch);
      if current.Some? && current.value.epoch == epoch {
        label Observed:
        current := Some(current.value.(peerObserved := true));
        controller.Kept@Observed();
      }
    }
  }

  class ClientRekeyCoordinator {
    const controller: StateMachine
    const suite: Suite
    const interval: nat
    var pending: Option<C.Pending>
    var rotateAt: int

    constructor (controller: StateMachine, suite: Suite, now: int, interval: nat)
      requires controller.Valid()
      ensures this.controller == controller && this.suite == suite && this.interval == interval
      ensures pending == None && rotateAt == now + interval
    {
      this.controller, this.suite, this.interval := controller, suite, interval;
      pending, rotateAt := None, now + interval;
    }

    ghost function Repr(): (result: set<object>)
      reads controller.state, controller.manager.Root()
    {
      {this} + controller.state.Repr() + controller.manager.Repr()
    }

    ghost predicate Valid()
      reads this, controller.state, controller.manager.Root(), controller.state.Repr(), controller.manager.Repr()
    {
      && controller.Valid()
      && this !in controller.state.Repr() && this !in controller.manager.Repr()
    }

    ghost function Model(): (result: C.Client)
      reads this, controller.state, controller.manager.Root(), controller.state.Repr(), controller.manager.Repr()
      requires Valid()
    {
      C.Client(pending, rotateAt, interval, controller.End())
    }

    /** The init packet to send now, if one is due: a new exchange, or the pending one again. */
    method MaybeBuildRekeyInit(now: int, draw: Option<Seed>, room: nat) returns (r: Result<Option<Plaintext>, Error>)
      requires Valid()
      modifies this
      ensures Valid() && Repr() == old(Repr())
      ensures (r, Model()) == C.MaybeBuildInit(suite, old(Model()), now, draw, room)
    {
      hide C.Fitting, StateMachine.Valid, StateMachine.End, State.Valid, State.Model, Manager.Valid, Manager.Model;
      if now < rotateAt {
        return Ok(None);
      }
      Postpone(now);
      var ready, epoch := Standing(controller);
      if !ready {
        return Ok(None);
      }
      if suite.V1? && room < C.V1_PACKET_LEN {
        return Ok(None);
      }
      if pending.Some? {
        if epoch != pending.value.carrier {
          return Err(CarrierChanged);
        }
      } else {
        if draw.None? {
          return Err(ExchangeFailed);
        }
        Begin(draw.value, epoch);
      }
      r := Ok(C.Fitting(suite, pending.value, room));
    }

    method Postpone(now: int)
      requires Valid()
      modifies this`rotateAt
      ensures Valid() && Repr() == old(Repr())
      ensures Model() == old(Model()).(rotateAt := now + interval)
    {
      hide StateMachine.Valid, StateMachine.End, State.Valid, State.Model, Manager.Valid, Manager.Model;
      rotateAt := now + interval;
      controller.Kept();
    }

    /** Opens an exchange under the keys of now. */
    method Begin(draw: Seed, epoch: uint16)
      requires Valid()
      modifies this`pending
      ensures Valid() && Repr() == old(Repr())
      ensures Model() == old(Model()).(pending := Some(C.Pending(draw, old(Model()).ep.machine.current, epoch)))
    {
      hide StateMachine.Valid, StateMachine.End, State.Valid, State.Model, Manager.Valid, Manager.Model;
      var keys := ReadKeys(controller);
      pending := Some(C.Pending(draw, keys, epoch));
      controller.Kept();
    }

    lemma CompletesPending(carrier: uint16, ack: Plaintext)
      ensures C.Completes(suite, pending, carrier, ack) ==> pending.Some? && ack.Service?
    {
    }

    /** Finishes the pending exchange and promotes its epoch at once. */
    method HandleRekeyAck(carrier: uint16, ack: Plaintext) returns (r: Result<bool, Error>)
      requires Valid()
      modifies Repr()
      ensures Valid() && fresh(Repr() - old(Repr()))
      ensures (r, Model()) == C.HandleAck(suite, old(Model()), carrier, ack)
    {
      hide StartRekey, ActivateSend, Finish, C.Completes, StateMachine.Valid, StateMachine.End, State.Valid, State.Model,
           Manager.Valid, Manager.Model;
      CompletesPending(carrier, ack);
      if !C.Completes(suite, pending, carrier, ack) {
        return Ok(false);
      }
      var keys := Derive(ack.body);
      if keys.None? {
        return Err(ExchangeFailed);
      }
      r := Complete(keys.value);
    }

    /** The keys an answer leads to; version 2 consumes its handshake state on the way. */
    method Derive(body: Bytes) returns (keys: Option<KeyPair>)
      requires Valid() && pending.Some?
      modifies this
      ensures Valid() && Repr() == old(Repr()) && rotateAt == old(rotateAt) && controller.End() == old(controller.End())
      ensures pending == if suite.V2? then None else old(pending)
      ensures keys == Finish(suite, old(pending).value.seed, old(pending).value.startKeys, controller.End().machine.current, body)
    {
      hide Finish, StateMachine.Valid, StateMachine.End, State.Valid, State.Model, Manager.Valid, Manager.Model;
      var p := pending.value;
      var current := ReadKeys(controller);
      controller.Kept();
      label Read:
      if suite.V2? {
        pending := None;
      }
      controller.Kept@Read();
      keys := Finish(suite, p.seed, p.startKeys, current, body);
    }

    method Complete(keys: KeyPair) returns (r: Result<bool, Error>)
      requires Valid()
      modifies Repr()
      ensures Valid() && fresh(Repr() - old(Repr())) && rotateAt == old(rotateAt)
      ensures var (epoch, ep) := StartRekey(old(controller.End()), keys);
              match epoch
              case Ok(e) => r == Ok(true) && pending == None && controller.End() == ActivateSend(ep, e)
              case Err(e) => r == Err(e) && pending == old(pending) && controller.End() == old(controller.End())
    {
      hide StartRekey, ActivateSend, StateMachine.Valid, StateMachine.End, State.Valid, State.Model, Manager.Valid, Manager.Model;
      var epoch := InstallAndActivate(controller, keys);
      if epoch.Err? {
        return Err(epoch.error);
      }
      label Activated:
      pending := None;
      controller.Kept@Activated();
      r := Ok(true);
    }

    method ObservePeerEpoch(epoch: uint16)
      requires Valid()
      modifies Repr()
      ensures Valid() && fresh(Repr() - old(Repr()))
      ensures Model() == C.ClientObserve(old(Model()), epoch)
    {
      controller.ObservePeerEpoch(epoch);
    }

    method ActivateSendEpoch(epoch: uint16)
      requires Valid()
      modifies Repr()
      ensures Valid() && fresh(Repr() - old(Repr()))
      ensures Model() == C.ClientActivate(old(Model()), epoch)
    {
      controller.ActivateSendEpoch(epoch);
    }
  }
}
