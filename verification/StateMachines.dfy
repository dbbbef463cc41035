/**
 * The phase machine as the program keeps it: key buffers that are copied into, swapped and
 * cleared in place. Each method is the function of the same name on the values they hold.
 */
module StateMachines {
  import opened Basics
  import opened Epochs
  import opened Managers

  /** A byte slice: the first len bytes of a buffer that may be longer. */
  datatype Slice = Slice(data: array<byte>, len: nat)
  {
    ghost predicate Valid() { len <= data.Length }

    function Bytes(): (result: Bytes)
      requires len <= data.Length
      reads data
    {
      data[..len]
    }
  }

  datatype Keys = Keys(c2s: Slice, s2c: Slice, epoch: uint16)
  {
    ghost predicate Valid()
    {
      c2s.Valid() && s2c.Valid() && c2s.data.Length >= KEY_SIZE && s2c.data.Length >= KEY_SIZE
    }

    ghost function Buffers(): (result: set<object>) { {c2s.data, s2c.data} }

    ghost function Pair(): (result: KeyPair)
      requires Valid()
      reads Buffers()
    {
      KeyPair(c2s.Bytes(), s2c.Bytes())
    }
  }

  /** A copy of a key in a buffer of its own, with room for a full-size key. */
  method CloneKey(key: Slice) returns (s: Slice)
    requires key.Valid()
    ensures fresh(s.data) && s.Valid() && s.data.Length >= KEY_SIZE
    ensures s.Bytes() == key.Bytes()
  {
    var data := new byte[Max(key.len, KEY_SIZE)](_ => 0);
    forall i | 0 <= i < key.len { data[i] := key.data[i]; }
    s := Slice(data, key.len);
  }

  method ZeroBytes(data: array<byte>, len: nat)
    requires len <= data.Length
    modifies data
    ensures data[..len] == seq(len, _ => 0)
  {
    forall i | 0 <= i < len { data[i] := 0; }
  }

  /** The machine's own state: two pairs of key buffers, the phase and what the peer has shown. */
  class State {
    var current: Keys
    var staged: Keys
    var maxObservedPeerEpoch: uint16
    var phase: Phase

    ghost function Repr(): (result: set<object>)
      reads this
    {
      {this, current.c2s.data, current.s2c.data, staged.c2s.data, staged.s2c.data}
    }

    /** Four separate buffers; the staged pair is always full-size. */
    ghost predicate Valid()
      reads this
    {
      && current.Valid() && staged.Valid()
      && staged.c2s.len == KEY_SIZE && staged.s2c.len == KEY_SIZE
      && current.c2s.data != current.s2c.data && staged.c2s.data != staged.s2c.data
      && current.c2s.data !in staged.Buffers() && current.s2c.data !in staged.Buffers()
    }

    ghost function Model(): (result: Machine)
      reads this, Repr()
      requires Valid()
    {
      Machine(phase, current.Pair(), current.epoch, staged.Pair(), staged.epoch, maxObservedPeerEpoch)
    }

    constructor (c2s: Slice, s2c: Slice)
      requires c2s.Valid() && s2c.Valid()
      ensures Valid() && fresh(Repr())
      ensures Model() == NewMachine(KeyPair(c2s.Bytes(), s2c.Bytes()))
    {
      var c := CloneKey(c2s);
      var s := CloneKey(s2c);
      current := Keys(c, s, 0);
      var zc := new byte[KEY_SIZE](_ => 0);
      var zs := new byte[KEY_SIZE](_ => 0);
      staged := Keys(Slice(zc, KEY_SIZE), Slice(zs, KEY_SIZE), 0);
      maxObservedPeerEpoch, phase := 0, Idle;
      new;
      assert staged.Pair() == ZeroKeys();
    }

    /** Copies the caller's keys into the staged buffers; the caller's slices are not kept. */
    method CopyStaged(c2s: Slice, s2c: Slice, epoch: uint16)
      requires Valid() && c2s.Valid() && s2c.Valid() && c2s.len == KEY_SIZE && s2c.len == KEY_SIZE
      requires c2s.data !in Repr() && s2c.data !in Repr()
      modifies Repr()
      ensures Valid() && Repr() == old(Repr())
      ensures Model() == old(Model()).(phase := Staged, stagedEpoch := epoch, staged := KeyPair(c2s.Bytes(), s2c.Bytes()))
    {
      CopyKey(staged.c2s.data, c2s);
      CopyKey(staged.s2c.data, s2c);
      staged := staged.(epoch := epoch);
      phase := Staged;
    }

    /** Swaps the current and the staged buffers, and clears the ones left behind. */
    method ActivateStaged(epoch: uint16) returns (activated: bool)
      requires Valid()
      modifies Repr()
      ensures Valid() && Repr() == old(Repr())
      ensures activated == (old(phase) == Staged && epoch == old(staged.epoch))
      ensures Model() == if activated then SwapStaged(old(Model())) else old(Model())
      ensures activated ==> forall i :: 0 <= i < KEY_SIZE ==> staged.c2s.data[i] == 0 && staged.s2c.data[i] == 0
    {
      if phase != Staged || epoch != staged.epoch {
        return false;
      }
      current, staged := staged, current;
      ClearStaged();
      phase := Retiring;
      activated := true;
    }

    method ClearStaged()
      requires current.Valid() && staged.Valid()
      requires current.c2s.data != current.s2c.data && staged.c2s.data != staged.s2c.data
      requires current.c2s.data !in staged.Buffers() && current.s2c.data !in staged.Buffers()
      modifies this`staged, staged.Buffers()
      ensures staged == old(staged).(c2s := Slice(old(staged).c2s.data, KEY_SIZE), s2c := Slice(old(staged).s2c.data, KEY_SIZE))
      ensures staged.Valid() && staged.Pair() == ZeroKeys() && current.Pair() == old(current.Pair())
      ensures forall i :: 0 <= i < KEY_SIZE ==> staged.c2s.data[i] == 0 && staged.s2c.data[i] == 0
    {
      staged := staged.(c2s := Slice(staged.c2s.data, KEY_SIZE), s2c := Slice(staged.s2c.data, KEY_SIZE));
      ZeroBytes(staged.c2s.data, KEY_SIZE);
      ZeroBytes(staged.s2c.data, KEY_SIZE);
    }
  }

  method CopyKey(dst: array<byte>, src: Slice)
    requires src.Valid() && src.len == KEY_SIZE <= dst.Length && src.data != dst
    modifies dst
    ensures dst[..KEY_SIZE] == src.Bytes()
  {
    forall i | 0 <= i < KEY_SIZE { dst[i] := src.data[i]; }
  }

  class StateMachine {
    const manager: Manager
    const state: State

    ghost predicate Valid()
      reads state, state.Repr(), manager.Root(), manager.Repr()
    {
      state.Valid() && manager.Valid() && state.Repr() !! manager.Repr()
    }

    ghost function End(): (result: Endpoint)
      reads state, state.Repr(), manager.Root(), manager.Repr()
      requires Valid()
    {
      Endpoint(state.Model(), manager.Model())
    }

    constructor (manager: Manager, c2s: Slice, s2c: Slice)
      requires manager.Valid() && c2s.Valid() && s2c.Valid()
      ensures Valid() && this.manager == manager && fresh(state.Repr())
      ensures End() == Endpoint(NewMachine(KeyPair(c2s.Bytes(), s2c.Bytes())), manager.Model())
    {
      this.manager := manager;
      state := new State(c2s, s2c);
    }

    /** Snapshots that belong to the caller: writing to them cannot reach the machine. */
    method CurrentKeys() returns (c2s: Slice, s2c: Slice)
      requires Valid()
      ensures fresh(c2s.data) && fresh(s2c.data) && c2s.Valid() && s2c.Valid()
      ensures KeyPair(c2s.Bytes(), s2c.Bytes()) == End().machine.current
    {
      c2s := CloneKey(state.current.c2s);
      s2c := CloneKey(state.current.s2c);
    }

    method ReadyForRekey() returns (ready: bool)
      requires Valid()
      ensures ready == Epochs.ReadyForRekey(End())
    {
      ready := state.phase == Idle;
    }

    method SendEpoch() returns (epoch: uint16)
      requires Valid()
      ensures epoch == End().machine.currentEpoch
    {
      epoch := state.current.epoch;
    }

    lemma PhaseOf()
      requires Valid()
      ensures End().machine.phase == state.phase && End().machine.stagedEpoch == state.staged.epoch
    {
    }

    /** What happens to the key state does not reach the back end. */
    twostate lemma ManagerKept()
      requires old(Valid()) && unchanged(old(manager.Repr()))
      ensures manager.Valid() && manager.Repr() == old(manager.Repr()) && manager.Model() == old(manager.Model())
    {
    }

    /** What happens to the back end does not reach the key state. */
    twostate lemma StateKept()
      requires old(Valid()) && unchanged(old(state.Repr()))
      ensures state.Valid() && state.Repr() == old(state.Repr()) && state.Model() == old(state.Model())
    {
    }

    /** Nothing outside its footprint reaches the machine. */
    twostate lemma Kept()
      requires old(Valid()) && unchanged(old(state.Repr())) && unchanged(old(manager.Repr()))
      ensures Valid() && End() == old(End())
      ensures state.Repr() == old(state.Repr()) && manager.Repr() == old(manager.Repr())
    {
      hide Manager.Valid, Manager.Model, State.Valid, State.Model;
      StateKept();
      ManagerKept();
    }

    method Stage(keys: KeyPair) returns (r: Result<uint16, Error>)
      requires Valid()
      modifies manager.Repr()
      ensures Valid() && state.Repr() == old(state.Repr()) && fresh(manager.Repr() - old(manager.Repr()))
      ensures (r, End().crypto) == Epochs.Stage(old(End()).crypto, keys) && End().machine == old(End()).machine
      ensures r.Err? ==> End() == old(End())
    {
      r := manager.StageEpoch(keys);
      StateKept();
    }

    method StartRekey(c2s: Slice, s2c: Slice) returns (r: Result<uint16, Error>)
      requires Valid() && c2s.Valid() && s2c.Valid()
      requires c2s.data !in state.Repr() + manager.Repr() && s2c.data !in state.Repr() + manager.Repr()
      modifies state.Repr(), manager.Repr()
      ensures Valid() && state.Repr() == old(state.Repr()) && fresh(manager.Repr() - old(manager.Repr()))
      ensures (r, End()) == Epochs.StartRekey(old(End()), KeyPair(c2s.Bytes(), s2c.Bytes()))
      ensures r.Err? ==> End() == old(End())
    {
      hide Epochs.Stage, Manager.Valid, Manager.Model, State.Model;
      PhaseOf();
      if c2s.len != KEY_SIZE || s2c.len != KEY_SIZE {
        return Err(BadKeySize);
      }
      if state.phase != Idle {
        return Err(RekeyInProgress);
      }
      ghost var keys := KeyPair(c2s.Bytes(), s2c.Bytes());
      r := Stage(KeyPair(c2s.Bytes(), s2c.Bytes()));
      assert keys == KeyPair(c2s.Bytes(), s2c.Bytes());
      if r.Ok? {
        label Staged:
        state.CopyStaged(c2s, s2c, r.value);
        ManagerKept@Staged();
        assert keys == KeyPair(c2s.Bytes(), s2c.Bytes());
      }
    }

    method RetirePreviousEpoch()
      requires Valid()
      modifies state`phase, manager.Repr()
      ensures Valid() && state.Repr() == old(state.Repr()) && fresh(manager.Repr() - old(manager.Repr()))
      ensures End() == RetireIfConfirmed(old(End()))
    {
      if state.phase != Retiring || state.maxObservedPeerEpoch < state.current.epoch {
        return;
      }
      var ok := manager.RetirePreviousEpoch();
      if ok {
        state.phase := Idle;
      }
    }

    /** Promotes the staged epoch, and retires the one before it if the peer has confirmed. */
    method PromoteSendEpoch(epoch: uint16)
      requires Valid()
      modifies state`phase, manager.Repr()
      ensures Valid() && state.Repr() == old(state.Repr()) && fresh(manager.Repr() - old(manager.Repr()))
      ensures End() == RetireIfConfirmed(Endpoint(old(End()).machine, Promote(old(End()).crypto, epoch)))
    {
      hide RetireIfConfirmed, Promote, Manager.Valid, Manager.Model, Manager.Repr, State.Valid, State.Model, Valid, End;
      ghost var was := manager.Repr();
      MoveSender(epoch);
      ghost var moved := manager.Repr();
      label Moved:
      RetirePreviousEpoch();
      assert allocated(manager.Repr());
      assert fresh@Moved(manager.Repr() - moved);
      assert fresh(manager.Repr() - was);
    }

    method MoveSender(epoch: uint16)
      requires Valid()
      modifies manager.Repr()
      ensures Valid() && state.Repr() == old(state.Repr()) && fresh(manager.Repr() - old(manager.Repr()))
      ensures End() == Endpoint(old(End()).machine, Promote(old(End()).crypto, epoch))
    {
      hide Promote, Manager.Valid, Manager.Model, State.Valid, State.Model;
      manager.PromoteSendEpoch(epoch);
      StateKept();
    }

    method ActivateStaged(epoch: uint16) returns (activated: bool)
      requires Valid()
      modifies state.Repr()
      ensures Valid() && state.Repr() == old(state.Repr()) && manager.Repr() == old(manager.Repr())
      ensures var m := old(End()).machine;
              && activated == (m.phase == Staged && epoch == m.stagedEpoch)
              && End() == Endpoint(if activated then SwapStaged(m) else m, old(End()).crypto)
    {
      hide SwapStaged, Manager.Valid, Manager.Model, State.Model;
      PhaseOf();
      activated := state.ActivateStaged(epoch);
      ManagerKept();
    }

    method ActivateSendEpoch(epoch: uint16)
      requires Valid()
      modifies state.Repr(), manager.Repr()
      ensures Valid() && state.Repr() == old(state.Repr()) && fresh(manager.Repr() - old(manager.Repr()))
      ensures End() == ActivateSend(old(End()), epoch)
    {
      hide RetireIfConfirmed, Promote, SwapStaged, Manager.Valid, Manager.Model, State.Valid, State.Model, End;
      var activated := ActivateStaged(epoch);
      if activated {
        PromoteSendEpoch(epoch);
      }
    }

    method ObservePeerEpoch(epoch: uint16)
      requires Valid()
      modifies state, manager.Repr()
      ensures Valid() && state.Repr() == old(state.Repr()) && fresh(manager.Repr() - old(manager.Repr()))
      ensures End() == ObservePeer(old(End()), epoch)
    {
      if epoch > state.maxObservedPeerEpoch {
        state.maxObservedPeerEpoch := epoch;
      }
      RetirePreviousEpoch();
    }
  }
}
