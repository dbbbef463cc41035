/** No nonce is used twice by one crypto instance, over any interleaving of its calls. */
module NonceRuns {
  import opened Basics
  import opened Epochs
  import opened Nonces

  datatype Call = Encrypt(text: Plaintext) | StageEpoch(keys: KeyPair) | PromoteEpoch(epoch: uint16) | RetireEpoch

  /** Packet number and epoch of a nonce. */
  datatype Used = Used(number: nat, epoch: uint16)

  /** A crypto instance, the nonces it has sealed with and the epochs it has handed out, in order. */
  datatype Trace = Trace(crypto: Crypto, used: seq<Used>, epochs: seq<uint16>)

  function Sealed(c: Crypto, text: Plaintext): (result: (Option<Used>, Crypto))
  {
    match c
    case Udp(u) =>
      var (d, u') := UdpEncrypt(u, text);
      (if d.Some? then Some(Used(d.value.number, d.value.epoch)) else None, Udp(u'))
    case Tcp(t) =>
      var (f, t') := TcpEncrypt(t, text);
      (if f.Some? then Some(Used(f.value.number, f.value.epoch)) else None, Tcp(t'))
  }

  function Next(t: Trace, call: Call): (result: Trace)
  {
    match call
    case Encrypt(text) =>
      var (u, c) := Sealed(t.crypto, text);
      Trace(c, if u.Some? then t.used + [u.value] else t.used, t.epochs)
    case StageEpoch(keys) =>
      var (r, c) := Stage(t.crypto, keys);
      Trace(c, t.used, if r.Ok? then t.epochs + [r.value] else t.epochs)
    case PromoteEpoch(epoch) => t.(crypto := Promote(t.crypto, epoch))
    case RetireEpoch => t.(crypto := RetirePrevious(t.crypto).1)
  }

  ghost predicate Fresh(c: Crypto)
  {
    exists keys, isServer :: c == Udp(NewUdp(keys, isServer)) || c == Tcp(NewTcp(keys, isServer))
  }

  function Run(start: Crypto, calls: seq<Call>): (result: Trace)
  {
    if calls == [] then Trace(start, [], []) else Next(Run(start, calls[..|calls| - 1]), calls[|calls| - 1])
  }

  // ---- the invariant ----

  function Counter(c: Crypto): (result: uint16)
  {
    match c
    case Udp(u) => u.counter
    case Tcp(t) => t.counter
  }

  /** The epochs that can still seal, with the last number each has used. */
  function Live(c: Crypto): (result: seq<Used>)
  {
    match c
    case Udp(u) => seq(|u.ring|, i requires 0 <= i < |u.ring| => Used(u.ring[i].sent, u.ring[i].epoch))
    case Tcp(t) =>
      [Used(t.newest.sent, t.newest.epoch)]
      + (if t.previous.Some? then [Used(t.previous.value.sent, t.previous.value.epoch)] else [])
  }

  ghost predicate LiveSound(live: seq<Used>, counter: uint16)
  {
    && (forall i :: 0 <= i < |live| ==> live[i].epoch <= counter && live[i].number <= LAST_COUNTER)
    && (forall i, j :: 0 <= i < j < |live| ==> live[i].epoch != live[j].epoch)
  }

  /** No live epoch will hand out a number again, and none above the counter has been used. */
  ghost predicate UsedSound(used: seq<Used>, live: seq<Used>, counter: uint16)
  {
    && (forall k :: 0 <= k < |used| ==> used[k].epoch <= counter && used[k].number <= LAST_COUNTER)
    && (forall k, i :: 0 <= k < |used| && 0 <= i < |live| && used[k].epoch == live[i].epoch ==> used[k].number <= live[i].number)
    && (forall j, k :: 0 <= j < k < |used| ==> used[j] != used[k])
  }

  /** Some session is there to seal with. */
  predicate CanSend(c: Crypto)
  {
    match c
    case Udp(u) => u.ring != []
    case Tcp(t) => t.sendsNewest || t.previous.Some?
  }

  ghost predicate Sound(t: Trace)
  {
    && LiveSound(Live(t.crypto), Counter(t.crypto))
    && UsedSound(t.used, Live(t.crypto), Counter(t.crypto))
    && CanSend(t.crypto)
    && Counter(t.crypto) == |t.epochs| <= MAX_EPOCH
    && (forall k :: 0 <= k < |t.epochs| ==> t.epochs[k] == k + 1)
  }

  /** Sealing takes the next number of one live epoch. */
  lemma SealedNext(c: Crypto, text: Plaintext)
    requires CanSend(c)
    ensures var (u, c') := Sealed(c, text);
            && Counter(c') == Counter(c) && CanSend(c') && |Live(c')| == |Live(c)|
            && (u.None? ==> Live(c') == Live(c))
            && (u.Some? ==> exists i :: 0 <= i < |Live(c)| && NextOf(Live(c), i, u.value) && Live(c') == Live(c)[i := u.value])
  {
    var (u, c') := Sealed(c, text);
    match c
    case Udp(r) =>
      if u.Some? {
        var i := SendSlot(r);
        assert NextOf(Live(c), i, u.value) && Live(c') == Live(c)[i := u.value];
      }
    case Tcp(t) =>
      if u.Some? {
        var i := if t.sendsNewest then 0 else 1;
        assert NextOf(Live(c), i, u.value) && Live(c') == Live(c)[i := u.value];
      }
  }

  ghost predicate NextOf(live: seq<Used>, i: nat, u: Used)
    requires i < |live|
  {
    u.epoch == live[i].epoch && u.number == live[i].number + 1 <= LAST_COUNTER
  }

  /** The live epochs after a staging: a new one at number zero, and some suffix of the old ones. */
  ghost predicate Renewed(live: seq<Used>, live': seq<Used>, next: uint16)
  {
    exists k: nat :: k <= |live| && live' in {live[k..] + [Used(0, next)], [Used(0, next)] + live[k..]}
  }

  lemma StageLive(c: Crypto, keys: KeyPair)
    requires CanSend(c) && LiveSound(Live(c), Counter(c))
    ensures var (r, c') := Stage(c, keys);
            && (r.Err? ==> c' == c)
            && (r.Ok? ==> r.value == Counter(c') == Counter(c) + 1 <= MAX_EPOCH && CanSend(c')
                          && Renewed(Live(c), Live(c'), r.value))
  {
    var (r, c') := Stage(c, keys);
    if r.Ok? {
      match c
      case Udp(u) =>
        var k := if |u.ring| == RING_CAPACITY then 1 else 0;
        assert Live(c') == Live(c)[k..] + [Used(0, r.value)];
      case Tcp(t) =>
        assert Live(c') == [Used(0, r.value)] + Live(c)[0..];
    }
  }

  lemma Dropped(used: seq<Used>, live: seq<Used>, counter: uint16, k: nat)
    requires LiveSound(live, counter) && UsedSound(used, live, counter) && k <= |live|
    ensures LiveSound(live[k..], counter) && UsedSound(used, live[k..], counter)
  {
  }

  lemma Added(used: seq<Used>, live: seq<Used>, counter: uint16, n: Used)
    requires LiveSound(live, counter) && UsedSound(used, live, counter)
    requires counter < MAX_EPOCH && n == Used(0, counter + 1)
    ensures LiveSound(live + [n], counter + 1) && UsedSound(used, live + [n], counter + 1)
    ensures LiveSound([n] + live, counter + 1) && UsedSound(used, [n] + live, counter + 1)
  {
    assert forall i :: 1 <= i < |[n] + live| ==> ([n] + live)[i] == live[i - 1];
  }

  lemma RenewedSound(used: seq<Used>, live: seq<Used>, live': seq<Used>, counter: uint16)
    requires LiveSound(live, counter) && UsedSound(used, live, counter) && counter < MAX_EPOCH
    requires Renewed(live, live', counter + 1)
    ensures LiveSound(live', counter + 1) && UsedSound(used, live', counter + 1)
  {
    hide LiveSound, UsedSound;
    var n := Used(0, counter + 1);
    var k: nat :| k <= |live| && live' in {live[k..] + [n], [n] + live[k..]};
    Dropped(used, live, counter, k);
    Added(used, live[k..], counter, n);
  }

  lemma RetireLive(c: Crypto)
    requires CanSend(c)
    ensures var c' := RetirePrevious(c).1;
            && Counter(c') == Counter(c) && CanSend(c') && |Live(c')| <= |Live(c)|
            && (forall i :: 0 <= i < |Live(c')| ==> Live(c')[i] == Live(c)[i])
  {
  }

  lemma EncryptSound(t: Trace, text: Plaintext)
    requires Sound(t)
    ensures Sound(Next(t, Encrypt(text)))
  {
    hide Sealed, Live, Counter, CanSend, LiveSound, UsedSound;
    SealedNext(t.crypto, text);
    var (u, c) := Sealed(t.crypto, text);
    if u.Some? {
      var i :| 0 <= i < |Live(t.crypto)| && NextOf(Live(t.crypto), i, u.value) && Live(c) == Live(t.crypto)[i := u.value];
      UseNext(t.used, Live(t.crypto), Counter(t.crypto), i, u.value);
    }
  }

  lemma StageSound(t: Trace, keys: KeyPair)
    requires Sound(t)
    ensures Sound(Next(t, StageEpoch(keys)))
  {
    hide Stage, Live, Counter, CanSend, LiveSound, UsedSound, Renewed;
    StageLive(t.crypto, keys);
    var (r, c) := Stage(t.crypto, keys);
    if r.Ok? { RenewedSound(t.used, Live(t.crypto), Live(c), Counter(t.crypto)); }
  }

  lemma NextSound(t: Trace, call: Call)
    requires Sound(t)
    ensures Sound(Next(t, call))
  {
    hide Sealed, Stage, RetirePrevious;
    match call
    case Encrypt(text) => EncryptSound(t, text);
    case StageEpoch(keys) => StageSound(t, keys);
    case PromoteEpoch(epoch) =>
    case RetireEpoch => RetireLive(t.crypto);
  }

  lemma UseNext(used: seq<Used>, live: seq<Used>, counter: uint16, i: nat, u: Used)
    requires LiveSound(live, counter) && UsedSound(used, live, counter) && i < |live| && NextOf(live, i, u)
    ensures LiveSound(live[i := u], counter) && UsedSound(used + [u], live[i := u], counter)
  {
  }

  lemma {:induction false} RunSound(start: Crypto, calls: seq<Call>)
    requires Fresh(start)
    ensures Sound(Run(start, calls))
  {
    hide Next;
    if calls != [] {
      RunSound(start, calls[..|calls| - 1]);
      NextSound(Run(start, calls[..|calls| - 1]), calls[|calls| - 1]);
    }
  }

  // ---- what it means ----

  /** Any two packets one instance has sealed carried different 12-byte nonces, across all epochs. */
  lemma {:induction false} NoncesDistinct(start: Crypto, calls: seq<Call>, j: nat, k: nat)
    requires Fresh(start) && j < k < |Run(start, calls).used|
    ensures var used := Run(start, calls).used;
            && used[j].number <= LAST_COUNTER && used[k].number <= LAST_COUNTER
            && NonceBytes(used[j].number, used[j].epoch) != NonceBytes(used[k].number, used[k].epoch)
  {
    hide NonceBytes, Run;
    RunSound(start, calls);
    var used := Run(start, calls).used;
    if NonceBytes(used[j].number, used[j].epoch) == NonceBytes(used[k].number, used[k].epoch) {
      NonceInjective(used[j].number, used[j].epoch, used[k].number, used[k].epoch);
    }
  }

  /** Epochs are handed out as 1, 2, 3, ... and end at 65000, far from a 16-bit wrap. */
  lemma {:induction false} EpochsIncrease(start: Crypto, calls: seq<Call>, k: nat)
    requires Fresh(start) && k < |Run(start, calls).epochs|
    ensures Run(start, calls).epochs[k] == k + 1 <= MAX_EPOCH
  {
    RunSound(start, calls);
  }

  /** Neither a retirement nor an eviction takes the last session: sealing fails only at the last number. */
  lemma {:induction false} AlwaysASender(start: Crypto, calls: seq<Call>, text: Plaintext)
    requires Fresh(start)
    ensures var c := Run(start, calls).crypto;
            Sealed(c, text).0.None? ==> exists i :: 0 <= i < |Live(c)| && Live(c)[i].number >= LAST_COUNTER
  {
    RunSound(start, calls);
    var c := Run(start, calls).crypto;
    hide Run;
    match c
    case Udp(u) => assert Live(c)[SendSlot(u)].number == u.ring[SendSlot(u)].sent;
    case Tcp(t) => assert Live(c)[if t.sendsNewest then 0 else 1].number == if t.sendsNewest then t.newest.sent else t.previous.value.sent;
  }
}
