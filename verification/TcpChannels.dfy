/** A reliable first-in-first-out channel of frames, and the counters of its two ends. */
module TcpChannels {
  import opened Basics
  import opened Epochs
  import opened Nonces
  import opened TcpEndpoints

  /** Everything ever sent, and how much of it has been read. */
  datatype Channel = Channel(sent: seq<TcpFrame>, got: nat)

  function Count(frames: seq<TcpFrame>, epoch: int): (result: nat)
  {
    if frames == [] then 0
    else Count(frames[..|frames| - 1], epoch) + (if frames[|frames| - 1].epoch == epoch then 1 else 0)
  }

  /** A frame carries its epoch's key and the next number of that epoch. */
  ghost predicate Framed(sent: seq<TcpFrame>, i: nat, ks: seq<KeyPair>, isServer: bool)
    requires i < |sent|
  {
    var f := sent[i];
    && f.epoch < |ks| && f.key == SendKey(ks[f.epoch], isServer)
    && f.number == Count(sent[..i], f.epoch) + 1 <= LAST_COUNTER
  }

  ghost predicate Ascending(sent: seq<TcpFrame>)
  {
    forall i, j :: 0 <= i <= j < |sent| ==> sent[i].epoch <= sent[j].epoch
  }

  ghost predicate Wired(ch: Channel, ks: seq<KeyPair>, isServer: bool)
  {
    && ch.got <= |ch.sent|
    && Ascending(ch.sent)
    && forall i :: 0 <= i < |ch.sent| ==> Framed(ch.sent, i, ks, isServer)
  }

  ghost predicate AllAtMost(frames: seq<TcpFrame>, epoch: int)
  {
    forall i :: 0 <= i < |frames| ==> frames[i].epoch <= epoch
  }

  ghost predicate SentInStep(t: TcpCrypto, sent: seq<TcpFrame>)
  {
    && t.newest.sent == Count(sent, t.newest.epoch)
    && (t.previous.Some? ==> t.previous.value.sent == Count(sent, t.previous.value.epoch))
  }

  ghost predicate ReceivedInStep(t: TcpCrypto, read: seq<TcpFrame>)
  {
    && t.newest.received == Count(read, t.newest.epoch)
    && (t.previous.Some? ==> t.previous.value.received == Count(read, t.previous.value.epoch))
  }

  /** An end's counters agree with what it has sent and what it has read. */
  ghost predicate InStep(ep: Endpoint, out: Channel, in_: Channel)
  {
    && ep.crypto.Tcp? && in_.got <= |in_.sent|
    && SentInStep(ep.crypto.tcp, out.sent)
    && ReceivedInStep(ep.crypto.tcp, in_.sent[..in_.got])
  }

  lemma {:induction false} CountNone(frames: seq<TcpFrame>, epoch: int)
    requires AllAtMost(frames, epoch - 1)
    ensures Count(frames, epoch) == 0
  {
    if frames != [] { CountNone(frames[..|frames| - 1], epoch); }
  }

  lemma {:induction false} CountNext(frames: seq<TcpFrame>, f: TcpFrame, epoch: int)
    ensures Count(frames + [f], epoch) == Count(frames, epoch) + if f.epoch == epoch then 1 else 0
  {
    assert (frames + [f])[..|frames|] == frames;
  }

  function Appended(ch: Channel, f: TcpFrame): (result: Channel) { ch.(sent := ch.sent + [f]) }

  /** Sealing appends a well-numbered frame of the send epoch. */
  lemma SealInStep(ep: Endpoint, ks: seq<KeyPair>, isServer: bool, out: Channel, in_: Channel, text: Plaintext)
    requires TcpShaped(ep, ks, isServer) && Wired(out, ks, isServer) && InStep(ep, out, in_)
    requires AllAtMost(out.sent, ep.machine.currentEpoch)
    ensures var (f, ep') := SealTcp(ep, text);
            f.Some? ==>
              && f.value.epoch == ep.machine.currentEpoch && f.value.text == text
              && Wired(Appended(out, f.value), ks, isServer) && InStep(ep', Appended(out, f.value), in_)
  {
    var (f, ep') := SealTcp(ep, text);
    if f.Some? {
      var sent' := out.sent + [f.value];
      CountNext(out.sent, f.value, ep.crypto.tcp.newest.epoch);
      CountNext(out.sent, f.value, ep.crypto.tcp.newest.epoch - 1);
      forall i | 0 <= i < |sent'| ensures Framed(sent', i, ks, isServer)
      {
        if i < |out.sent| {
          assert Framed(out.sent, i, ks, isServer);
          assert sent'[..i] == out.sent[..i];
        } else {
          assert sent'[..i] == out.sent;
        }
      }
    }
  }

  /** The receive session a frame is meant for: it exists, with the frame's key and number. */
  ghost predicate Found(t: TcpCrypto, f: TcpFrame)
  {
    || (f.epoch == t.newest.epoch && f.key == t.newest.recvKey && f.number == t.newest.received + 1 <= LAST_COUNTER)
    || (f.epoch != t.newest.epoch && t.previous.Some? && f.epoch == t.previous.value.epoch
        && f.key == t.previous.value.recvKey && f.number == t.previous.value.received + 1 <= LAST_COUNTER)
  }

  lemma FoundOpens(ep: Endpoint, f: TcpFrame)
    requires ep.crypto.Tcp? && Found(ep.crypto.tcp, f)
    ensures OpenTcp(ep, f).0 == Some(f.text)
  {
  }

  /** The next frame of a live epoch is found, and reading it keeps the counters in step. */
  lemma NextFound(ep: Endpoint, ks: seq<KeyPair>, isServer: bool, out: Channel, in_: Channel, peerKeys: seq<KeyPair>)
    requires TcpShaped(ep, ks, isServer) && InStep(ep, out, in_) && Wired(in_, peerKeys, !isServer)
    requires in_.got < |in_.sent|
    requires var e := in_.sent[in_.got].epoch;
             && |ks| - (if ep.machine.phase == Idle then 1 else 2) <= e < |ks|
             && e < |peerKeys| && ks[e] == peerKeys[e]
    ensures Found(ep.crypto.tcp, in_.sent[in_.got])
    ensures InStep(OpenTcp(ep, in_.sent[in_.got]).1, out, in_.(got := in_.got + 1))
  {
    var f, t := in_.sent[in_.got], ep.crypto.tcp;
    assert Framed(in_.sent, in_.got, peerKeys, !isServer);
    assert in_.sent[..in_.got + 1] == in_.sent[..in_.got] + [f];
    CountNext(in_.sent[..in_.got], f, t.newest.epoch);
    CountNext(in_.sent[..in_.got], f, t.newest.epoch - 1);
  }

  /** A machine call that stages nothing keeps the sessions, or drops the previous one. */
  lemma PhasesInStep(ep: Endpoint, ep': Endpoint, out: Channel, in_: Channel)
    requires InStep(ep, out, in_) && ep'.crypto.Tcp?
    requires ep'.crypto.tcp.newest == ep.crypto.tcp.newest
    requires ep'.crypto.tcp.previous == ep.crypto.tcp.previous || ep'.crypto.tcp.previous == None
    ensures InStep(ep', out, in_)
  {
  }

  lemma PhasesKeepSessions(ep: Endpoint, epoch: uint16)
    requires ep.crypto.Tcp?
    ensures ObservePeer(ep, epoch).crypto.Tcp? && ActivateSend(ep, epoch).crypto.Tcp?
    ensures var t, o, a := ep.crypto.tcp, ObservePeer(ep, epoch).crypto.tcp, ActivateSend(ep, epoch).crypto.tcp;
            && o.newest == t.newest && (o.previous == t.previous || o.previous == None)
            && a.newest == t.newest && (a.previous == t.previous || a.previous == None)
  {
  }

  /** A new epoch starts both counters at zero, and nothing of that epoch is on the wire yet. */
  lemma StageInStep(ep: Endpoint, ep': Endpoint, ks: seq<KeyPair>, isServer: bool, keys: KeyPair, out: Channel, in_: Channel)
    requires TcpShaped(ep, ks, isServer) && InStep(ep, out, in_)
    requires StartRekey(ep, keys).0.Ok? && ep' == StartRekey(ep, keys).1
    requires AllAtMost(out.sent, |ks| - 1) && AllAtMost(in_.sent[..in_.got], |ks| - 1)
    ensures InStep(ep', out, in_)
  {
    CountNone(out.sent, |ks|);
    CountNone(in_.sent[..in_.got], |ks|);
  }
}
