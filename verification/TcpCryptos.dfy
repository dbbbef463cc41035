/**
 * The TCP back end as the program keeps it: sessions with lockstep counters, and a crypto
 * object whose send session is one of its two receive sessions, by reference.
 */
module TcpCryptos {
  import opened Basics
  import opened Epochs
  import opened Nonces

  class Session {
    const epoch: uint16
    const sendKey: Bytes
    const recvKey: Bytes
    const sendNonce: Nonce
    const recvNonce: Nonce
    var zeroized: bool

    function Repr(): (result: set<object>) { {this, sendNonce, recvNonce} }

    ghost predicate Valid()
      reads Repr()
    {
      sendNonce != recvNonce && (!zeroized ==> sendNonce.epoch == epoch && recvNonce.epoch == epoch)
    }

    ghost function Model(): (result: TcpSession)
      reads Repr()
    {
      TcpSession(epoch, sendKey, recvKey, sendNonce.Value(), recvNonce.Value())
    }

    constructor (epoch: uint16, sendKey: Bytes, recvKey: Bytes)
      ensures Valid() && fresh(Repr()) && !zeroized
      ensures this.epoch == epoch && Model() == TcpSession(epoch, sendKey, recvKey, 0, 0)
    {
      this.epoch, this.sendKey, this.recvKey, zeroized := epoch, sendKey, recvKey, false;
      sendNonce := new Nonce(epoch);
      recvNonce := new Nonce(epoch);
    }

    method Encrypt(text: Plaintext) returns (f: Option<TcpFrame>, header: Bytes)
      requires Valid() && !zeroized
      modifies sendNonce
      ensures Valid()
      ensures f == if old(Model()).sent >= LAST_COUNTER then None
                   else Some(TcpFrame(epoch, old(Model()).sent + 1, sendKey, text))
      ensures Model() == old(Model()).(sent := if f.Some? then f.value.number else old(Model()).sent)
      ensures f.Some? ==> header == NonceBytes(f.value.number, epoch)
    {
      var ok := sendNonce.Increment();
      if !ok {
        return None, [];
      }
      header := sendNonce.Encode();
      f := Some(TcpFrame(epoch, sendNonce.Value(), sendKey, text));
    }

    /** Opens with the nonce after the last one received, and commits it only on success. */
    method Decrypt(f: TcpFrame) returns (text: Option<Plaintext>)
      requires Valid() && !zeroized && f.number <= LAST_COUNTER
      modifies recvNonce
      ensures Valid()
      ensures text == if f.epoch == epoch && old(Model()).received < LAST_COUNTER && f.number == old(Model()).received + 1 && f.key == recvKey
                      then Some(f.text) else None
      ensures Model() == old(Model()).(received := if text.Some? then f.number else old(Model()).received)
    {
      var expected := recvNonce.PeekEncode();
      if expected.None? {
        return None;
      }
      if NonceBytes(f.number, f.epoch) != expected.value || f.key != recvKey {
        return None;
      }
      NonceInjective(f.number, f.epoch, recvNonce.Value() + 1, epoch);
      var _ := recvNonce.Increment();
      text := Some(f.text);
    }

    method Zeroize()
      requires Valid()
      modifies Repr()
      ensures Valid() && zeroized
    {
      zeroized := true;
      sendNonce.Zeroize();
      recvNonce.Zeroize();
    }
  }

  class Crypto {
    const isServer: bool
    var recvNewest: Session
    var recvPrevious: Session?
    var send: Session
    var epochCounter: uint16

    ghost function Repr(): (result: set<object>)
      reads this
    {
      {this} + recvNewest.Repr() + if recvPrevious == null then {} else recvPrevious.Repr()
    }

    /** Both receive sessions are live and apart; the send session is one of them. */
    ghost predicate Valid()
      reads this, Repr()
    {
      && recvNewest.Valid() && !recvNewest.zeroized && this !in recvNewest.Repr()
      && (recvPrevious != null ==>
            && recvPrevious.Valid() && !recvPrevious.zeroized && this !in recvPrevious.Repr()
            && recvPrevious.Repr() !! recvNewest.Repr())
      && (send == recvNewest || (recvPrevious != null && send == recvPrevious))
    }

    ghost function Model(): (result: TcpCrypto)
      reads this, Repr()
    {
      TcpCrypto(recvNewest.Model(), if recvPrevious == null then None else Some(recvPrevious.Model()),
                send == recvNewest, epochCounter, isServer)
    }

    constructor (keys: KeyPair, isServer: bool)
      ensures Valid() && fresh(Repr())
      ensures Model() == NewTcp(keys, isServer)
    {
      var initial := new Session(0, SendKey(keys, isServer), RecvKey(keys, isServer));
      this.isServer, recvNewest, recvPrevious, send, epochCounter := isServer, initial, null, initial, 0;
    }

    /** The frame goes out behind its epoch in two bytes; its nonce is not sent. */
    method Encrypt(text: Plaintext) returns (f: Option<TcpFrame>, prefix: Bytes)
      requires Valid()
      modifies Repr()
      ensures Valid() && Repr() == old(Repr())
      ensures (f, Model()) == TcpEncrypt(old(Model()), text)
      ensures f.Some? ==> f.value.number <= LAST_COUNTER && |prefix| == 2 && Decoded(prefix) == f.value.epoch
    {
      var nonce;
      f, nonce := send.Encrypt(text);
      prefix := BigEndian(send.epoch, 2);
      Bounds();
      DecodeBigEndian(send.epoch, 2);
    }

    /** The receive session of an epoch, newest first. */
    method ReceiveSessionForEpoch(epoch: uint16) returns (session: Session?)
      ensures session == if epoch == recvNewest.epoch then recvNewest
                         else if recvPrevious != null && epoch == recvPrevious.epoch then recvPrevious else null
    {
      if epoch == recvNewest.epoch {
        return recvNewest;
      }
      if recvPrevious != null && epoch == recvPrevious.epoch {
        return recvPrevious;
      }
      session := null;
    }

    /** Opens in the session of the epoch the prefix names; a prefix of another epoch is refused. */
    method Decrypt(prefix: Bytes, f: TcpFrame) returns (text: Option<Plaintext>)
      requires Valid() && f.number <= LAST_COUNTER
      modifies Repr()
      ensures Valid() && Repr() == old(Repr())
      ensures (text, Model()) == if |prefix| == 2 && Decoded(prefix) == f.epoch then TcpDecrypt(old(Model()), f)
                                 else (None, old(Model()))
    {
      if |prefix| != 2 {
        return None;
      }
      Bounds();
      DecodedBound(prefix);
      var session := ReceiveSessionForEpoch(Decoded(prefix));
      if session == null {
        return None;
      }
      text := session.Decrypt(f);
    }

    /** The newest session becomes the previous one, which goes on sending. */
    method StageEpoch(keys: KeyPair) returns (r: Result<uint16, Error>)
      requires Valid()
      modifies this
      ensures Valid() && fresh(Repr() - old(Repr()))
      ensures (r, Model()) == TcpStage(old(Model()), keys)
    {
      if recvPrevious != null {
        return Err(PreviousNotRetired);
      }
      if epochCounter >= MAX_EPOCH {
        return Err(EpochExhausted);
      }
      epochCounter := epochCounter + 1;
      var newest := new Session(epochCounter, SendKey(keys, isServer), RecvKey(keys, isServer));
      recvPrevious, recvNewest := recvNewest, newest;
      r := Ok(epochCounter);
    }

    method PromoteSendEpoch(epoch: uint16)
      requires Valid()
      modifies this
      ensures Valid() && Repr() == old(Repr())
      ensures Model() == TcpPromote(old(Model()), epoch)
    {
      if recvNewest.epoch == epoch {
        send := recvNewest;
      }
    }

    /** Clears the previous session once the newest one sends. */
    method RetirePreviousEpoch() returns (ok: bool)
      requires Valid()
      modifies Repr()
      ensures Valid() && Repr() <= old(Repr())
      ensures (ok, Model()) == TcpRetire(old(Model()))
      ensures ok ==> old(recvPrevious).zeroized && !send.zeroized
    {
      if recvPrevious != null && send == recvNewest {
        recvPrevious.Zeroize();
        recvPrevious := null;
        return true;
      }
      ok := false;
    }
  }
}
