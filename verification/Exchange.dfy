/**
 * The key exchange of one rekey, version 1 (X25519 and HKDF) or version 2 (a Noise IK
 * rehandshake). The primitives are parameters; Lawful states all that is assumed of them.
 */
module Exchange {
  import opened Basics

  /** Stands for one draw from the random source: a private or ephemeral key. */
  type Seed = nat

  datatype Label = LabelC2S | LabelS2C

  datatype Response = Response(body: Bytes, keys: KeyPair)

  datatype Suite =
    | V1(publicKey: Seed -> Bytes,
         shared: (Seed, Bytes) -> Option<Bytes>,
         derive: (Bytes, Bytes, Label) -> Key)
    | V2(prologue: KeyPair -> Bytes,
         start: (Seed, Bytes) -> Bytes,
         respond: (Seed, Bytes, Bytes) -> Option<Response>,
         finish: (Seed, Bytes, Bytes) -> Option<KeyPair>)

  predicate FullSize(keys: KeyPair)
  {
    |keys.c2s| == KEY_SIZE && |keys.s2c| == KEY_SIZE
  }

  /**
   * Diffie-Hellman commutes; a Noise IK finish that matches its respond (section 7.5 of the
   * Noise Protocol Framework, revision 34) yields the responder's keys.
   */
  ghost predicate Lawful(suite: Suite)
  {
    match suite
    case V1(publicKey, shared, _) =>
      && (forall a :: |publicKey(a)| == KEY_SIZE)
      && (forall a, b :: shared(a, publicKey(b)) == shared(b, publicKey(a)))
    case V2(_, start, respond, finish) =>
      && (forall r, p :: |start(r, p)| > 0)
      && (forall r, q, p ::
            respond(q, p, start(r, p)).Some? ==>
            && |respond(q, p, start(r, p)).value.body| > 0
            && FullSize(respond(q, p, start(r, p)).value.keys)
            && finish(r, p, respond(q, p, start(r, p)).value.body) == Some(respond(q, p, start(r, p)).value.keys))
  }

  function DerivePair(suite: Suite, secret: Bytes, current: KeyPair): (keys: KeyPair)
    requires suite.V1?
    ensures FullSize(keys)
  {
    KeyPair(suite.derive(secret, current.c2s, LabelC2S), suite.derive(secret, current.s2c, LabelS2C))
  }

  /** Body of the init packet built from a fresh draw under the current keys. */
  function InitBody(suite: Suite, seed: Seed, current: KeyPair): (result: Bytes)
  {
    match suite
    case V1(publicKey, _, _) => publicKey(seed)
    case V2(prologue, start, _, _) => start(seed, prologue(current))
  }

  /** The server's answer to an init body. */
  function Respond(suite: Suite, seed: Seed, current: KeyPair, body: Bytes): (result: Option<Response>)
  {
    match suite
    case V1(publicKey, shared, _) =>
      (match shared(seed, body)
       case None => None
       case Some(secret) => Some(Response(publicKey(seed), DerivePair(suite, secret, current))))
    case V2(prologue, _, respond, _) => respond(seed, prologue(current), body)
  }

  /** The client's keys: version 1 mixes in its keys of now, version 2 those it started from. */
  function Finish(suite: Suite, seed: Seed, startKeys: KeyPair, current: KeyPair, body: Bytes): (result: Option<KeyPair>)
  {
    match suite
    case V1(_, shared, _) =>
      (match shared(seed, body)
       case None => None
       case Some(secret) => Some(DerivePair(suite, secret, current)))
    case V2(prologue, _, _, finish) => finish(seed, prologue(startKeys), body)
  }

  /** Both ends of one exchange under equal current keys hold equal new keys. */
  lemma ExchangeAgrees(suite: Suite, clientSeed: Seed, serverSeed: Seed, current: KeyPair)
    requires Lawful(suite)
    ensures var answer := Respond(suite, serverSeed, current, InitBody(suite, clientSeed, current));
            answer.Some? ==>
            && FullSize(answer.value.keys)
            && (suite.V1? ==> |answer.value.body| == KEY_SIZE)
            && |answer.value.body| > 0
            && Finish(suite, clientSeed, current, current, answer.value.body) == Some(answer.value.keys)
  {
    match suite
    case V1(publicKey, shared, _) =>
      assert shared(serverSeed, publicKey(clientSeed)) == shared(clientSeed, publicKey(serverSeed));
    case V2(prologue, start, respond, _) =>
      var p := prologue(current);
      assert respond(serverSeed, p, start(clientSeed, p)) ==
             Respond(suite, serverSeed, current, InitBody(suite, clientSeed, current));
  }
}
