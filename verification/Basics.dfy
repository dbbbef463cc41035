/** Machine integers, byte strings and the outcome types shared by every module. */
module Basics {

  datatype Option<+T> = None | Some(value: T)

  datatype Result<+T, +E> = Ok(value: T) | Err(error: E)

  type byte = x: int | 0 <= x < 0x100
  type uint16 = x: int | 0 <= x < 0x1_0000
  type uint32 = x: int | 0 <= x < 0x1_0000_0000
  type uint64 = x: int | 0 <= x < 0x1_0000_0000_0000_0000

  type Bytes = seq<byte>

  /** Length of a ChaCha20-Poly1305 key, section 2.8 of RFC 8439. */
  const KEY_SIZE: nat := 32

  /** The highest epoch one session may allocate. */
  const MAX_EPOCH: uint16 := 65000

  /** Length of the buffer a rekey init is built in. */
  const MTU: nat := 1500

  type Key = k: Bytes | |k| == KEY_SIZE witness seq(KEY_SIZE, _ => 0)

  /** Both directional keys of one epoch, in canonical (client, server) order. */
  datatype KeyPair = KeyPair(c2s: Bytes, s2c: Bytes)

  function Min(a: nat, b: nat): (result: nat) { if a < b then a else b }

  function Max(a: nat, b: nat): (result: nat) { if a < b then b else a }
}
