/** The 80-bit packet counter with its 16-bit epoch suffix. */
module Nonces {
  import opened Basics
  import Bits

  const WORD: nat := 0x1_0000_0000_0000_0000
  const LAST_COUNTER: nat := 0x1_0000 * WORD - 1

  function BigEndian(value: nat, width: nat): (b: Bytes)
    ensures |b| == width
  {
    if width == 0 then [] else BigEndian(value / 256, width - 1) + [value % 256]
  }

  function Decoded(b: Bytes): (result: nat)
  {
    if b == [] then 0 else 256 * Decoded(b[..|b| - 1]) + b[|b| - 1]
  }

  function Bound(width: nat): (r: nat)
    ensures r > 0
  {
    if width == 0 then 1 else 256 * Bound(width - 1)
  }

  lemma {:induction false} DecodeBigEndian(value: nat, width: nat)
    requires value < Bound(width)
    ensures Decoded(BigEndian(value, width)) == value
  {
    if width > 0 { DecodeBigEndian(value / 256, width - 1); }
  }

  /** The 12 bytes on the wire: counter low, counter high, epoch. */
  function Encoding(low: uint64, high: uint16, epoch: uint16): (b: Bytes)
    ensures |b| == 12
  {
    BigEndian(low, 8) + BigEndian(high, 2) + BigEndian(epoch, 2)
  }

  function CounterValue(low: uint64, high: uint16): (result: nat)
  {
    high * WORD + low
  }

  /** The nonce bytes of packet number counter of one epoch. */
  function NonceBytes(counter: nat, epoch: uint16): (b: Bytes)
    requires counter <= LAST_COUNTER
    ensures |b| == 12
  {
    Encoding(counter % WORD, counter / WORD, epoch)
  }

  lemma CounterRoundTrip(low: uint64, high: uint16)
    ensures CounterValue(low, high) <= LAST_COUNTER
    ensures CounterValue(low, high) % WORD == low && CounterValue(low, high) / WORD == high
  {
  }

  /** Byte i of an encoding is the digit of weight 256^(width - 1 - i): the most significant comes first. */
  lemma {:induction false} BigEndianDigit(value: nat, width: nat, i: nat)
    requires i < width
    ensures BigEndian(value, width)[i] == value / Bound(width - 1 - i) % 256
    decreases width
  {
    if i < width - 1 {
      BigEndianDigit(value / 256, width - 1, i);
      DivTwice(value, 256, Bound(width - 2 - i));
    }
  }

  lemma DivTwice(x: nat, a: nat, b: nat)
    requires a > 0 && b > 0
    ensures a * b > 0 && x / a / b == x / (a * b)
  {
    var q, r := x / a, x % a;
    var q', r' := q / b, q % b;
    Divided(x, a);
    Divided(q, b);
    Nested(a, b, q', r', r);
    Bits.DivModUnique(x, a * b, q', a * r' + r);
  }

  lemma Divided(x: nat, d: nat)
    requires d > 0
    ensures x == d * (x / d) + x % d
  {
  }

  lemma Nested(a: nat, b: nat, q: nat, s: nat, r: nat)
    requires s < b && r < a
    ensures 0 <= a * s + r < a * b
    ensures a * (b * q + s) + r == (a * b) * q + (a * s + r)
  {
    assert a * (s + 1) <= a * b;
  }

  /** Bytes 0 to 7 are the counter's low half, 8 and 9 its high half, 10 and 11 the epoch. */
  lemma Layout(counter: nat, epoch: uint16)
    requires counter <= LAST_COUNTER
    ensures var b := NonceBytes(counter, epoch);
            && Decoded(b[..8]) == counter % WORD
            && Decoded(b[8..10]) == counter / WORD
            && Decoded(b[10..12]) == epoch
  {
    var b := NonceBytes(counter, epoch);
    assert b[..8] == BigEndian(counter % WORD, 8);
    assert b[8..10] == BigEndian(counter / WORD, 2);
    assert b[10..12] == BigEndian(epoch, 2);
    Bounds();
    DecodeBigEndian(counter % WORD, 8);
    DecodeBigEndian(counter / WORD, 2);
    DecodeBigEndian(epoch, 2);
  }

  lemma {:induction false} DecodedBound(b: Bytes)
    ensures Decoded(b) < Bound(|b|)
  {
    if b != [] { DecodedBound(b[..|b| - 1]); }
  }

  /** Two bytes read high byte first. */
  lemma {:induction false} DecodedPair(b: Bytes)
    requires |b| == 2
    ensures var high: nat, low: nat := b[0], b[1]; Decoded(b) == 256 * high + low
  {
    assert Decoded(b[..1]) == b[0];
  }

  /** Distinct (counter, epoch) pairs have distinct nonce bytes. */
  lemma NonceInjective(c1: nat, e1: uint16, c2: nat, e2: uint16)
    requires c1 <= LAST_COUNTER && c2 <= LAST_COUNTER
    requires NonceBytes(c1, e1) == NonceBytes(c2, e2)
    ensures c1 == c2 && e1 == e2
  {
    Layout(c1, e1);
    Layout(c2, e2);
  }

  lemma Bounds()
    ensures Bound(2) == 0x1_0000 && Bound(8) == WORD
  {
    assert Bound(4) == 256 * 256 * Bound(2);
    assert Bound(6) == 256 * 256 * Bound(4);
    assert Bound(8) == 256 * 256 * Bound(6);
  }

  class Nonce {
    var epoch: uint16
    var counterLow: uint64
    var counterHigh: uint16

    constructor (epoch: uint16)
      ensures this.epoch == epoch && Value() == 0
    {
      this.epoch := epoch;
      counterLow, counterHigh := 0, 0;
    }

    /** Number of nonces handed out so far. */
    function Value(): (v: nat)
      reads this
      ensures v <= LAST_COUNTER
    {
      CounterValue(counterLow, counterHigh)
    }

    /** Steps the counter, or refuses at the very last value. */
    method Increment() returns (ok: bool)
      modifies this
      ensures epoch == old(epoch)
      ensures ok == (old(Value()) < LAST_COUNTER)
      ensures Value() == if ok then old(Value()) + 1 else old(Value())
    {
      if counterHigh == 0xFFFF && counterLow == 0xFFFF_FFFF_FFFF_FFFF {
        return false;
      }
      if counterLow == 0xFFFF_FFFF_FFFF_FFFF {
        counterHigh := counterHigh + 1;
        counterLow := 0;
      } else {
        counterLow := counterLow + 1;
      }
      ok := true;
    }

    /** Encodes the nonce after the current one without stepping. */
    method PeekEncode() returns (b: Option<Bytes>)
      ensures b == if Value() < LAST_COUNTER then Some(NonceBytes(Value() + 1, epoch)) else None
    {
      CounterRoundTrip(counterLow, counterHigh);
      if counterHigh == 0xFFFF && counterLow == 0xFFFF_FFFF_FFFF_FFFF {
        return None;
      }
      if counterLow == 0xFFFF_FFFF_FFFF_FFFF {
        CounterRoundTrip(0, counterHigh + 1);
        b := Some(Encoding(0, counterHigh + 1, epoch));
      } else {
        CounterRoundTrip(counterLow + 1, counterHigh);
        b := Some(Encoding(counterLow + 1, counterHigh, epoch));
      }
    }

    method Encode() returns (b: Bytes)
      ensures b == NonceBytes(Value(), epoch)
    {
      CounterRoundTrip(counterLow, counterHigh);
      b := Encoding(counterLow, counterHigh, epoch);
    }
  
    method Zeroize()
      modifies this
      ensures Value() == 0 && epoch == 0
    {
      epoch, counterLow, counterHigh := 0, 0, 0;
    }
  }
}
