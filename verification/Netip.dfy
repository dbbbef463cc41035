/** IP addresses and prefixes, as far as the session index and address allocation use them. */
module Netip {
  import opened Basics
  import opened Bits

  const V4_BITS: nat := 32
  const V6_BITS: nat := 128

  type uint128 = x: int | 0 <= x < 0x1_0000_0000_0000_0000_0000_0000_0000_0000

  /** The zero value of an address is no address. */
  datatype Addr = NoAddr | V4(v4: uint32) | V6(v6: uint128)

  function BitLen(a: Addr): (result: nat)
  {
    match a
    case NoAddr => 0
    case V4(_) => V4_BITS
    case V6(_) => V6_BITS
  }

  function Value(a: Addr): (result: nat)
  {
    match a
    case NoAddr => 0
    case V4(v) => v
    case V6(v) => v
  }

  /** An IPv4-mapped IPv6 address as the IPv4 address it maps; any other address as it is. */
  function Unmap(a: Addr): (result: Addr)
  {
    if a.V6? && a.v6 / 0x1_0000_0000 == 0xFFFF then V4(a.v6 % 0x1_0000_0000) else a
  }

  /** The address of a with its IPv4-mapped form removed: V4(v) for V4(v) and for ::ffff:v, any other address itself. */
  lemma UnmapExactly(a: Addr, v: uint32)
    ensures Unmap(a) == V4(v) <==> a == V4(v) || a == V6(0xFFFF_0000_0000 + v)
    ensures Unmap(a) == a <==> !(a.V6? && 0xFFFF_0000_0000 <= a.v6 < 0x1_0000_0000_0000)
  {
  }

  /** bits is -1 in a prefix that is not valid. */
  datatype Prefix = Prefix(addr: Addr, bits: int)

  function PrefixFrom(a: Addr, bits: int): (result: Prefix)
  {
    Prefix(a, if a != NoAddr && 0 <= bits <= BitLen(a) then bits else -1)
  }

  predicate IsValid(p: Prefix)
  {
    p.addr != NoAddr && 0 <= p.bits <= BitLen(p.addr)
  }

  predicate IsSingleIP(p: Prefix)
  {
    IsValid(p) && p.bits == BitLen(p.addr)
  }

  /** The network part of an address under a mask of that many bits. */
  function Network(a: Addr, bits: nat): (result: nat)
    requires bits <= BitLen(a)
  {
    Shr(Value(a), BitLen(a) - bits)
  }

  predicate Contains(p: Prefix, a: Addr)
  {
    IsValid(p) && BitLen(p.addr) == BitLen(a) && Network(p.addr, p.bits) == Network(a, p.bits)
  }

  predicate Overlaps(p: Prefix, q: Prefix)
  {
    && IsValid(p) && IsValid(q) && BitLen(p.addr) == BitLen(q.addr)
    && var bits := Min(p.bits, q.bits);
       Network(p.addr, bits) == Network(q.addr, bits)
  }

  /** A prefix whose address has no bits outside the mask. */
  predicate Masked(p: Prefix)
  {
    IsValid(p) && Value(p.addr) == Shl(Network(p.addr, p.bits), BitLen(p.addr) - p.bits)
  }
}
