/** Server and client addresses inside a subnet. */
module Addressing {
  import opened Basics
  import opened Bits
  import opened Netip

  type int64 = x: int | -0x8000_0000_0000_0000 <= x < 0x8000_0000_0000_0000

  const WORD32: nat := 0x1_0000_0000
  const WORD64: nat := 0x1_0000_0000_0000_0000

  datatype AddressError = InvalidSubnet | PrefixTooLarge | CounterOutOfRange | NetworkOrBroadcast

  /** The first usable address; the low word wraps around silently. */
  function AllocateServerIP(subnet: Prefix): (result: Result<Addr, AddressError>)
  {
    if !IsValid(subnet) then Err(InvalidSubnet)
    else Ok(Offset(subnet.addr, 1))
  }

  /** An address plus an offset: 32-bit arithmetic for IPv4, on the low 64 bits for IPv6. */
  function Offset(a: Addr, offset: nat): (result: Addr)
    requires a != NoAddr
  {
    match a
    case V4(v) => V4((v + offset) % WORD32)
    case V6(v) => V6(v / WORD64 * WORD64 + (v % WORD64 + offset) % WORD64)
  }

  /** The address of the client with a 1-based counter. */
  function AllocateClientIP(subnet: Prefix, clientCounter: int64): (result: Result<Addr, AddressError>)
  {
    if !IsValid(subnet) then Err(InvalidSubnet)
    else if subnet.addr.V4? then AllocateClientIPv4(subnet, clientCounter)
    else AllocateClientIPv6(subnet, clientCounter)
  }

  function Total(subnet: Prefix): (result: nat)
    requires IsValid(subnet)
  {
    Pow2(BitLen(subnet.addr) - subnet.bits)
  }

  function AllocateClientIPv4(subnet: Prefix, clientCounter: int64): (result: Result<Addr, AddressError>)
    requires IsValid(subnet) && subnet.addr.V4?
  {
    if subnet.bits < 2 then Err(PrefixTooLarge)
    else if clientCounter < 1 || clientCounter >= Total(subnet) - 2 then Err(CounterOutOfRange)
    else
      var client := Offset(subnet.addr, 1 + clientCounter);
      if client == subnet.addr || client == Offset(subnet.addr, Total(subnet) - 1) then Err(NetworkOrBroadcast)
      else Ok(client)
  }

  function AllocateClientIPv6(subnet: Prefix, clientCounter: int64): (result: Result<Addr, AddressError>)
    requires IsValid(subnet) && subnet.addr.V6?
  {
    if clientCounter < 1 then Err(CounterOutOfRange)
    else
      var client := Offset(subnet.addr, clientCounter + 1);
      if !Contains(subnet, client) then Err(CounterOutOfRange) else Ok(client)
  }

  // ---- prefixes and addresses ----

  lemma {:induction false} NetworkDiv(a: Addr, bits: nat)
    requires bits <= BitLen(a)
    ensures Network(a, bits) == Value(a) / Pow2(BitLen(a) - bits)
  {
    ShrDiv(Value(a), BitLen(a) - bits);
  }

  /** Equal network parts have equal shorter network parts. */
  lemma ShorterNetwork(a: Addr, b: Addr, bits: nat, fewer: nat)
    requires fewer <= bits <= BitLen(a) == BitLen(b)
    requires Network(a, bits) == Network(b, bits)
    ensures Network(a, fewer) == Network(b, fewer)
  {
    ShrTwice(Value(a), BitLen(a) - bits, bits - fewer);
    ShrTwice(Value(b), BitLen(a) - bits, bits - fewer);
  }

  lemma {:induction false} ShrTwice(x: nat, m: nat, n: nat)
    ensures Shr(x, m + n) == Shr(Shr(x, m), n)
  {
    if m > 0 { ShrTwice(x / 2, m - 1, n); }
  }

  /** Two prefixes that share an address overlap. */
  lemma SharedMeansOverlap(p: Prefix, q: Prefix, a: Addr)
    requires Contains(p, a) && Contains(q, a)
    ensures Overlaps(p, q)
  {
    var bits := Min(p.bits, q.bits);
    ShorterNetwork(p.addr, a, p.bits, bits);
    ShorterNetwork(q.addr, a, q.bits, bits);
  }

  /** Prefixes overlap exactly when they have an address in common. */
  lemma OverlapsIff(p: Prefix, q: Prefix)
    ensures Overlaps(p, q) <==> exists a :: Contains(p, a) && Contains(q, a)
  {
    if Overlaps(p, q) {
      assert p.bits <= q.bits ==> Contains(p, q.addr) && Contains(q, q.addr);
      assert q.bits <= p.bits ==> Contains(p, p.addr) && Contains(q, p.addr);
    } else if a :| Contains(p, a) && Contains(q, a) {
      SharedMeansOverlap(p, q, a);
    }
  }

  /** A prefix holds exactly the addresses of its family in its block of 2^(length - bits) addresses. */
  lemma ContainsBlock(p: Prefix, a: Addr)
    ensures Contains(p, a) <==> IsValid(p) && BitLen(p.addr) == BitLen(a) && Value(a) / Total(p) == Value(p.addr) / Total(p)
  {
    if IsValid(p) && BitLen(p.addr) == BitLen(a) {
      NetworkDiv(p.addr, p.bits);
      NetworkDiv(a, p.bits);
    }
  }

  // ---- inside one subnet ----

  /** Different offsets below the word size give different addresses. */
  lemma OffsetInjective(a: Addr, m: nat, n: nat)
    requires a != NoAddr && m < n
    requires n < (if a.V4? then WORD32 else WORD64)
    ensures Offset(a, m) != Offset(a, n)
  {
    var w := if a.V4? then WORD32 else WORD64;
    var low := if a.V4? then a.v4 else a.v6 % WORD64;
    ModDiffers(low, m, n, w);
  }

  lemma ModDiffers(low: nat, m: nat, n: nat, w: nat)
    requires 0 < w && low < w && m < n < w
    ensures (low + m) % w != (low + n) % w
  {
    ModStep(low, m, w);
    ModStep(low, n, w);
  }

  lemma ModStep(low: nat, m: nat, w: nat)
    requires low < w && m < w
    ensures (low + m) % w == if low + m < w then low + m else low + m - w
  {
    if low + m >= w { DivModUnique(low + m, w, 1, low + m - w); } else { DivModUnique(low + m, w, 0, low + m); }
  }

  /** Two clients of one subnet never share an address, and none has the server's. */
  lemma OneSubnet(subnet: Prefix, m: int64, n: int64)
    requires AllocateClientIP(subnet, m).Ok?
    ensures AllocateClientIP(subnet, m).value != AllocateServerIP(subnet).value
    ensures AllocateClientIP(subnet, n).Ok? && m != n ==> AllocateClientIP(subnet, m).value != AllocateClientIP(subnet, n).value
  {
    if subnet.addr.V4? { TotalBound(subnet); }
    OffsetInjective(subnet.addr, 1, m + 1);
    if AllocateClientIP(subnet, n).Ok? {
      if m < n { OffsetInjective(subnet.addr, m + 1, n + 1); }
      if n < m { OffsetInjective(subnet.addr, n + 1, m + 1); }
    }
  }

  lemma Pow32()
    ensures Pow2(V4_BITS) == WORD32
  {
    var two, four, eight, sixteen := 2, 4, 8, 16;
    assert Pow2(2) == 4;
    PowAdd(two, two);
    PowAdd(four, four);
    PowAdd(eight, eight);
    PowAdd(sixteen, sixteen);
  }

  lemma TotalBound(subnet: Prefix)
    requires IsValid(subnet) && subnet.addr.V4?
    ensures 0 < Total(subnet) <= WORD32
    ensures subnet.bits >= 2 ==> 4 * Total(subnet) <= WORD32
  {
    Pow32();
    PowerSplit(V4_BITS - subnet.bits, subnet.bits);
  }

  lemma PowerSplit(h: nat, bits: nat)
    ensures 0 < Pow2(h) <= Pow2(h + bits)
    ensures bits >= 2 ==> 4 * Pow2(h) <= Pow2(h + bits)
  {
    PowMonotone(h, h + bits);
    if bits >= 2 {
      PowAdd(h, 2);
      PowMonotone(h + 2, h + bits);
      assert Pow2(2) == 4;
    }
  }

  /** A number inside the q-th block, which ends within the whole range. */
  lemma InBlock(x: nat, q: nat, r: nat, block: nat, all: nat)
    requires r < block && x == block * q + r < all
    ensures x % all / block == q
  {
    DivModUnique(x, all, 0, x);
    DivModUnique(x, block, q, r);
  }

  /** Past the last block the sum wraps around into the first. */
  lemma WrapsToFirst(x: nat, k: nat, block: nat, all: nat)
    requires k < block <= all && x == all + k
    ensures x % all / block == 0
  {
    DivModUnique(x, all, 1, k);
    DivModUnique(k, block, 0, k);
  }

  /** Adding less than a block moves to another block exactly when the offset runs over its end. */
  lemma BlockMoves(base: nat, offset: nat, block: nat, blocks: nat, all: nat)
    requires block > 0 && blocks >= 2 && all == block * blocks && base < all && offset < block
    ensures (base + offset) % all / block == base / block <==> base % block + offset < block
  {
    DivMod(base, block);
    QuotientBound(base, block, blocks, all);
    MovesFrom(base / block, base % block, offset, block, blocks, all);
  }

  lemma DivMod(x: nat, d: nat)
    requires d > 0
    ensures x == d * (x / d) + x % d
  {
  }

  lemma MovesFrom(q: nat, r: nat, offset: nat, block: nat, blocks: nat, all: nat)
    requires r < block && offset < block && q < blocks && blocks >= 2 && all == block * blocks
    ensures (block * q + r + offset) % all / block == q <==> r + offset < block
  {
    var at, k := block * q, r + offset;
    BlockEnd(block, q, blocks, all);
    NextBlock(block, q);
    if k < block {
      InBlock(at + k, q, k, block, all);
    } else if q + 1 < blocks {
      BlockEnd(block, q + 1, blocks, all);
      InBlock(at + k, q + 1, k - block, block, all);
    } else {
      WrapsToFirst(at + k, k - block, block, all);
    }
  }

  lemma NextBlock(block: nat, q: nat)
    ensures block * (q + 1) == block * q + block
  {
  }

  lemma BlockEnd(block: nat, q: nat, blocks: nat, all: nat)
    requires q < blocks && all == block * blocks
    ensures block * q + block <= all
  {
    assert block * (q + 1) <= block * blocks;
  }

  lemma TimesMonotone(block: nat, q: nat, r: nat)
    requires q <= r
    ensures block * q <= block * r
  {
  }

  lemma QuotientBound(base: nat, block: nat, blocks: nat, all: nat)
    requires block > 0 && all == block * blocks && base < all
    ensures base / block < blocks
  {
    DivMod(base, block);
    if blocks <= base / block { TimesMonotone(block, blocks, base / block); }
  }

  /** An IPv4 client address lies in its subnet exactly when the subnet's own address leaves it room. */
  lemma V4InSubnet(subnet: Prefix, counter: int64)
    requires IsValid(subnet) && subnet.addr.V4? && AllocateClientIP(subnet, counter).Ok?
    ensures Contains(subnet, AllocateClientIP(subnet, counter).value)
            <==> Value(subnet.addr) % Total(subnet) + 1 + counter < Total(subnet)
  {
    var client, t := AllocateClientIP(subnet, counter).value, Total(subnet);
    Pow32();
    PowAdd(V4_BITS - subnet.bits, subnet.bits);
    PowerSplit(0, subnet.bits);
    assert Pow2(subnet.bits) >= 4 by { PowMonotone(2, subnet.bits); assert Pow2(2) == 4; }
    NetworkDiv(subnet.addr, subnet.bits);
    NetworkDiv(client, subnet.bits);
    BlockMoves(subnet.addr.v4, 1 + counter, t, Pow2(subnet.bits), WORD32);
  }

  lemma NoRemainder(x: nat, q: nat, d: nat)
    requires d > 0 && x == q * d
    ensures x % d == 0
  {
    DivModUnique(x, d, q, 0);
  }

  lemma MaskedMultiple(subnet: Prefix)
    requires Masked(subnet)
    ensures IsValid(subnet) && Total(subnet) > 0 && Value(subnet.addr) % Total(subnet) == 0
  {
    hide Pow2, Shl, Shr, Network;
    var network := Network(subnet.addr, subnet.bits);
    ShlMul(network, BitLen(subnet.addr) - subnet.bits);
    NoRemainder(Value(subnet.addr), network, Total(subnet));
  }

  /** The subnet's own address leaves room for a client's offset; over IPv6 the allocator sees to it. */
  predicate Room(subnet: Prefix, counter: int64)
    requires IsValid(subnet)
  {
    subnet.addr.V4? ==> Value(subnet.addr) % Total(subnet) + 1 + counter < Total(subnet)
  }

  /** An allocated address lies in its subnet exactly when there is room for it. */
  lemma InSubnet(subnet: Prefix, counter: int64)
    requires AllocateClientIP(subnet, counter).Ok?
    ensures IsValid(subnet)
    ensures Contains(subnet, AllocateClientIP(subnet, counter).value) <==> Room(subnet, counter)
  {
    if subnet.addr.V4? { V4InSubnet(subnet, counter); }
  }

  /** A masked subnet has room for every address it allocates. */
  lemma MaskedRoom(subnet: Prefix, counter: int64)
    requires Masked(subnet) && AllocateClientIP(subnet, counter).Ok?
    ensures Room(subnet, counter)
  {
    hide Pow2, Shl, Shr, Network, Masked;
    MaskedMultiple(subnet);
  }

  // ---- which clients get an address, and which one ----

  /** An IPv4 subnet of at most 2^30 addresses serves exactly the counters 1 to total - 3, the counter-th after the server's. */
  lemma V4Allocates(subnet: Prefix, counter: int64)
    requires IsValid(subnet) && subnet.addr.V4?
    ensures AllocateClientIP(subnet, counter).Ok? <==> subnet.bits >= 2 && 1 <= counter <= Total(subnet) - 3
    ensures AllocateClientIP(subnet, counter).Ok? ==>
              AllocateClientIP(subnet, counter) == Ok(V4((subnet.addr.v4 + 1 + counter) % WORD32))
    ensures AllocateServerIP(subnet) == Ok(V4((subnet.addr.v4 + 1) % WORD32))
  {
    hide Pow2, Total;
    TotalBound(subnet);
    if subnet.bits >= 2 && 1 <= counter <= Total(subnet) - 3 {
      OffsetInjective(subnet.addr, 0, 1 + counter);
      OffsetInjective(subnet.addr, 1 + counter, Total(subnet) - 1);
    }
  }

  /** Of the multiples of t below a number, the last is its own quotient's. */
  lemma SameBlock(base: nat, t: nat, x: nat)
    requires t > 0 && base % t == 0
    ensures x / t == base / t <==> base <= x < base + t
  {
    DivMod(base, t);
    DivMod(x, t);
    var q, k := base / t, x / t;
    if k < q { TimesMonotone(t, k + 1, q); NextBlock(t, k); }
    if q < k { TimesMonotone(t, q + 1, k); NextBlock(t, q); }
  }

  /** Either the word divides the block or the block divides the word. */
  lemma BlockOrWord(subnet: Prefix) returns (m: nat)
    requires IsValid(subnet) && subnet.addr.V6?
    ensures m > 0 && (Total(subnet) == WORD64 * m || WORD64 == Total(subnet) * m)
  {
    PowRadix();
    if subnet.bits <= 64 {
      PowAdd(64, 64 - subnet.bits);
      m := Pow2(64 - subnet.bits);
    } else {
      PowAdd(V6_BITS - subnet.bits, subnet.bits - 64);
      m := Pow2(subnet.bits - 64);
    }
  }

  lemma Multiple(v: nat, d: nat, m: nat)
    requires d > 0 && m > 0 && v % (d * m) == 0 && d * m > 0
    ensures v % d == 0
  {
    DivMod(v, d * m);
    var q := v / (d * m);
    assert d * (m * q) == d * m * q;
    DivModUnique(v, d, m * q, 0);
  }

  /** A multiple of the block within a word leaves the block room in that word. */
  lemma LowRoom(low: nat, block: nat, m: nat, word: nat)
    requires block > 0 && word == block * m && low < word && low % block == 0
    ensures low + block <= word
  {
    DivMod(low, block);
    QuotientBound(low, block, m, word);
    BlockEnd(block, low / block, m, word);
  }

  lemma LowMultiple(v: nat, block: nat, m: nat, word: nat)
    requires block > 0 && word == block * m && word > 0 && v % block == 0
    ensures v % word % block == 0
  {
    DivMod(v, word);
    DivMod(v, block);
    var k: int := v / block - m * (v / word);
    assert v % word == block * k by { Distributes(block, v / block, m, v / word); }
    if k < 0 { NegativeProduct(block, k); }
    DivModUnique(v % word, block, k, 0);
  }

  lemma Distributes(block: nat, a: nat, m: nat, q: nat)
    ensures block * (a - m * q) == block * a - block * m * q
  {
  }

  lemma NegativeProduct(block: nat, k: int)
    requires block > 0 && k < 0
    ensures block * k < 0
  {
  }

  /** The low word leaves the block room: an offset wraps around only past the block's end. */
  lemma NarrowBlock(base: nat, low: nat, offset: nat, block: nat, word: nat)
    requires 0 < block && low + block <= word && low < word && offset < word && (base + low) % block == 0
    ensures var x := base + (low + offset) % word;
            && (x / block == (base + low) / block <==> offset < block)
            && (offset < block ==> x == base + low + offset)
  {
    ModStep(low, offset, word);
    SameBlock(base + low, block, base + (low + offset) % word);
  }

  /** A block of whole words begins at a word: no offset below the word wraps around or leaves it. */
  lemma WideBlock(base: nat, offset: nat, block: nat, word: nat)
    requires 0 < word <= block && offset < word && base % block == 0
    ensures var x := base + offset % word;
            x / block == base / block && x == base + offset
  {
    ModStep(0, offset, word);
    SameBlock(base, block, base + offset);
  }

  /** Adding an offset below the word to a number's low word stays in a block the number begins exactly when the offset does. */
  lemma StaysInBlock(base: nat, low: nat, offset: nat, block: nat, word: nat, m: nat)
    requires block > 0 && word > 0 && m > 0 && offset < word && low < word
    requires (base + low) % block == 0 && (base + low) % word == low
    requires block == word * m || word == block * m
    ensures var x := base + (low + offset) % word;
            && (x / block == (base + low) / block <==> offset < block)
            && (offset < block ==> x == base + low + offset)
  {
    if block == word * m {
      Multiple(base + low, word, m);
      AtLeast(word, m);
      WideBlock(base, offset, block, word);
    } else {
      LowMultiple(base + low, block, m, word);
      LowRoom(low, block, m, word);
      NarrowBlock(base, low, offset, block, word);
    }
  }

  lemma AtLeast(word: nat, m: nat)
    requires m > 0
    ensures word <= word * m
  {
  }

  /** A masked IPv6 subnet serves exactly the counters from 1 that leave it room after the server, the counter-th after it. */
  lemma V6Allocates(subnet: Prefix, counter: int64)
    requires Masked(subnet) && subnet.addr.V6?
    ensures IsValid(subnet)
    ensures AllocateClientIP(subnet, counter).Ok? <==> 1 <= counter && counter + 1 < Total(subnet)
    ensures AllocateClientIP(subnet, counter).Ok? ==> Value(AllocateClientIP(subnet, counter).value) == Value(subnet.addr) + 1 + counter
    ensures Total(subnet) > 1 ==> AllocateServerIP(subnet).Ok? && Value(AllocateServerIP(subnet).value) == Value(subnet.addr) + 1
  {
    hide Pow2, Shl, Shr, Network, Masked, Contains;
    MaskedMultiple(subnet);
    var m := BlockOrWord(subnet);
    var base, low := subnet.addr.v6 / WORD64 * WORD64, subnet.addr.v6 % WORD64;
    StaysInBlock(base, low, 1, Total(subnet), WORD64, m);
    if counter >= 1 {
      StaysInBlock(base, low, counter + 1, Total(subnet), WORD64, m);
      ContainsBlock(subnet, Offset(subnet.addr, counter + 1));
    }
  }
}
