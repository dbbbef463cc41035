/** The replay window as the program keeps it: 64-bit words shifted in place. */
module SlidingWindows {
  import opened Basics
  import opened Bits
  import opened ReplayWindow

  /** The number that little-endian 64-bit words spell. */
  function Value(ws: seq<uint64>): (result: nat)
  {
    if ws == [] then 0 else ws[0] + RADIX * Value(ws[1..])
  }

  lemma {:induction false} ValueBound(ws: seq<uint64>)
    ensures Value(ws) < Pow2(WORD_BITS * |ws|)
  {
    if ws != [] {
      ValueBound(ws[1..]);
      var m := WORD_BITS * |ws[1..]|;
      ShlBound(Value(ws[1..]), m, WORD_BITS);
      ShlMul(Value(ws[1..]), WORD_BITS);
      PowRadix();
    }
  }

  lemma {:induction false} ValueConcat(a: seq<uint64>, b: seq<uint64>)
    ensures Value(a + b) == Value(a) + Shl(Value(b), WORD_BITS * |a|)
  {
    if a == [] {
      assert a + b == b;
    } else {
      assert (a + b)[1..] == a[1..] + b;
      ValueConcat(a[1..], b);
      ShlWord(Value(b), WORD_BITS * |a[1..]|, WORD_BITS * |a|);
    }
  }

  function ZeroWords(k: nat): (ws: seq<uint64>)
    ensures |ws| == k
  {
    seq(k, _ => 0)
  }

  lemma {:induction false} ValueZeros(k: nat)
    ensures Value(ZeroWords(k)) == 0
  {
    if k > 0 {
      assert ZeroWords(k)[1..] == ZeroWords(k - 1);
      ValueZeros(k - 1);
    }
  }

  lemma {:induction false} ValueBit(ws: seq<uint64>, d: nat)
    ensures Bit(Value(ws), d) == (d / WORD_BITS < |ws| && Bit(ws[d / WORD_BITS], d % WORD_BITS))
  {
    if ws == [] {
      ZeroBits(d);
    } else {
      WordBit(ws[0], Value(ws[1..]), d);
      if d >= WORD_BITS { ValueBit(ws[1..], d - WORD_BITS); }
    }
  }

  lemma {:induction false} BitFits(bit: nat)
    requires bit < WORD_BITS
    ensures Pow2(bit) < RADIX
  {
    PowMonotone(bit, WORD_BITS - 1);
    PowRadix();
  }

  lemma FirstWordOr(ws: seq<uint64>, bit: nat)
    requires ws != [] && bit < WORD_BITS
    ensures Or(ws[0], Pow2(bit)) < RADIX
    ensures Value(ws[0 := Or(ws[0], Pow2(bit))]) == Or(Value(ws), Shl(Pow2(bit), 0))
  {
    BitFits(bit);
    WordOr(ws[0], Value(ws[1..]), Pow2(bit), 0);
    assert ws[0 := Or(ws[0], Pow2(bit))][1..] == ws[1..];
  }

  lemma {:induction false} ValueOr(ws: seq<uint64>, word: nat, bit: nat)
    requires word < |ws| && bit < WORD_BITS
    ensures Or(ws[word], Pow2(bit)) < RADIX
    ensures Value(ws[word := Or(ws[word], Pow2(bit))]) == Or(Value(ws), Shl(Pow2(bit), WORD_BITS * word))
  {
    hide Or, Shl, Pow2;
    if word == 0 {
      FirstWordOr(ws, bit);
    } else {
      ValueOr(ws[1..], word - 1, bit);
      var ws' := ws[word := Or(ws[word], Pow2(bit))];
      assert ws'[1..] == ws[1..][word - 1 := Or(ws[word], Pow2(bit))];
      OrAbove(ws[0], Value(ws[1..]), Pow2(bit), WORD_BITS * (word - 1), WORD_BITS * word);
    }
  }

  lemma OrAbove(lo: nat, hi: nat, x: nat, d: nat, n: nat)
    requires lo < RADIX && n == d + WORD_BITS
    ensures Or(lo + RADIX * hi, Shl(x, n)) == lo + RADIX * Or(hi, Shl(x, d))
  {
    ShlWord(x, d, n);
    WordOr(lo, hi, 0, Shl(x, d));
  }

  // ---- the shift ----

  function ShiftedWord(x: uint64, b: nat): (result: uint64)
  {
    Shl(x, b) % RADIX
  }

  /** The bits a left shift by b pushes out of one word. */
  function CarryOut(x: uint64, b: nat): (result: nat)
    requires b <= WORD_BITS
  {
    Shr(x, WORD_BITS - b)
  }

  lemma SplitWord(x: uint64, b: nat)
    requires b <= WORD_BITS
    ensures ShiftedWord(x, b) == Shl(Low(x, WORD_BITS - b), b)
    ensures Shl(x, b) == ShiftedWord(x, b) + RADIX * CarryOut(x, b)
    ensures CarryOut(x, b) < Pow2(b)
  {
    PowRadix();
    LowShl(x, b, WORD_BITS - b);
    LowMod(Shl(x, b), WORD_BITS);
    ShrShl(x, b, WORD_BITS - b);
    ShrDiv(Shl(x, b), WORD_BITS);
    ShrBound(x, WORD_BITS - b, b);
  }

  lemma {:induction false} ShiftedWordFits(x: uint64, b: nat, carry: nat)
    requires b <= WORD_BITS && carry < Pow2(b)
    ensures Or(ShiftedWord(x, b), carry) == ShiftedWord(x, b) + carry < RADIX
  {
    var lo := Low(x, WORD_BITS - b);
    SplitWord(x, b);
    OrDisjoint(lo, carry, b);
    LowBound(x, WORD_BITS - b);
    ShlBound(lo, WORD_BITS - b, b);
    PowRadix();
  }

  /** Shifts words left by b places, feeding carry in at the bottom. */
  function ShiftWords(ws: seq<uint64>, b: nat, carry: nat): (r: seq<uint64>)
    requires b <= WORD_BITS && carry < Pow2(b)
    ensures |r| == |ws|
  {
    if ws == [] then []
    else
      SplitWord(ws[0], b);
      ShiftedWordFits(ws[0], b, carry);
      [Or(ShiftedWord(ws[0], b), carry)] + ShiftWords(ws[1..], b, CarryOut(ws[0], b))
  }

  lemma {:induction false} ShiftWordsAt(ws: seq<uint64>, b: nat, carry: nat, i: nat)
    requires b <= WORD_BITS && carry < Pow2(b) && i < |ws|
    ensures ShiftWords(ws, b, carry)[i] ==
            Or(ShiftedWord(ws[i], b), if i == 0 then carry else CarryOut(ws[i - 1], b))
  {
    if i > 0 {
      SplitWord(ws[0], b);
      ShiftWordsAt(ws[1..], b, CarryOut(ws[0], b), i - 1);
    }
  }

  /** What the shift pushes out of the top word. */
  function Overflow(ws: seq<uint64>, b: nat, carry: nat): (result: nat)
    requires b <= WORD_BITS
  {
    if ws == [] then carry else Overflow(ws[1..], b, CarryOut(ws[0], b))
  }

  lemma {:induction false} HeadWord(ws: seq<uint64>, b: nat, carry: nat)
    requires b <= WORD_BITS && carry < Pow2(b) && ws != []
    ensures CarryOut(ws[0], b) < Pow2(b)
    ensures ShiftWords(ws, b, carry)[0] == ShiftedWord(ws[0], b) + carry
    ensures ShiftWords(ws, b, carry)[1..] == ShiftWords(ws[1..], b, CarryOut(ws[0], b))
  {
    SplitWord(ws[0], b);
    ShiftedWordFits(ws[0], b, carry);
  }

  lemma {:induction false} ShiftWordsValue(ws: seq<uint64>, b: nat, carry: nat)
    requires b <= WORD_BITS && carry < Pow2(b)
    ensures Value(ShiftWords(ws, b, carry)) + Shl(Overflow(ws, b, carry), WORD_BITS * |ws|) ==
            Shl(Value(ws), b) + carry
  {
    if ws == [] {
      ShlZero(b);
    } else {
      var rest, c := ws[1..], CarryOut(ws[0], b);
      HeadWord(ws, b, carry);
      ShiftWordsValue(rest, b, c);
      assert Shl(ws[0], b) == ShiftedWord(ws[0], b) + RADIX * c by { SplitWord(ws[0], b); }
      CarryStep(ws[0], ShiftedWord(ws[0], b), carry, c, b, Value(rest), Value(ShiftWords(rest, b, c)),
                Overflow(rest, b, c), WORD_BITS * |rest|,
                Value(ws), Value(ShiftWords(ws, b, carry)), WORD_BITS * |ws|);
    }
  }

  /** One word joins the words above it. */
  lemma {:induction false} CarryStep(w: nat, w': nat, carry: nat, c: nat, b: nat, v: nat, v': nat, out: nat, m: nat,
                  all: nat, all': nat, n: nat)
    requires Shl(w, b) == w' + RADIX * c
    requires v' + Shl(out, m) == Shl(v, b) + c
    requires all == w + RADIX * v && all' == w' + carry + RADIX * v' && n == m + WORD_BITS
    ensures all' + Shl(out, n) == Shl(all, b) + carry
  {
    ShlWord(out, m, n);
    ShlWordAbove(w, v, b, all);
  }

  lemma {:induction false} ShlWordAbove(w: nat, v: nat, b: nat, all: nat)
    requires all == w + RADIX * v
    ensures Shl(all, b) == Shl(w, b) + RADIX * Shl(v, b)
  {
    ShlAdd(w, RADIX * v, b);
    ShlRadix(v, b);
  }

  lemma {:induction false} ShlRadix(x: nat, b: nat)
    ensures Shl(RADIX * x, b) == RADIX * Shl(x, b)
  {
    if b > 0 { ShlRadix(x, b - 1); }
  }

  lemma ShlSum(lo: nat, hi: nat, n: nat, k: nat)
    ensures Shl(lo + Shl(hi, n), k) == Shl(lo, k) + Shl(hi, n + k)
  {
    ShlAdd(lo, Shl(hi, n), k);
    ShlShl(hi, n, k);
  }

  /** Moving whole words multiplies by a power of 2^64, dropping what leaves the top. */
  lemma {:induction false} WordShiftValue(ws: seq<uint64>, k: nat, n: nat)
    requires n + k == |ws|
    ensures Shl(Value(ws), WORD_BITS * k) ==
            Value(ZeroWords(k) + ws[..n]) + Shl(Value(ws[n..]), WORD_BITS * |ws|)
  {
    ValueConcat(ws[..n], ws[n..]);
    assert ws == ws[..n] + ws[n..];
    ValueConcat(ZeroWords(k), ws[..n]);
    ValueZeros(k);
    ShlSum(Value(ws[..n]), Value(ws[n..]), WORD_BITS * n, WORD_BITS * k);
    assert WORD_BITS * n + WORD_BITS * k == WORD_BITS * |ws|;
  }

  /** What shiftBitmap leaves behind, word by word. */
  function Shifted(ws: seq<uint64>, n: nat): (r: seq<uint64>)
    requires |ws| == WORDS
    ensures |r| == WORDS
  {
    if n >= SPAN then ZeroWords(WORDS)
    else ShiftWords(ZeroWords(n / WORD_BITS) + ws[..WORDS - n / WORD_BITS], n % WORD_BITS, 0)
  }

  lemma {:induction false} FarShiftValue(v: nat, n: nat)
    requires n >= SPAN
    ensures Low(Shl(v, n), SPAN) == 0
  {
    ShlShl(v, n - SPAN, SPAN);
    LowJoin(0, Shl(v, n - SPAN), SPAN);
  }

  lemma NearShiftValue(ws: seq<uint64>, k: nat, b: nat)
    requires |ws| == WORDS && k < WORDS && b < WORD_BITS
    ensures Value(ShiftWords(ZeroWords(k) + ws[..WORDS - k], b, 0)) == Low(Shl(Value(ws), WORD_BITS * k + b), SPAN)
  {
    hide Value, ShiftWords, Overflow, ZeroWords, Shl, Low, Pow2;
    var ws1, v := ZeroWords(k) + ws[..WORDS - k], Value(ws);
    var ws2, out, hi := ShiftWords(ws1, b, 0), Overflow(ws1, b, 0), Value(ws[WORDS - k..]);
    WordShiftValue(ws, k, WORDS - k);
    ShiftWordsValue(ws1, b, 0);
    ValueBound(ws2);
    DroppedTogether(v, WORD_BITS * k, b, Value(ws1), hi, Value(ws2), out, WORD_BITS * |ws1|);
  }

  lemma DroppedTogether(v: nat, m: nat, b: nat, v1: nat, hi: nat, v2: nat, out: nat, span: nat)
    requires Shl(v, m) == v1 + Shl(hi, span)
    requires v2 + Shl(out, span) == Shl(v1, b) + 0
    requires v2 < Pow2(span)
    ensures v2 == Low(Shl(v, m + b), span)
  {
    assert Shl(v, m + b) == v2 + Shl(out + Shl(hi, b), span) by {
      ShlShl(v, m, b);
      ShlAdd(v1, Shl(hi, span), b);
      ShlShl(hi, span, b);
      ShlShl(hi, b, span);
      assert span + b == b + span;
      ShlAdd(out, Shl(hi, b), span);
    }
    LowJoin(v2, out + Shl(hi, b), span);
  }

  lemma {:induction false} ShiftedValue(ws: seq<uint64>, n: nat)
    requires |ws| == WORDS
    ensures Value(Shifted(ws, n)) == Low(Shl(Value(ws), n), SPAN)
  {
    if n >= SPAN {
      ValueZeros(WORDS);
      FarShiftValue(Value(ws), n);
    } else {
      var k, b := n / WORD_BITS, n % WORD_BITS;
      assert WORD_BITS * k + b == n;
      NearShiftValue(ws, k, b);
    }
  }

  /** Multiplies the 1024-bit number in b by 2^n, modulo 2^1024, in place. */
  method ShiftBitmap(b: array<uint64>, n: uint64)
    requires b.Length == WORDS
    modifies b
    ensures Value(b[..]) == Value(old(b[..])) * Pow2(n) % Pow2(SPAN)
    ensures Value(b[..]) == Low(Shl(Value(old(b[..])), n), SPAN)
  {
    ghost var was := b[..];
    ShiftedValue(was, n);
    ShlMul(Value(was), n);
    LowMod(Shl(Value(was), n), SPAN);
    if n >= SPAN {
      forall i | 0 <= i < WORDS { b[i] := 0; }
      assert b[..] == Shifted(was, n);
      return;
    }
    var wordShift := n / 64;
    var bitShift := n % 64;
    if wordShift > 0 {
      MoveWords(b, wordShift);
    }
    assert b[..] == ZeroWords(wordShift) + was[..WORDS - wordShift];
    if bitShift > 0 {
      MoveBits(b, bitShift);
    } else {
      NoBitsMove(b[..]);
    }
    assert b[..] == Shifted(was, n);
  }

  lemma {:induction false} NoBitsMove(ws: seq<uint64>)
    ensures ShiftWords(ws, 0, 0) == ws
  {
    if ws != [] {
      SplitWord(ws[0], 0);
      NoBitsMove(ws[1..]);
    }
  }

  /** The whole-word part of the shift. */
  method MoveWords(b: array<uint64>, wordShift: nat)
    requires b.Length == WORDS && wordShift < WORDS
    modifies b
    ensures b[..] == ZeroWords(wordShift) + old(b[..WORDS - wordShift])
  {
    ghost var was := b[..];
    forall i | wordShift <= i < WORDS { b[i] := b[i - wordShift]; }
    assert forall j :: wordShift <= j < WORDS ==> b[j] == was[j - wordShift];
    for i := 0 to wordShift
      invariant forall j :: 0 <= j < i ==> b[j] == 0
      invariant forall j :: wordShift <= j < WORDS ==> b[j] == was[j - wordShift]
    {
      b[i] := 0;
    }
    assert |b[..]| == |ZeroWords(wordShift) + was[..WORDS - wordShift]|;
  }

  /** The carry chain, from the top word down. */
  method MoveBits(b: array<uint64>, bitShift: nat)
    requires b.Length == WORDS && 0 < bitShift < 64
    modifies b
    ensures b[..] == ShiftWords(old(b[..]), bitShift, 0)
  {
    ghost var was := b[..];
    var i := WORDS - 1;
    while i > 0
      invariant 0 <= i < WORDS
      invariant forall j :: 0 <= j <= i ==> b[j] == was[j]
      invariant forall j :: i < j < WORDS ==> b[j] == ShiftWords(was, bitShift, 0)[j]
    {
      ShiftWordsAt(was, bitShift, 0, i);
      b[i] := Or(ShiftedWord(b[i], bitShift), CarryOut(b[i - 1], bitShift));
      i := i - 1;
    }
    ShiftWordsAt(was, bitShift, 0, 0);
    b[0] := ShiftedWord(b[0], bitShift);
    assert b[..] == ShiftWords(was, bitShift, 0);
  }

  // ---- the window object ----

  /** One high half's window; the words are shared by reference and changed in place. */
  datatype Slot = Slot(max: uint64, bitmap: array<uint64>, high: uint16)

  class SlidingWindow {
    var wins: seq<Slot>

    ghost predicate Valid()
      reads this
    {
      && |wins| <= CAPACITY
      && (forall i :: 0 <= i < |wins| ==> wins[i].bitmap.Length == WORDS)
      && (forall i, j :: 0 <= i < j < |wins| ==> wins[i].bitmap != wins[j].bitmap)
    }

    ghost function Bitmaps(): (result: set<object>)
      reads this
    {
      set i | 0 <= i < |wins| :: wins[i].bitmap
    }

    /** The window these words stand for. */
    ghost function Model(): (w: Window)
      reads this, Bitmaps()
      requires Valid()
      ensures |w| == |wins|
    {
      seq(|wins|, i requires 0 <= i < |wins| reads this, Bitmaps() =>
        Entry(wins[i].high, wins[i].max, Value(wins[i].bitmap[..])))
    }

    constructor ()
      ensures Valid() && Model() == [] && wins == []
    {
      wins := [];
    }

    /** The loop both methods share: the entry for high, or one past the end. */
    method Locate(high: uint16) returns (i: nat)
      requires Valid()
      ensures i == Find(Model(), high)
    {
      i := 0;
      while i < |wins| && wins[i].high != high
        invariant i <= |wins|
        invariant forall j :: 0 <= j < i ==> wins[j].high != high
      {
        i := i + 1;
      }
      FindUnique(Model(), high, i);
    }

    /** Says whether a counter would be accepted; changes nothing. */
    method Check(low: uint64, high: uint16) returns (accepted: bool)
      requires Valid()
      ensures accepted == ReplayWindow.Check(Model(), low, high)
    {
      var i := Locate(high);
      if i == |wins| {
        return true;
      }
      var w := wins[i];
      assert Model()[i] == Entry(w.high, w.max, Value(w.bitmap[..]));
      if low > w.max {
        return true;
      }
      if w.max - low >= SPAN {
        return false;
      }
      var diff := w.max - low;
      ValueBit(w.bitmap[..], diff);
      AndTestsBit(w.bitmap[diff / 64], diff % 64);
      accepted := And(w.bitmap[diff / 64], Pow2(diff % 64)) == 0;
    }

    /** Commits a counter whose datagram has been opened. */
    method Accept(low: uint64, high: uint16)
      requires Valid()
      modifies this, Bitmaps()
      ensures Valid() && fresh(Bitmaps() - old(Bitmaps()))
      ensures Model() == ReplayWindow.Accept(old(Model()), low, high)
    {
      var i := Locate(high);
      ghost var was := Model();
      if i == |wins| {
        Append(high);
        i := |wins| - 1;
      }
      MarkSlot(i, low);
    }

    /** Makes room and adds an entry that has seen nothing. */
    method Append(high: uint16)
      requires Valid()
      modifies this
      ensures Valid() && wins != [] && fresh(Bitmaps() - old(Bitmaps()))
      ensures Model() == (if old(|wins|) == CAPACITY then old(Model())[1..] else old(Model())) + [Entry(high, 0, 0)]
    {
      var zeros := new uint64[WORDS](_ => 0);
      assert Value(zeros[..]) == 0 by {
        ValueZeros(WORDS);
        assert zeros[..] == ZeroWords(WORDS);
      }
      if |wins| == CAPACITY {
        wins := wins[1..];
      }
      wins := wins + [Slot(0, zeros, high)];
    }

    /** The update of one entry. */
    method MarkSlot(i: nat, low: uint64)
      requires Valid() && i < |wins|
      modifies this, wins[i].bitmap
      ensures Valid() && Bitmaps() == old(Bitmaps())
      ensures Model() == old(Model())[i := Mark(old(Model())[i], low)]
    {
      ghost var was := Model();
      var w := wins[i];
      var max := MarkBitmap(w.bitmap, w.max, low, w.high);
      wins := wins[i := w.(max := max)];
      assert Model()[i] == Mark(was[i], low);
      assert forall j :: 0 <= j < |wins| && j != i ==> Model()[j] == was[j];
      assert forall j :: 0 <= j < |wins| ==> wins[j].bitmap == old(wins[j].bitmap);
    }

    /** Drops all history. */
    method Zeroize()
      requires Valid()
      modifies this, Bitmaps()
      ensures Valid() && Model() == []
    {
      wins := [];
    }
  }

  /** Records low in a bitmap whose newest number is max; returns the newest number. */
  method MarkBitmap(b: array<uint64>, max: uint64, low: uint64, ghost high: uint16) returns (max': uint64)
    requires b.Length == WORDS
    modifies b
    ensures Entry(high, max', Value(b[..])) == Mark(Entry(high, max, old(Value(b[..]))), low)
  {
    max' := max;
    if low > max {
      ShiftBitmap(b, low - max);
      SetBit(b, 0);
      assert Pow2(0) == 1;
      max' := low;
    } else if max - low < SPAN {
      SetBit(b, max - low);
    }
  }

  /** Sets one bit of a bitmap. */
  method SetBit(b: array<uint64>, d: nat)
    requires b.Length == WORDS && d < SPAN
    modifies b
    ensures Value(b[..]) == Or(old(Value(b[..])), Pow2(d))
  {
    ghost var was := b[..];
    var word := d / 64;
    ValueOr(was, word, d % 64);
    ShlMul(1, d % 64);
    ShlShl(1, d % 64, 64 * word);
    ShlMul(1, d);
    b[word] := Or(b[word], Pow2(d % 64));
    assert b[..] == was[word := Or(was[word], Pow2(d % 64))];
  }

  lemma {:induction false} FindUnique(w: Window, high: uint16, i: nat)
    requires i <= |w|
    requires forall j :: 0 <= j < i ==> w[j].high != high
    requires i < |w| ==> w[i].high == high
    ensures Find(w, high) == i
  {
  }
}
