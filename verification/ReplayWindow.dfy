/**
 * The replay window of a UDP session on values: 1024 bits per high counter half as one number,
 * and the set of accepted counters that they stand for.
 */
module ReplayWindow {
  import opened Basics
  import opened Bits

  const WORDS: nat := 16
  const SPAN: nat := 1024
  const CAPACITY: nat := 4

  /** One high counter half with the window of low halves accepted under it. */
  datatype Entry = Entry(high: uint16, max: uint64, bits: nat)

  type Window = seq<Entry>

  /** Position of the entry for high, or |w|. */
  function Find(w: Window, high: uint16): (i: nat)
    ensures i <= |w|
    ensures i < |w| ==> w[i].high == high
    ensures forall j :: 0 <= j < i ==> w[j].high != high
  {
    if w == [] then 0
    else if w[0].high == high then 0
    else 1 + Find(w[1..], high)
  }

  /** Too old for this entry, or already marked in it. */
  predicate Refuses(e: Entry, low: uint64)
  {
    low <= e.max && (e.max - low >= SPAN || Bit(e.bits, e.max - low))
  }

  /** Whether a counter would be accepted. */
  predicate Check(w: Window, low: uint64, high: uint16)
  {
    var i := Find(w, high);
    i == |w| || !Refuses(w[i], low)
  }

  /** Commits one counter in the entry of its own high half. */
  function Mark(e: Entry, low: uint64): (result: Entry)
  {
    if low > e.max then
      e.(max := low, bits := Or(Low(Shl(e.bits, low - e.max), SPAN), 1))
    else if e.max - low < SPAN then
      e.(bits := Or(e.bits, Pow2(e.max - low)))
    else e
  }

  function Accept(w: Window, low: uint64, high: uint16): (result: Window)
  {
    var i := Find(w, high);
    if i < |w| then w[i := Mark(w[i], low)]
    else (if |w| == CAPACITY then w[1..] else w) + [Mark(Entry(high, 0, 0), low)]
  }

  // ---- one entry refines the set of counters it accepted ----

  /** e stands for the set of low halves accepted under its high half. */
  ghost predicate Stands(e: Entry, seen: iset<uint64>)
  {
    && e.max in seen
    && (forall n: uint64 :: n in seen ==> n <= e.max)
    && (forall d: nat :: d < SPAN ==> (Bit(e.bits, d) <==> (d <= e.max && e.max - d in seen)))
  }

  lemma MarkFirst(high: uint16, low: uint64)
    ensures Stands(Mark(Entry(high, 0, 0), low), iset{low})
  {
    var e := Mark(Entry(high, 0, 0), low);
    forall d: nat | d < SPAN
      ensures Bit(e.bits, d) <==> d == 0
    {
      BitPow2(0, d);
      ZeroBits(d);
      LowSmall(0, SPAN);
      ShlZero(low);
      assert Pow2(0) == 1;
      BitOr(0, 1, d);
    }
  }

  lemma MarkStands(e: Entry, low: uint64, seen: iset<uint64>)
    requires Stands(e, seen)
    requires low > e.max || e.max - low < SPAN
    ensures Stands(Mark(e, low), seen + iset{low})
  {
    var e', seen' := Mark(e, low), seen + iset{low};
    forall d: nat | d < SPAN
      ensures Bit(e'.bits, d) <==> (d <= e'.max && e'.max - d in seen')
    {
      if low > e.max {
        var n := low - e.max;
        BitOr(Low(Shl(e.bits, n), SPAN), 1, d);
        BitLow(Shl(e.bits, n), SPAN, d);
        BitShl(e.bits, n, d);
        BitPow2(0, d);
        assert Pow2(0) == 1;
        if n <= d { assert e'.max - d == e.max - (d - n); }
      } else {
        BitOr(e.bits, Pow2(e.max - low), d);
        BitPow2(e.max - low, d);
      }
    }
  }

  // ---- runs: what arrives, what is accepted ----

  datatype Counter = Counter(low: uint64, high: uint16)

  /** A datagram's counter and whether its tag verifies. */
  datatype Arrival = Arrival(counter: Counter, authentic: bool)

  datatype Receiver = Receiver(window: Window, log: seq<Counter>)

  /** Check first; commit only after the datagram has been opened. */
  function Receive(r: Receiver, a: Arrival): (result: Receiver)
  {
    if Check(r.window, a.counter.low, a.counter.high) && a.authentic then
      Receiver(Accept(r.window, a.counter.low, a.counter.high), r.log + [a.counter])
    else r
  }

  function Run(arrivals: seq<Arrival>): (result: Receiver)
  {
    if arrivals == [] then Receiver([], [])
    else Receive(Run(arrivals[..|arrivals| - 1]), arrivals[|arrivals| - 1])
  }

  function Highs(log: seq<Counter>): (result: set<uint16>)
  {
    set c | c in log :: c.high
  }

  ghost function Lows(log: seq<Counter>, high: uint16): (result: iset<uint64>)
  {
    iset n: uint64 | Counter(n, high) in log
  }

  ghost predicate Distinct(w: Window)
  {
    forall i, j :: 0 <= i < j < |w| ==> w[i].high != w[j].high
  }

  /** The window stands for the whole log: one entry for each high half seen. */
  ghost predicate Tracks(w: Window, log: seq<Counter>)
  {
    && Distinct(w)
    && (forall i :: 0 <= i < |w| ==> Stands(w[i], Lows(log, w[i].high)))
    && (forall c :: c in log ==> Find(w, c.high) < |w|)
  }

  lemma {:induction false} FindPosition(w: Window, i: nat)
    requires Distinct(w) && i < |w|
    ensures Find(w, w[i].high) == i
  {
  }

  lemma {:induction false} EntryCountIn(w: Window, highs: set<uint16>)
    requires Distinct(w)
    requires forall i :: 0 <= i < |w| ==> w[i].high in highs
    ensures |w| <= |highs|
  {
    if w != [] {
      EntryCountIn(w[1..], highs - {w[0].high});
    }
  }

  lemma SubsetCount(a: set<uint16>, b: set<uint16>)
    requires a <= b
    ensures |a| <= |b|
  {
    assert b == a + (b - a);
  }

  lemma LowsAppend(log: seq<Counter>, c: Counter, h: uint16)
    ensures Lows(log + [c], h) == if h == c.high then Lows(log, h) + iset{c.low} else Lows(log, h)
  {
  }

  lemma {:induction false} UpdateKeepsFind(w: Window, i: nat, e: Entry, high: uint16)
    requires i < |w| && e.high == w[i].high
    ensures Find(w[i := e], high) == Find(w, high)
  {
    var w' := w[i := e];
    if i > 0 {
      assert w'[1..] == w[1..][i - 1 := e];
      UpdateKeepsFind(w[1..], i - 1, e, high);
    } else {
      assert w'[1..] == w[1..];
    }
  }

  lemma {:induction false} AcceptKnownTracks(w: Window, log: seq<Counter>, c: Counter)
    requires Tracks(w, log) && Check(w, c.low, c.high)
    requires Find(w, c.high) < |w|
    ensures Tracks(Accept(w, c.low, c.high), log + [c])
  {
    var i := Find(w, c.high);
    UpdateTracks(w, log, c, i, Mark(w[i], c.low)) by {
      MarkStands(w[i], c.low, Lows(log, c.high));
    }
  }

  lemma UpdateTracks(w: Window, log: seq<Counter>, c: Counter, i: nat, e: Entry)
    requires Tracks(w, log)
    requires i < |w| && w[i].high == c.high == e.high
    requires Stands(e, Lows(log, c.high) + iset{c.low})
    ensures Tracks(w[i := e], log + [c])
  {
    var w', log' := w[i := e], log + [c];
    assert forall j :: 0 <= j < |w| ==> w'[j].high == w[j].high;
    forall j | 0 <= j < |w'|
      ensures Stands(w'[j], Lows(log', w'[j].high))
    {
      LowsAppend(log, c, w[j].high);
    }
    forall d | d in log'
      ensures Find(w', d.high) < |w'|
    {
      UpdateKeepsFind(w, i, e, d.high);
      if d !in log { FindPosition(w, i); }
    }
  }

  lemma {:induction false} UnknownIsFresh(w: Window, log: seq<Counter>, high: uint16)
    requires Tracks(w, log) && Find(w, high) == |w|
    ensures Lows(log, high) == iset{}
    ensures forall j :: 0 <= j < |w| ==> w[j].high in Highs(log) && w[j].high != high
  {
    forall j | 0 <= j < |w|
      ensures w[j].high in Highs(log)
    {
      assert w[j].max in Lows(log, w[j].high);
      assert Counter(w[j].max, w[j].high) in log;
    }
  }

  /** A high half not yet tracked leaves room for its entry. */
  lemma {:induction false} RoomForNew(w: Window, log: seq<Counter>, c: Counter)
    requires Tracks(w, log)
    requires Find(w, c.high) == |w|
    requires |Highs(log + [c])| <= CAPACITY
    ensures |w| < CAPACITY
  {
    var highs := Highs(log + [c]);
    UnknownIsFresh(w, log, c.high);
    assert c.high in highs by { assert c in log + [c]; }
    assert Highs(log) <= highs;
    EntryCountIn(w, highs - {c.high});
  }

  lemma {:induction false} AppendTracks(w: Window, log: seq<Counter>, c: Counter, e: Entry)
    requires Tracks(w, log)
    requires Find(w, c.high) == |w|
    requires e.high == c.high && Stands(e, iset{c.low})
    ensures Tracks(w + [e], log + [c])
  {
    var w', log' := w + [e], log + [c];
    UnknownIsFresh(w, log, c.high);
    forall j | 0 <= j < |w'|
      ensures Stands(w'[j], Lows(log', w'[j].high))
    {
      LowsAppend(log, c, w'[j].high);
      if j == |w| { assert Lows(log', c.high) == iset{c.low}; }
    }
    forall d | d in log'
      ensures Find(w', d.high) < |w'|
    {
      if d in log { FindPosition(w', Find(w, d.high)); } else { FindPosition(w', |w|); }
    }
  }

  lemma AcceptTracks(w: Window, log: seq<Counter>, c: Counter)
    requires Tracks(w, log) && Check(w, c.low, c.high)
    requires |Highs(log + [c])| <= CAPACITY
    ensures Tracks(Accept(w, c.low, c.high), log + [c])
  {
    if Find(w, c.high) < |w| {
      AcceptKnownTracks(w, log, c);
    } else {
      RoomForNew(w, log, c);
      MarkFirst(c.high, c.low);
      AppendTracks(w, log, c, Mark(Entry(c.high, 0, 0), c.low));
    }
  }

  lemma {:induction false} RunTracks(arrivals: seq<Arrival>)
    requires |Highs(Run(arrivals).log)| <= CAPACITY
    ensures Tracks(Run(arrivals).window, Run(arrivals).log)
  {
    if arrivals != [] {
      var n := |arrivals| - 1;
      var before := Run(arrivals[..n]);
      assert Highs(before.log) <= Highs(Run(arrivals).log);
      SubsetCount(Highs(before.log), Highs(Run(arrivals).log));
      RunTracks(arrivals[..n]);
      var c := arrivals[n].counter;
      if Check(before.window, c.low, c.high) && arrivals[n].authentic {
        AcceptTracks(before.window, before.log, c);
      }
    }
  }

  /**
   * Check refines the plain set of accepted counters: it refuses exactly those accepted
   * before and those 1024 or more below an accepted one with the same high half.
   */
  lemma {:induction false} CheckRefinesSet(arrivals: seq<Arrival>, c: Counter)
    requires |Highs(Run(arrivals).log)| <= CAPACITY
    ensures var r := Run(arrivals);
            !Check(r.window, c.low, c.high) <==>
            c in r.log || exists m: uint64 :: Counter(m, c.high) in r.log && m >= c.low + SPAN
  {
    RunTracks(arrivals);
    var r := Run(arrivals);
    var i := Find(r.window, c.high);
    if i < |r.window| {
      EntryRefuses(r.window[i], Lows(r.log, c.high), c.low);
      assert c in r.log <==> c.low in Lows(r.log, c.high);
      assert forall m: uint64 :: m in Lows(r.log, c.high) <==> Counter(m, c.high) in r.log;
    }
  }

  lemma EntryRefuses(e: Entry, seen: iset<uint64>, low: uint64)
    requires Stands(e, seen)
    ensures Refuses(e, low) <==>
            (low in seen || exists m: uint64 :: m in seen && m >= low + SPAN)
  {
    if low <= e.max && e.max - low < SPAN {
      assert Bit(e.bits, e.max - low) <==> e.max - (e.max - low) in seen;
    }
  }

  ghost predicate NoRepeats(log: seq<Counter>)
  {
    forall i, j :: 0 <= i < j < |log| ==> log[i] != log[j]
  }

  /** No counter is accepted twice while at most four high halves have been accepted. */
  lemma {:induction false} AtMostOnce(arrivals: seq<Arrival>)
    requires |Highs(Run(arrivals).log)| <= CAPACITY
    ensures NoRepeats(Run(arrivals).log)
  {
    if arrivals != [] {
      var n := |arrivals| - 1;
      var before := Run(arrivals[..n]);
      assert Highs(before.log) <= Highs(Run(arrivals).log);
      SubsetCount(Highs(before.log), Highs(Run(arrivals).log));
      AtMostOnce(arrivals[..n]);
      CheckRefinesSet(arrivals[..n], arrivals[n].counter);
    }
  }

  // ---- exactly when a receipt is forgotten ----

  ghost predicate WellKept(w: Window)
  {
    && Distinct(w)
    && |w| <= CAPACITY
    && forall i :: 0 <= i < |w| ==> Bit(w[i].bits, 0)
  }

  lemma MarkKeepsNewest(e: Entry, low: uint64)
    requires Bit(e.bits, 0) || (e.bits == 0 && e.max == 0)
    ensures Bit(Mark(e, low).bits, 0)
  {
    if low > e.max {
      BitOr(Low(Shl(e.bits, low - e.max), SPAN), 1, 0);
    } else if e.max - low < SPAN {
      BitOr(e.bits, Pow2(e.max - low), 0);
      BitPow2(e.max - low, 0);
    }
  }

  lemma AcceptWellKept(w: Window, c: Counter)
    requires WellKept(w)
    ensures WellKept(Accept(w, c.low, c.high))
  {
    var i := Find(w, c.high);
    MarkKeepsNewest(if i < |w| then w[i] else Entry(c.high, 0, 0), c.low);
  }

  lemma {:induction false} RunWellKept(arrivals: seq<Arrival>)
    ensures WellKept(Run(arrivals).window)
  {
    if arrivals != [] {
      var n := |arrivals| - 1;
      RunWellKept(arrivals[..n]);
      AcceptWellKept(Run(arrivals[..n]).window, arrivals[n].counter);
    }
  }

  /** Some counter refused by w is let through by w'. */
  ghost predicate Forgets(w: Window, w': Window)
  {
    exists low: uint64, high: uint16 :: !Check(w, low, high) && Check(w', low, high)
  }

  lemma MarkKeepsRefusals(e: Entry, n: uint64, low: uint64)
    requires Refuses(e, low)
    ensures Refuses(Mark(e, n), low)
  {
    if n > e.max {
      var d := n - low;
      if d < SPAN {
        BitOr(Low(Shl(e.bits, n - e.max), SPAN), 1, d);
        BitLow(Shl(e.bits, n - e.max), SPAN, d);
        BitShl(e.bits, n - e.max, d);
      }
    } else if e.max - n < SPAN && e.max - low < SPAN {
      BitOr(e.bits, Pow2(e.max - n), e.max - low);
    }
  }

  lemma {:induction false} AppendKeepsFind(w: Window, e: Entry, high: uint16)
    requires Find(w, high) < |w|
    ensures Find(w + [e], high) == Find(w, high)
  {
    if w[0].high != high {
      assert (w + [e])[1..] == w[1..] + [e];
      AppendKeepsFind(w[1..], e, high);
    }
  }

  /**
   * Accepting a counter makes the window forget an earlier refusal exactly when the
   * counter's high half is new and all four entries are taken.
   */
  lemma {:induction false} ForgetsExactlyOnEviction(arrivals: seq<Arrival>, c: Counter)
    ensures var w := Run(arrivals).window;
            Forgets(w, Accept(w, c.low, c.high)) <==> (Find(w, c.high) == |w| && |w| == CAPACITY)
  {
    RunWellKept(arrivals);
    var w := Run(arrivals).window;
    var w', i := Accept(w, c.low, c.high), Find(w, c.high);
    if i == |w| && |w| == CAPACITY {
      var low, high := w[0].max, w[0].high;
      assert !Check(w, low, high);
      assert forall j :: 0 <= j < |w'| ==> w'[j].high != high;
      assert Check(w', low, high);
    } else {
      forall low: uint64, high: uint16 | !Check(w, low, high)
        ensures !Check(w', low, high)
      {
        RefusalStays(w, c, low, high);
      }
    }
  }

  function WindowHighs(w: Window): (highs: set<uint16>)
    ensures forall i :: 0 <= i < |w| ==> w[i].high in highs
    ensures forall high :: high in highs ==> Find(w, high) < |w|
    ensures |highs| <= |w|
  {
    if w == [] then {} else {w[0].high} + WindowHighs(w[1..])
  }

  /** A high half that has been accepted and that the window has no entry for, when it has too few entries. */
  lemma Untracked(w: Window, log: seq<Counter>) returns (c: Counter)
    requires |w| < |Highs(log)|
    ensures c in log && Find(w, c.high) == |w|
  {
    if Highs(log) <= WindowHighs(w) { SubsetCount(Highs(log), WindowHighs(w)); }
    var high :| high in Highs(log) && high !in WindowHighs(w);
    c :| c in log && c.high == high;
  }

  /**
   * The window would let some accepted counter through again if and only if more than four high
   * halves have been accepted.
   */
  lemma {:induction false} ReplayIff(arrivals: seq<Arrival>)
    ensures (exists c :: c in Run(arrivals).log && Check(Run(arrivals).window, c.low, c.high))
            <==> |Highs(Run(arrivals).log)| > CAPACITY
  {
    hide Check, Highs;
    var r := Run(arrivals);
    if |Highs(r.log)| > CAPACITY {
      RunWellKept(arrivals);
      var c := Untracked(r.window, r.log);
      UntrackedPasses(r.window, c);
    } else {
      forall c | c in r.log ensures !Check(r.window, c.low, c.high) { CheckRefinesSet(arrivals, c); }
    }
  }

  lemma {:induction false} UntrackedPasses(w: Window, c: Counter)
    requires Find(w, c.high) == |w|
    ensures Check(w, c.low, c.high)
  {
  }

  lemma {:induction false} RefusalStays(w: Window, c: Counter, low: uint64, high: uint16)
    requires Find(w, c.high) < |w| || |w| != CAPACITY
    requires !Check(w, low, high)
    ensures !Check(Accept(w, c.low, c.high), low, high)
  {
    var i, k := Find(w, c.high), Find(w, high);
    if i < |w| {
      var e := Mark(w[i], c.low);
      UpdateKeepsFind(w, i, e, high);
      if k == i { MarkKeepsRefusals(w[i], c.low, low); }
      assert w[i := e][k] == if k == i then e else w[k];
    } else {
      var e := Mark(Entry(c.high, 0, 0), c.low);
      AppendKeepsFind(w, e, high);
      assert (w + [e])[k] == w[k];
    }
  }

  lemma {:induction false} RunAppend(arrivals: seq<Arrival>, a: Arrival)
    ensures Run(arrivals + [a]) == Receive(Run(arrivals), a)
  {
    assert (arrivals + [a])[..|arrivals|] == arrivals;
  }

  lemma NewHalfAccepted(r: Receiver, high: uint16)
    requires forall j :: 0 <= j < |r.window| ==> r.window[j].high != high
    ensures var r' := Receive(r, Arrival(Counter(0, high), true));
            && r'.log == r.log + [Counter(0, high)]
            && r'.window == (if |r.window| == CAPACITY then r.window[1..] else r.window) + [Mark(Entry(high, 0, 0), 0)]
  {
    assert Find(r.window, high) == |r.window|;
  }

  /** Authentic arrivals of counter 0 under the high halves 0, 1, ..., n - 1. */
  function Zeros(n: uint16): (s: seq<Arrival>)
    ensures |s| == n
  {
    if n == 0 then [] else Zeros(n - 1) + [Arrival(Counter(0, n - 1), true)]
  }

  lemma {:induction false} ZerosFill(n: uint16)
    requires n <= CAPACITY
    ensures var r := Run(Zeros(n));
            && |r.window| == n == |r.log|
            && (forall i: uint16 :: i < n ==> r.window[i] == Mark(Entry(i, 0, 0), 0) && r.log[i] == Counter(0, i))
  {
    if n > 0 {
      ZerosFill(n - 1);
      NewHalfAccepted(Run(Zeros(n - 1)), n - 1);
      RunAppend(Zeros(n - 1), Arrival(Counter(0, n - 1), true));
    }
  }

  lemma ReplayAfterFive() returns (arrivals: seq<Arrival>)
    ensures |Run(arrivals).log| == 6
    ensures forall i: uint16 :: i < 5 ==> Run(arrivals).log[i] == Counter(0, i)
    ensures Run(arrivals).log[5] == Counter(0, 0)
  {
    ZerosFill(4);
    var again := Arrival(Counter(0, 0), true);
    NewHalfAccepted(Run(Zeros(4)), 4);
    RunAppend(Zeros(4), Arrival(Counter(0, 4), true));
    NewHalfAccepted(Run(Zeros(5)), 0);
    RunAppend(Zeros(5), again);
    arrivals := Zeros(5) + [again];
  }

  /** With a fifth high half a counter can be accepted twice. */
  lemma FifthHighHalfAdmitsReplay()
    ensures exists arrivals: seq<Arrival> ::
              |Highs(Run(arrivals).log)| == CAPACITY + 1 && !NoRepeats(Run(arrivals).log)
  {
    var arrivals := ReplayAfterFive();
    var log := Run(arrivals).log;
    assert log[0] == log[5];
    assert Highs(log) == {0, 1, 2, 3, 4} by {
      forall h: uint16 | h < 5
        ensures h in Highs(log)
      {
        assert log[h] in log;
      }
      forall h | h in Highs(log)
        ensures h < 5
      {
        var i :| 0 <= i < |log| && log[i].high == h;
      }
    }
  }
}
