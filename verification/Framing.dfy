/** Length-prefixed frames over a byte stream that splits writes and reads as it likes. */
module Framing {
  import opened Basics
  import opened Nonces

  const MAX_FRAME_CAP: nat := 0xFFFF

  datatype FrameError = ZeroLengthFrame | FrameCapExceeded | ShortBuffer | ShortWrite | InvalidHeader | UnexpectedEnd | Failed

  /** What the stream does with one call: how many bytes it takes or gives, and whether it fails. */
  datatype Outcome = Outcome(count: nat, failed: bool)

  /** No call fails; each may still take or give as little as it likes, even nothing. */
  predicate Unfailing(script: seq<Outcome>) { forall i :: 0 <= i < |script| ==> !script[i].failed }

  /** No call fails and each makes some progress; how calls are split is left open. */
  predicate Obliging(script: seq<Outcome>) { Unfailing(script) && forall i :: 0 <= i < |script| ==> script[i].count > 0 }

  /** The adapter below the frames; its script decides every split, and once used up it takes and gives all. */
  class Stream {
    var written: Bytes
    var incoming: Bytes
    var script: seq<Outcome>

    constructor (incoming: Bytes, script: seq<Outcome>)
      ensures written == [] && this.incoming == incoming && this.script == script
    {
      written, this.incoming, this.script := [], incoming, script;
    }

    /** Takes a prefix of p, possibly none of it, possibly with an error. */
    method Write(p: Bytes) returns (n: nat, failed: bool)
      modifies this`written, this`script
      ensures n <= |p| && written == old(written) + p[..n]
      ensures Obliging(old(script)) ==> !failed && Obliging(script) && (p != [] ==> n > 0)
    {
      n, failed := |p|, false;
      if script != [] {
        n, failed := Min(script[0].count, |p|), script[0].failed;
        script := script[1..];
      }
      written := written + p[..n];
    }

    /** Gives some of what is there, perhaps nothing yet; at the end it fails. */
    method Read(room: nat) returns (chunk: Bytes, failed: bool)
      requires room > 0
      modifies this`incoming, this`script
      ensures |chunk| <= room && old(incoming) == chunk + incoming
      ensures !failed && chunk == [] ==> |script| < |old(script)|
      ensures |script| <= |old(script)|
      ensures Unfailing(old(script)) ==> Unfailing(script) && (failed <==> old(incoming) == [])
    {
      var n := Min(room, |incoming|);
      failed := incoming == [];
      if script != [] {
        n, failed := Min(n, script[0].count), failed || script[0].failed;
        script := script[1..];
      }
      chunk, incoming := incoming[..n], incoming[n..];
    }
  }

  // ---- frames as byte strings ----

  function Frame(payload: Bytes): (result: Bytes) { BigEndian(|payload|, 2) + payload }

  function Frames(payloads: seq<Bytes>): (result: Bytes)
  {
    if payloads == [] then [] else Frame(payloads[0]) + Frames(payloads[1..])
  }

  /** Payload sizes one connection accepts. */
  predicate Sendable(payload: Bytes, frameCap: nat) { 1 <= |payload| <= frameCap }

  datatype Parsed = Parsed(payload: Bytes, rest: Bytes) | Refused(error: FrameError)

  /** The first frame of a stream, for a reader with that cap and that much room. */
  function Parse(bytes: Bytes, frameCap: nat, room: nat): (result: Parsed)
  {
    if |bytes| < 2 then Refused(InvalidHeader)
    else
      var length := Decoded(bytes[..2]);
      if length == 0 then Refused(ZeroLengthFrame)
      else if length > frameCap then Refused(FrameCapExceeded)
      else if length > room then Refused(ShortBuffer)
      else if |bytes| < 2 + length then Refused(UnexpectedEnd)
      else Parsed(bytes[2..2 + length], bytes[2 + length..])
  }

  lemma ParseFrame(payload: Bytes, rest: Bytes, frameCap: nat, room: nat)
    requires Sendable(payload, frameCap) && frameCap <= MAX_FRAME_CAP && |payload| <= room
    ensures Parse(Frame(payload) + rest, frameCap, room) == Parsed(payload, rest)
  {
    var bytes := Frame(payload) + rest;
    Bounds();
    DecodeBigEndian(|payload|, 2);
    assert bytes[..2] == BigEndian(|payload|, 2);
    assert bytes[2..2 + |payload|] == payload && bytes[2 + |payload|..] == rest;
  }

  /** On the wire: the length in two bytes, the high one first, then the payload. */
  lemma {:induction false} FrameLayout(payload: Bytes)
    requires |payload| <= MAX_FRAME_CAP
    ensures Frame(payload)[0] == |payload| / 256 && Frame(payload)[1] == |payload| % 256 && Frame(payload)[2..] == payload
  {
    HeaderBytes(|payload|);
  }

  /** Each way a frame is refused, read off its first two bytes: too few, zero, above the cap, above the room, or cut short. */
  lemma RefusedExactly(bytes: Bytes, frameCap: nat, room: nat)
    ensures Parse(bytes, frameCap, room) == Refused(InvalidHeader) <==> |bytes| < 2
    ensures |bytes| >= 2 ==>
              var high: nat, low: nat := bytes[0], bytes[1];
              var n, parsed := 256 * high + low, Parse(bytes, frameCap, room);
              && (parsed == Refused(ZeroLengthFrame) <==> n == 0)
              && (parsed == Refused(FrameCapExceeded) <==> n > frameCap)
              && (parsed == Refused(ShortBuffer) <==> 0 < n <= frameCap && n > room)
              && (parsed == Refused(UnexpectedEnd) <==> 0 < n <= frameCap && n <= room && |bytes| - 2 < n)
              && (parsed.Parsed? <==> 0 < n <= frameCap && n <= room && n <= |bytes| - 2)
              && (parsed.Parsed? ==> |parsed.payload| == n && bytes[2..] == parsed.payload + parsed.rest)
  {
    if |bytes| >= 2 {
      DecodedPair(bytes[..2]);
      var high: nat, low: nat := bytes[0], bytes[1];
      var n := 256 * high + low;
      if n <= |bytes| - 2 { assert bytes[2..] == bytes[2..2 + n] + bytes[2 + n..]; }
    }
  }

  lemma {:induction false} FramesAppend(payloads: seq<Bytes>, payload: Bytes)
    ensures Frames(payloads + [payload]) == Frames(payloads) + Frame(payload)
  {
    if payloads == [] {
      assert payloads + [payload] == [payload];
    } else {
      assert (payloads + [payload])[1..] == payloads[1..] + [payload];
      FramesAppend(payloads[1..], payload);
    }
  }

  // ---- the connection ----

  class FramedConn {
    const adapter: Stream
    const frameCap: nat
    const writeHeader: array<byte>
    const readHeader: array<byte>

    ghost predicate Valid()
    {
      0 < frameCap <= MAX_FRAME_CAP && writeHeader.Length == 2 && readHeader.Length == 2
      && writeHeader != readHeader
    }

    constructor (adapter: Stream, frameCap: nat)
      requires 0 < frameCap <= MAX_FRAME_CAP
      ensures Valid() && this.adapter == adapter && this.frameCap == frameCap && fresh(writeHeader) && fresh(readHeader)
    {
      this.adapter, this.frameCap := adapter, frameCap;
      writeHeader := new byte[2];
      readHeader := new byte[2];
    }

    /** Writes all of p, however the adapter splits it, or fails with a prefix of it written. */
    method WriteFull(p: Bytes) returns (error: Option<FrameError>)
      modifies adapter`written, adapter`script
      ensures error == None ==> adapter.written == old(adapter.written) + p
      ensures old(adapter.written) <= adapter.written <= old(adapter.written) + p
      ensures Obliging(old(adapter.script)) ==> error == None && Obliging(adapter.script)
    {
      var rest := p;
      while rest != []
        invariant adapter.written + rest == old(adapter.written) + p
        invariant old(adapter.written) <= adapter.written
        invariant Obliging(old(adapter.script)) ==> Obliging(adapter.script)
        decreases |rest|
      {
        var n, failed := adapter.Write(rest);
        assert rest == rest[..n] + rest[n..];
        rest := rest[n..];
        if failed {
          return Some(Failed);
        }
        if n == 0 {
          return Some(ShortWrite);
        }
      }
      error := None;
    }

    /** Puts one frame on the stream. */
    method Write(data: Bytes) returns (r: Result<nat, FrameError>)
      requires Valid()
      modifies adapter`written, adapter`script, writeHeader
      ensures data == [] ==> r == Err(ZeroLengthFrame) && adapter.written == old(adapter.written)
      ensures |data| > frameCap ==> r == Err(FrameCapExceeded) && adapter.written == old(adapter.written)
      ensures r.Ok? ==> r.value == |data| && Sendable(data, frameCap) && adapter.written == old(adapter.written) + Frame(data)
      ensures old(adapter.written) <= adapter.written <= old(adapter.written) + Frame(data)
      ensures Obliging(old(adapter.script)) ==> Obliging(adapter.script) && (Sendable(data, frameCap) ==> r.Ok?)
    {
      if data == [] {
        return Err(ZeroLengthFrame);
      }
      if |data| > frameCap {
        return Err(FrameCapExceeded);
      }
      writeHeader[0], writeHeader[1] := |data| / 256, |data| % 256;
      assert writeHeader[..] == BigEndian(|data|, 2) by { HeaderBytes(|data|); }
      var error := WriteFull(writeHeader[..]);
      if error.Some? {
        return Err(error.value);
      }
      error := WriteFull(data);
      if error.Some? {
        return Err(error.value);
      }
      r := Ok(|data|);
    }

    /** Fills count bytes from as many reads as it takes. */
    method ReadFull(dst: array<byte>, count: nat) returns (ok: bool)
      requires count <= dst.Length
      modifies adapter`incoming, adapter`script, dst
      ensures ok ==> old(adapter.incoming) == dst[..count] + adapter.incoming
      ensures |old(adapter.incoming)| < count ==> !ok
      ensures Unfailing(old(adapter.script)) ==> Unfailing(adapter.script) && (ok <==> |old(adapter.incoming)| >= count)
    {
      var filled := 0;
      while filled < count
        invariant filled <= count
        invariant old(adapter.incoming) == dst[..filled] + adapter.incoming
        invariant Unfailing(old(adapter.script)) ==> Unfailing(adapter.script)
        decreases count - filled, |adapter.script|
      {
        var chunk, failed := adapter.Read(count - filled);
        ghost var was := dst[..filled];
        forall i | 0 <= i < |chunk| { dst[filled + i] := chunk[i]; }
        assert dst[..filled + |chunk|] == was + chunk;
        filled := filled + |chunk|;
        if failed && filled < count {
          return false;
        }
      }
      ok := true;
    }

    /** Reads one frame: the same as parsing the bytes that are still to come. */
    method Read(buffer: array<byte>) returns (r: Result<nat, FrameError>)
      requires Valid() && buffer != readHeader
      modifies adapter`incoming, adapter`script, readHeader, buffer
      ensures r.Ok? ==> r.value <= buffer.Length
                        && Parse(old(adapter.incoming), frameCap, buffer.Length) == Parsed(buffer[..r.value], adapter.incoming)
      ensures Unfailing(old(adapter.script)) ==>
                && Unfailing(adapter.script)
                && (r.Err? ==> Parse(old(adapter.incoming), frameCap, buffer.Length) == Refused(r.error))
      ensures r.Err? && r.error != InvalidHeader && r.error != UnexpectedEnd ==>
                Parse(old(adapter.incoming), frameCap, buffer.Length) == Refused(r.error)
    {
      ghost var bytes := adapter.incoming;
      var ok := ReadFull(readHeader, 2);
      if !ok {
        return Err(InvalidHeader);
      }
      var high: nat, low: nat := readHeader[0], readHeader[1];
      var length := 256 * high + low;
      assert bytes[..2] == readHeader[..] && adapter.incoming == bytes[2..];
      DecodedPair(readHeader[..]);
      if length == 0 {
        return Err(ZeroLengthFrame);
      }
      if length > frameCap {
        return Err(FrameCapExceeded);
      }
      if length > buffer.Length {
        return Err(ShortBuffer);
      }
      ok := ReadFull(buffer, length);
      if !ok {
        return Err(UnexpectedEnd);
      }
      assert bytes[2..] == buffer[..length] + adapter.incoming;
      r := Ok(length);
    }
  }

  lemma {:induction false} HeaderBytes(n: nat)
    requires n <= MAX_FRAME_CAP
    ensures BigEndian(n, 2) == [n / 256, n % 256]
  {
    assert BigEndian(n / 256, 1) == [n / 256 % 256];
  }

  // ---- the round trip ----

  /** Writes payloads one after another; stops at the first error. */
  method WriteAll(conn: FramedConn, payloads: seq<Bytes>) returns (ok: bool)
    requires conn.Valid() && forall i :: 0 <= i < |payloads| ==> Sendable(payloads[i], conn.frameCap)
    modifies conn.adapter`written, conn.adapter`script, conn.writeHeader
    ensures ok ==> conn.adapter.written == old(conn.adapter.written) + Frames(payloads)
    ensures Obliging(old(conn.adapter.script)) ==> ok && Obliging(conn.adapter.script)
  {
    for i := 0 to |payloads|
      invariant Obliging(old(conn.adapter.script)) ==> Obliging(conn.adapter.script)
      invariant conn.adapter.written == old(conn.adapter.written) + Frames(payloads[..i])
    {
      var r := conn.Write(payloads[i]);
      if r.Err? {
        return false;
      }
      assert payloads[..i + 1] == payloads[..i] + [payloads[i]];
      FramesAppend(payloads[..i], payloads[i]);
    }
    assert payloads[..|payloads|] == payloads;
    ok := true;
  }

  /**
   * However the stream splits the reads, successive reads of what was written return exactly
   * the payloads, in order; they stop early only if a read of the stream fails.
   */
  method ReadAll(conn: FramedConn, payloads: seq<Bytes>, rest: Bytes, buffer: array<byte>) returns (got: seq<Bytes>)
    requires conn.Valid() && buffer != conn.readHeader && buffer.Length >= conn.frameCap
    requires forall i :: 0 <= i < |payloads| ==> Sendable(payloads[i], conn.frameCap)
    requires conn.adapter.incoming == Frames(payloads) + rest
    modifies conn.adapter`incoming, conn.adapter`script, conn.readHeader, buffer
    ensures got <= payloads
    ensures got == payloads ==> conn.adapter.incoming == rest
    ensures Unfailing(old(conn.adapter.script)) ==> got == payloads
  {
    got := [];
    for i := 0 to |payloads|
      invariant got == payloads[..i] && conn.adapter.incoming == Frames(payloads[i..]) + rest
      invariant Unfailing(old(conn.adapter.script)) ==> Unfailing(conn.adapter.script)
    {
      ghost var tail := Frames(payloads[i + 1..]) + rest;
      assert payloads[i..][1..] == payloads[i + 1..];
      assert conn.adapter.incoming == Frame(payloads[i]) + tail;
      ParseFrame(payloads[i], tail, conn.frameCap, buffer.Length);
      var r := conn.Read(buffer);
      if r.Err? {
        return;
      }
      got := got + [buffer[..r.value]];
      assert payloads[..i + 1] == payloads[..i] + [payloads[i]];
    }
    assert payloads[..|payloads|] == payloads;
  }

  /** What one connection writes another reads back, with any splitting at either end. */
  method RoundTrip(sender: FramedConn, receiver: FramedConn, payloads: seq<Bytes>, buffer: array<byte>) returns (got: seq<Bytes>)
    requires sender.Valid() && receiver.Valid() && sender.adapter != receiver.adapter
    requires sender.frameCap <= receiver.frameCap <= buffer.Length
    requires buffer != receiver.readHeader && sender.writeHeader != receiver.readHeader
    requires forall i :: 0 <= i < |payloads| ==> Sendable(payloads[i], sender.frameCap)
    requires Obliging(sender.adapter.script) && Unfailing(receiver.adapter.script)
    requires sender.adapter.written == [] && receiver.adapter.incoming == []
    modifies sender.adapter, sender.writeHeader, receiver.adapter, receiver.readHeader, buffer
    ensures got == payloads && receiver.adapter.incoming == []
  {
    var ok := WriteAll(sender, payloads);
    receiver.adapter.incoming := sender.adapter.written;
    assert receiver.adapter.incoming == Frames(payloads) + [];
    got := ReadAll(receiver, payloads, [], buffer);
  }
}
