/** Byte cursors of src/transceiver/byte_io.rs.

Bytes and 16-bit words are bounded integers. The pure functions describe the data
representation of MQTT (big-endian words and length-prefixed arrays); the two classes are
the mutable cursors the codec drives, specified against those functions. */
module ByteIo {
  import opened Wrappers

  type byte = b: int | 0 <= b < 256
  type u16 = n: int | 0 <= n < 65536

  datatype DecodeError =
    | ReachedEndUnexpectedly
    | Utf8Error
    | MalformedPacket
    | ReachedMaxSize
    | InvalidPacketId(id: byte)
    | AssertionFailed  // an `assert!` of a decoder that only exists in the test broker

  // ----- Data representation -----

  function BigEndian(n: u16): (s: seq<byte>)
    ensures |s| == 2
  {
    [n / 256, n % 256]
  }

  function Word(hi: byte, lo: byte): (n: u16)
    ensures BigEndian(n) == [hi, lo]
  {
    hi as int * 256 + lo as int
  }

  function Prefixed(a: seq<byte>): (s: seq<byte>)
    requires |a| < 65536
    ensures |s| == 2 + |a|
  {
    BigEndian(|a|) + a
  }

  predicate Continuation(b: byte) { 0x80 <= b <= 0xBF }

  /** Well-formed UTF-8, as accepted by `str::from_utf8`. */
  predicate Utf8(s: seq<byte>)
    decreases |s|
  {
    if s == [] then true
    else if s[0] < 0x80 then Utf8(s[1..])
    else if 0xC2 <= s[0] <= 0xDF then |s| >= 2 && Continuation(s[1]) && Utf8(s[2..])
    else if 0xE0 <= s[0] <= 0xEF then
      && |s| >= 3 && Continuation(s[1]) && Continuation(s[2])
      && (s[0] == 0xE0 ==> 0xA0 <= s[1]) && (s[0] == 0xED ==> s[1] <= 0x9F)
      && Utf8(s[3..])
    else if 0xF0 <= s[0] <= 0xF4 then
      && |s| >= 4 && Continuation(s[1]) && Continuation(s[2]) && Continuation(s[3])
      && (s[0] == 0xF0 ==> 0x90 <= s[1]) && (s[0] == 0xF4 ==> s[1] <= 0x8F)
      && Utf8(s[4..])
    else false
  }

  lemma Assoc<T>(a: seq<T>, b: seq<T>, c: seq<T>)
    ensures (a + b) + c == a + (b + c)
  {
  }

  // ----- What a read at the front of a slice yields: the value and the rest -----

  type Taken<T> = Result<(T, seq<byte>), DecodeError>

  function TakeU8(s: seq<byte>): (r: Taken<byte>)
    ensures r.Ok? <==> |s| >= 1
    ensures r.Ok? ==> s == [r.value.0] + r.value.1
  {
    if |s| < 1 then Err(ReachedEndUnexpectedly) else Ok((s[0], s[1..]))
  }

  function TakeU16(s: seq<byte>): (r: Taken<u16>)
    ensures r.Ok? <==> |s| >= 2
    ensures r.Ok? ==> s == BigEndian(r.value.0) + r.value.1
  {
    if |s| < 2 then Err(ReachedEndUnexpectedly) else
      assert s == [s[0], s[1]] + s[2..];
      Ok((Word(s[0], s[1]), s[2..]))
  }

  function TakeByteArray(s: seq<byte>): (r: Taken<seq<byte>>)
    ensures r.Ok? <==> |s| >= 2 && |s| >= 2 + Word(s[0], s[1])
    ensures r.Ok? ==> |r.value.0| < 65536 && s == Prefixed(r.value.0) + r.value.1
  {
    match TakeU16(s)
    case Err(e) => Err(e)
    case Ok((len, rest)) =>
      if |rest| < len then Err(ReachedEndUnexpectedly) else Ok((rest[..len], rest[len..]))
  }

  function TakeUtf8(s: seq<byte>): (r: Taken<seq<byte>>)
    ensures r.Ok? ==> Utf8(r.value.0) && |r.value.0| < 65536 && s == Prefixed(r.value.0) + r.value.1
  {
    match TakeByteArray(s)
    case Err(e) => Err(e)
    case Ok((a, rest)) => if Utf8(a) then Ok((a, rest)) else Err(Utf8Error)
  }

  /** Reading undoes writing, whatever follows in the slice. */
  lemma TakeU16Inverts(n: u16, rest: seq<byte>)
    ensures TakeU16(BigEndian(n) + rest) == Ok((n, rest))
  {
    assert (BigEndian(n) + rest)[2..] == rest;
  }

  lemma TakeByteArrayInverts(a: seq<byte>, rest: seq<byte>)
    requires |a| < 65536
    ensures TakeByteArray(Prefixed(a) + rest) == Ok((a, rest))
  {
    assert Prefixed(a) + rest == BigEndian(|a|) + (a + rest);
    TakeU16Inverts(|a|, a + rest);
    assert (a + rest)[..|a|] == a && (a + rest)[|a|..] == rest;
  }

  lemma TakeUtf8Inverts(a: seq<byte>, rest: seq<byte>)
    requires |a| < 65536 && Utf8(a)
    ensures TakeUtf8(Prefixed(a) + rest) == Ok((a, rest))
  {
    TakeByteArrayInverts(a, rest);
  }

  /** A cursor over a received slice; every read moves the front of `rest`. */
  class ByteReader {
    var rest: seq<byte>

    constructor (bytes: seq<byte>)
      ensures rest == bytes
    {
      rest := bytes;
    }

    method ReadU8() returns (r: Result<byte, DecodeError>)
      modifies this
      ensures match TakeU8(old(rest))
              case Ok((b, tail)) => r == Ok(b) && rest == tail
              case Err(e) => r == Err(e) && rest == old(rest)
    {
      if |rest| < 1 {
        return Err(ReachedEndUnexpectedly);
      }
      r := Ok(rest[0]);
      rest := rest[1..];
    }

    method ReadU16() returns (r: Result<u16, DecodeError>)
      modifies this
      ensures match TakeU16(old(rest))
              case Ok((n, tail)) => r == Ok(n) && rest == tail
              case Err(e) => r == Err(e) && rest == old(rest)
    {
      if |rest| < 2 {
        return Err(ReachedEndUnexpectedly);
      }
      r := Ok(Word(rest[0], rest[1]));
      rest := rest[2..];
    }

    /** If the array does not fit, its length word has already been consumed. */
    method ReadByteArray() returns (r: Result<seq<byte>, DecodeError>)
      modifies this
      ensures match TakeByteArray(old(rest))
              case Ok((a, tail)) => r == Ok(a) && rest == tail
              case Err(e) => r == Err(e) && rest == if |old(rest)| < 2 then old(rest) else old(rest)[2..]
    {
      var len := ReadU16();
      if len.Err? {
        return Err(len.error);
      }
      if |rest| < len.value {
        return Err(ReachedEndUnexpectedly);
      }
      r := Ok(rest[..len.value]);
      rest := rest[len.value..];
    }

    /** A string that is not UTF-8 has been consumed when that is found. */
    method ReadUtf8() returns (r: Result<seq<byte>, DecodeError>)
      modifies this
      ensures match TakeUtf8(old(rest))
              case Ok((a, tail)) => r == Ok(a) && rest == tail
              case Err(e) =>
                && r == Err(e)
                && rest == match TakeByteArray(old(rest))
                           case Ok((_, tail)) => tail
                           case Err(_) => if |old(rest)| < 2 then old(rest) else old(rest)[2..]
    {
      r := ReadByteArray();
      if r.Ok? && !Utf8(r.value) {
        r := Err(Utf8Error);
      }
    }

    method ReadRemaining() returns (r: seq<byte>)
      modifies this
      ensures r == old(rest) && rest == []
    {
      r := rest;
      rest := [];
    }
  }

  /** A cursor that fills a buffer from `pos` to its end; `done` is everything before `pos`.
  The preconditions are the assertions of the source: a write that does not fit, or an
  array whose length does not fit 16 bits, panics there. */
  class ByteWriter {
    const buf: array<byte>
    var pos: nat
    ghost var done: seq<byte>

    constructor (buf: array<byte>, start: nat)
      requires start <= buf.Length
      ensures this.buf == buf && pos == start && done == buf[..start] && Valid()
    {
      this.buf := buf;
      pos := start;
      done := buf[..start];
    }

    ghost predicate Valid()
      reads this, buf
    {
      pos == |done| <= buf.Length && buf[..pos] == done
    }

    method WriteU8(b: byte)
      requires Valid() && pos + 1 <= buf.Length
      modifies this, buf
      ensures Valid() && done == old(done) + [b] && buf[pos..] == old(buf[pos..])[1..]
    {
      buf[pos] := b;
      pos := pos + 1;
      done := done + [b];
    }

    method WriteBytesNoLen(bytes: seq<byte>)
      requires Valid() && pos + |bytes| <= buf.Length
      modifies this, buf
      ensures Valid() && done == old(done) + bytes && buf[pos..] == old(buf[pos..])[|bytes|..]
    {
      for i := 0 to |bytes|
        invariant pos == old(pos) && done == old(done)
        invariant buf[..pos] == done
        invariant buf[pos..pos + i] == bytes[..i]
        invariant buf[pos + i..] == old(buf[pos..])[i..]
      {
        buf[pos + i] := bytes[i];
      }
      done := done + bytes;
      assert buf[..pos + |bytes|] == buf[..pos] + buf[pos..pos + |bytes|];
      pos := pos + |bytes|;
    }

    method WriteU16(n: u16)
      requires Valid() && pos + 2 <= buf.Length
      modifies this, buf
      ensures Valid() && done == old(done) + BigEndian(n) && buf[pos..] == old(buf[pos..])[2..]
    {
      WriteU8(n / 256);
      WriteU8(n % 256);
    }

    method WriteBytes(bytes: seq<byte>)
      requires |bytes| < 65536
      requires Valid() && pos + 2 + |bytes| <= buf.Length
      modifies this, buf
      ensures Valid() && done == old(done) + Prefixed(bytes) && buf[pos..] == old(buf[pos..])[2 + |bytes|..]
    {
      WriteU16(|bytes|);
      WriteBytesNoLen(bytes);
      Assoc(old(done), BigEndian(|bytes|), bytes);
    }
  }
}
