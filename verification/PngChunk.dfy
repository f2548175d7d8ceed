/** PNG chunks (section 5.3 of ISO/IEC 15948): length, type, data and check. */
module PngChunk {
  import opened Wrappers
  import opened Crc32
  import opened Bytes

  // ---- Words in network order ----

  function Length(n: nat): seq<Octet>
    requires n < LIMIT_32
  {
    [(n / 0x100_0000) as Octet, (n / 0x1_0000 % 256) as Octet, (n / 256 % 256) as Octet, (n % 256) as Octet]
  }

  function LengthAt(bytes: seq<Octet>): nat
    requires 4 <= |bytes|
  {
    bytes[0] as int * 0x100_0000 + bytes[1] as int * 0x1_0000 + bytes[2] as int * 256 + bytes[3] as int
  }

  lemma ByteRoundTrip(n: nat)
    requires n < 256
    ensures (n as Octet) as int == n
  {
    if n < 128 { if n < 64 {} else {} } else { if n < 192 {} else {} }
  }

  lemma LengthRoundTrip(n: nat)
    requires n < LIMIT_32
    ensures LengthAt(Length(n)) == n
  {
    FourDigits(n);
    ByteRoundTrip(n / 0x100_0000);
    ByteRoundTrip(n / 0x1_0000 % 256);
    ByteRoundTrip(n / 256 % 256);
    ByteRoundTrip(n % 256);
  }

  function BigEndian(w: bv32): seq<Octet> {
    [((w >> 24) & 0xff) as Octet, ((w >> 16) & 0xff) as Octet, ((w >> 8) & 0xff) as Octet, (w & 0xff) as Octet]
  }

  lemma BytesDiffer(a: bv32, b: bv32)
    requires a != b
    ensures BigEndian(a) != BigEndian(b)
  {
    if BigEndian(a) == BigEndian(b) {
      var s, t := BigEndian(a), BigEndian(b);
      assert s[0] == t[0] && s[1] == t[1] && s[2] == t[2] && s[3] == t[3];
      SameBytes(a, b);
    }
  }

  lemma SameBytes(a: bv32, b: bv32)
    requires (a >> 24) & 0xff == (b >> 24) & 0xff && (a >> 16) & 0xff == (b >> 16) & 0xff
    requires (a >> 8) & 0xff == (b >> 8) & 0xff && a & 0xff == b & 0xff
    ensures a == b
  {
  }

  // ---- Chunks ----

  datatype Chunk = Chunk(kind: seq<Octet>, data: seq<Octet>)

  predicate WellFormed(c: Chunk) {
    |c.kind| == 4 && |c.data| < LIMIT_32
  }

  function Encoded(c: Chunk): seq<Octet>
    requires WellFormed(c)
  {
    Length(|c.data|) + c.kind + c.data + BigEndian(Crc(c.kind + c.data))
  }

  datatype Parsed = Parsed(chunk: Chunk, rest: seq<Octet>)

  /** Read one chunk; a truncated chunk or a wrong check is refused. */
  function Parse(bytes: seq<Octet>): Option<Parsed> {
    if |bytes| < 12 || |bytes| < 12 + LengthAt(bytes) then None
    else
      var n := LengthAt(bytes);
      if bytes[8 + n..12 + n] != BigEndian(Crc(bytes[4..8 + n])) then None
      else Some(Parsed(Chunk(bytes[4..8], bytes[8..8 + n]), bytes[12 + n..]))
  }

  /** Write a chunk into a buffer of its own: length, type and data in place, then their check. */
  method MakeChunk(c: Chunk, table: seq<bv32>) returns (out: array<Octet>)
    requires WellFormed(c) && IsTable(table, Word32())
    ensures fresh(out) && out[..] == Encoded(c)
  {
    var end := 8 + |c.data|;
    out := MakeHead(c);
    var crc := ComputeCrc32(out[4..end], table);
    Put(out, end, BigEndian(crc));
    Joined(out[..], end);
  }

  lemma Joined(bytes: seq<Octet>, at: nat)
    requires at <= |bytes|
    ensures bytes == bytes[..at] + bytes[at..]
  {
  }

  method MakeHead(c: Chunk) returns (out: array<Octet>)
    requires WellFormed(c)
    ensures fresh(out) && out.Length == 12 + |c.data|
    ensures out[..8 + |c.data|] == Length(|c.data|) + c.kind + c.data
    ensures out[4..8 + |c.data|] == c.kind + c.data
  {
    var n := |c.data|;
    out := new Octet[12 + n];
    Put(out, 0, Length(n));
    assert out[..4] == out[0..4];
    Put(out, 4, c.kind);
    assert out[..8] == out[..4] + out[4..8];
    Put(out, 8, c.data);
    assert out[..8 + n] == out[..8] + out[8..8 + n];
    BodyOf(out[..8 + n], c);
    assert out[4..8 + n] == out[..8 + n][4..];
  }

  lemma BodyOf(head: seq<Octet>, c: Chunk)
    requires WellFormed(c) && head == Length(|c.data|) + c.kind + c.data
    ensures head[4..] == c.kind + c.data
  {
  }

  /** Copy bytes into a buffer, leaving the rest of it alone. */
  method Put(out: array<Octet>, at: nat, bytes: seq<Octet>)
    requires at + |bytes| <= out.Length
    modifies out
    ensures out[at..at + |bytes|] == bytes
    ensures out[..at] == old(out[..at]) && out[at + |bytes|..] == old(out[at + |bytes|..])
  {
    for i := 0 to |bytes|
      invariant out[at..at + i] == bytes[..i]
      invariant out[..at] == old(out[..at]) && out[at + i..] == old(out[at + i..])
    {
      assert old(out[at + i..])[1..] == old(out[at + i + 1..]);
      assert out[at + i..][1..] == out[at + i + 1..];
      out[at + i] := bytes[i];
      assert out[at..at + i + 1] == out[at..at + i] + [out[at + i]];
    }
    assert bytes[..|bytes|] == bytes;
  }

  // ---- Round trip ----

  lemma LengthFirst(n: nat, rest: seq<Octet>)
    requires n < LIMIT_32
    ensures LengthAt(Length(n) + rest) == n
  {
    LengthRoundTrip(n);
    var length, bytes := Length(n), Length(n) + rest;
    assert bytes[0] == length[0] && bytes[1] == length[1] && bytes[2] == length[2] && bytes[3] == length[3];
  }

  lemma Slices(length: seq<Octet>, body: seq<Octet>, check: seq<Octet>, rest: seq<Octet>, bytes: seq<Octet>)
    requires |length| == 4 && |body| >= 4 && |check| == 4 && bytes == length + body + check + rest
    ensures var n := |body| - 4;
            && |bytes| >= 12 + n && bytes == length + (body + check + rest)
            && bytes[4..8 + n] == body && bytes[8 + n..12 + n] == check && bytes[12 + n..] == rest
            && bytes[4..8] == body[..4] && bytes[8..8 + n] == body[4..]
  {
  }

  lemma LayoutOf(c: Chunk, body: seq<Octet>, check: seq<Octet>, rest: seq<Octet>, bytes: seq<Octet>)
    requires |c.data| < LIMIT_32 && |c.kind| == 4 && |body| == 4 + |c.data| && |check| == 4
    requires bytes == Length(|c.data|) + body + check + rest
    ensures var n := |c.data|;
            && |bytes| >= 12 + n && LengthAt(bytes) == n && bytes[4..8 + n] == body && bytes[12 + n..] == rest
            && bytes[8 + n..12 + n] == check
            && bytes[4..8] == body[..4] && bytes[8..8 + n] == body[4..]
  {
    Slices(Length(|c.data|), body, check, rest, bytes);
    LengthFirst(|c.data|, body + check + rest);
  }

  lemma ParseOf(bytes: seq<Octet>, n: nat, body: seq<Octet>, check: seq<Octet>, rest: seq<Octet>)
    requires |bytes| >= 12 + n && LengthAt(bytes) == n && |body| == 4 + n && bytes[4..8 + n] == body && bytes[12 + n..] == rest
    requires bytes[8 + n..12 + n] == check && bytes[4..8] == body[..4] && bytes[8..8 + n] == body[4..]
    ensures Parse(bytes) == if check == BigEndian(Crc(body)) then Some(Parsed(Chunk(body[..4], body[4..]), rest)) else None
  {
  }

  lemma ParseBytes(c: Chunk, rest: seq<Octet>)
    requires WellFormed(c)
    ensures Parse(Encoded(c) + rest) == Some(Parsed(c, rest))
  {
    var body := c.kind + c.data;
    var check := BigEndian(Crc(body));
    var bytes := Length(|c.data|) + body + check + rest;
    assert Encoded(c) + rest == bytes;
    LayoutOf(c, body, check, rest, bytes);
    ParseOf(bytes, |c.data|, body, check, rest);
    assert body[..4] == c.kind && body[4..] == c.data;
  }

  function AllBytes(chunks: seq<Chunk>): seq<Octet>
    requires forall c <- chunks :: WellFormed(c)
  {
    if chunks == [] then [] else Encoded(chunks[0]) + AllBytes(chunks[1..])
  }

  function ParseAll(bytes: seq<Octet>): Option<seq<Chunk>>
    decreases |bytes|
  {
    if bytes == [] then Some([])
    else
      var first := Parse(bytes);
      if first.None? then None
      else
        var others := ParseAll(first.value.rest);
        if others.None? then None else Some([first.value.chunk] + others.value)
  }

  lemma ParseAllNext(bytes: seq<Octet>, chunk: Chunk, rest: seq<Octet>, others: seq<Chunk>)
    requires Parse(bytes) == Some(Parsed(chunk, rest)) && ParseAll(rest) == Some(others)
    ensures ParseAll(bytes) == Some([chunk] + others)
  {
  }

  lemma WordBytes(w: bv32, s: seq<Octet>)
    requires s == BigEndian(w)
    ensures (s[0] as bv32 << 24) | (s[1] as bv32 << 16) | (s[2] as bv32 << 8) | s[3] as bv32 == w
  {
    assert s[0] as bv32 == (w >> 24) & 0xff && s[1] as bv32 == (w >> 16) & 0xff && s[2] as bv32 == (w >> 8) & 0xff && s[3] as bv32 == w & 0xff;
  }

  /** A chunk byte by byte: the length, most significant byte first; type and data as they are; and the
      check of both, most significant byte first. */
  lemma ChunkByteByByte(c: Chunk, s: seq<Octet>)
    requires WellFormed(c) && s == Encoded(c)
    ensures |s| == 12 + |c.data|
    ensures s[0] as int * 0x100_0000 + s[1] as int * 0x1_0000 + s[2] as int * 256 + s[3] as int == |c.data|
    ensures s[4..8] == c.kind && s[8..8 + |c.data|] == c.data
    ensures var e := s[8 + |c.data|..];
            (e[0] as bv32 << 24) | (e[1] as bv32 << 16) | (e[2] as bv32 << 8) | e[3] as bv32 == Crc(c.kind + c.data)
  {
    var check := BigEndian(Crc(c.kind + c.data));
    LaidOut(Length(|c.data|), c.kind, c.data, check, s);
    LengthFirst(|c.data|, c.kind + c.data + check);
    WordBytes(Crc(c.kind + c.data), check);
  }

  lemma LaidOut(length: seq<Octet>, kind: seq<Octet>, data: seq<Octet>, check: seq<Octet>, s: seq<Octet>)
    requires |length| == 4 && |kind| == 4 && |check| == 4 && s == length + kind + data + check
    ensures |s| == 12 + |data| && s == length + (kind + data + check)
    ensures s[4..8] == kind && s[8..8 + |data|] == data && s[8 + |data|..] == check
  {
  }

  /** Whatever chunks are written one after the other are read back, and nothing else. */
  lemma {:induction false} ChunksRoundTrip(chunks: seq<Chunk>)
    requires forall c <- chunks :: WellFormed(c)
    ensures ParseAll(AllBytes(chunks)) == Some(chunks)
  {
    if chunks != [] {
      ParseBytes(chunks[0], AllBytes(chunks[1..]));
      ChunksRoundTrip(chunks[1..]);
      ParseAllNext(AllBytes(chunks), chunks[0], AllBytes(chunks[1..]), chunks[1..]);
      assert chunks == [chunks[0]] + chunks[1..];
    }
  }

  /** A chunk whose type and data were changed within 32 consecutive bits is refused. */
  lemma CorruptionIsRefused(c: Chunk, changed: seq<Octet>, rest: seq<Octet>,
                            before: seq<bv32>, u: seq<bv32>, v: seq<bv32>, after: seq<bv32>)
    requires WellFormed(c) && |changed| == 4 + |c.data|
    requires AllBits(c.kind + c.data) == before + u + after && AllBits(changed) == before + v + after
    requires |u| == |v| <= 32 && u != v
    ensures Parse(Length(|c.data|) + changed + BigEndian(Crc(c.kind + c.data)) + rest) == None
  {
    BurstIsDetected(c.kind + c.data, changed, before, u, v, after);
    BytesDiffer(Crc(c.kind + c.data), Crc(changed));
    ChangedBodyIsRefused(c, changed, BigEndian(Crc(c.kind + c.data)), rest);
  }

  /** A chunk with one byte of its type or data changed is refused. */
  lemma OneByteCorruptionIsRefused(c: Chunk, changed: seq<Octet>, i: nat, rest: seq<Octet>)
    requires WellFormed(c) && |changed| == 4 + |c.data| && i < |changed|
    requires changed[i] != (c.kind + c.data)[i]
    requires changed[..i] == (c.kind + c.data)[..i] && changed[i + 1..] == (c.kind + c.data)[i + 1..]
    ensures Parse(Length(|c.data|) + changed + BigEndian(Crc(c.kind + c.data)) + rest) == None
  {
    var body, check := c.kind + c.data, BigEndian(Crc(c.kind + c.data));
    OneByteIsDetected(body, changed, i);
    BytesDiffer(Crc(body), Crc(changed));
    ChangedBodyIsRefused(c, changed, check, rest);
  }

  lemma ChangedBodyIsRefused(c: Chunk, changed: seq<Octet>, check: seq<Octet>, rest: seq<Octet>)
    requires WellFormed(c) && |changed| == 4 + |c.data| && |check| == 4 && check != BigEndian(Crc(changed))
    ensures Parse(Length(|c.data|) + changed + check + rest) == None
  {
    var bytes := Length(|c.data|) + changed + check + rest;
    LayoutOf(c, changed, check, rest, bytes);
    ParseOf(bytes, |c.data|, changed, check, rest);
  }

  /** So is one with any change in the check itself. */
  lemma CheckCorruptionIsRefused(c: Chunk, check: seq<Octet>, rest: seq<Octet>)
    requires WellFormed(c) && |check| == 4 && check != BigEndian(Crc(c.kind + c.data))
    ensures Parse(Length(|c.data|) + (c.kind + c.data) + check + rest) == None
  {
    ChangedBodyIsRefused(c, c.kind + c.data, check, rest);
  }
}
