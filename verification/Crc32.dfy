/** The table-driven cyclic redundancy check of PNG chunks (section 5.5 of ISO/IEC 15948), against its
    definition one bit at a time. */
module Crc32 {
  import opened LinearRegister

  type Octet = bv8

  /** The generator polynomial, least significant bit first. */
  const GENERATOR: bv32 := 0xedb88320

  /** Divide by x: shift, and subtract the generator if a term falls out. */
  function Shift(c: bv32): bv32 {
    if c & 1 == 0 then c >> 1 else GENERATOR ^ (c >> 1)
  }

  /** Undo one shift: the generator was subtracted exactly if the highest bit is set. */
  function Unshift(d: bv32): bv32 {
    if d & 0x8000_0000 != 0 then ((d ^ GENERATOR) << 1) | 1 else d << 1
  }

  function Word32(): Register<bv32> {
    Register((a: bv32, b: bv32) => a ^ b, 0, (c: bv32) => Shift(c), (d: bv32) => Unshift(d))
  }

  // ---- The definition, bit by bit ----

  /** The lowest `n` bits of a word, least significant first. */
  function BitsFrom(w: bv32, n: nat): seq<bv32>
    decreases n
  {
    if n == 0 then [] else [w & 1] + BitsFrom(w >> 1, n - 1)
  }

  function AllBits(bytes: seq<Octet>): seq<bv32> {
    if bytes == [] then [] else BitsFrom(bytes[0] as bv32, 8) + AllBits(bytes[1..])
  }

  /** The register starts with ones, takes the message bit by bit, and is complemented. */
  function Crc(bytes: seq<Octet>): bv32 {
    Push(Word32(), 0xffff_ffff, AllBits(bytes)) ^ 0xffff_ffff
  }

  // ---- The register is lawful ----

  lemma XorLaws(a: bv32, b: bv32, c: bv32)
    ensures (a ^ b) ^ c == a ^ (b ^ c) && a ^ b == b ^ a && a ^ a == 0 && a ^ 0 == a
  {
  }

  lemma NeitherFalls(a: bv32, b: bv32)
    requires a & 1 == 0 && b & 1 == 0
    ensures Shift(a ^ b) == Shift(a) ^ Shift(b)
  {
  }

  lemma FirstFalls(a: bv32, b: bv32)
    requires a & 1 != 0 && b & 1 == 0
    ensures Shift(a ^ b) == Shift(a) ^ Shift(b)
  {
  }

  lemma SecondFalls(a: bv32, b: bv32)
    requires a & 1 == 0 && b & 1 != 0
    ensures Shift(a ^ b) == Shift(a) ^ Shift(b)
  {
  }

  lemma BothFall(a: bv32, b: bv32)
    requires a & 1 != 0 && b & 1 != 0
    ensures Shift(a ^ b) == Shift(a) ^ Shift(b)
  {
  }

  lemma ShiftXor(a: bv32, b: bv32)
    ensures Shift(a ^ b) == Shift(a) ^ Shift(b)
  {
    if a & 1 == 0 {
      if b & 1 == 0 { NeitherFalls(a, b); } else { SecondFalls(a, b); }
    } else {
      if b & 1 == 0 { FirstFalls(a, b); } else { BothFall(a, b); }
    }
  }

  lemma UnshiftShift(c: bv32)
    ensures Unshift(Shift(c)) == c
  {
  }

  lemma XorIs(r: Register<bv32>, a: bv32, b: bv32)
    requires r == Word32()
    ensures r.xor(a, b) == a ^ b
  {
  }

  lemma ShiftIs(r: Register<bv32>, a: bv32)
    requires r == Word32()
    ensures r.shift(a) == Shift(a)
  {
  }

  lemma UnshiftIs(r: Register<bv32>, a: bv32)
    requires r == Word32()
    ensures r.unshift(r.shift(a)) == a
  {
    UnshiftShift(a);
  }

  lemma XorShiftIs(r: Register<bv32>, a: bv32, b: bv32)
    requires r == Word32()
    ensures r.shift(r.xor(a, b)) == r.xor(r.shift(a), r.shift(b))
  {
    ShiftXor(a, b);
    XorIs(r, a, b);
    ShiftIs(r, a);
    ShiftIs(r, b);
    ShiftIs(r, a ^ b);
    XorIs(r, Shift(a), Shift(b));
  }

  lemma GroupLaws(r: Register<bv32>, a: bv32, b: bv32, c: bv32)
    requires r == Word32()
    ensures r.xor(r.xor(a, b), c) == r.xor(a, r.xor(b, c)) && r.xor(a, b) == r.xor(b, a)
    ensures r.xor(a, a) == r.zero && r.xor(a, r.zero) == a
  {
    XorLaws(a, b, c);
  }

  lemma WordLaws(r: Register<bv32>, a: bv32, b: bv32, c: bv32)
    requires r == Word32()
    ensures Laws(r, a, b, c)
  {
    GroupLaws(r, a, b, c);
    XorShiftIs(r, a, b);
    UnshiftIs(r, a);
  }

  // What else the proofs need of the register; each fact is used only where it is named.

  ghost predicate XorAt(r: Register<bv32>, a: bv32, b: bv32) {
    r.xor(a, b) == a ^ b
  }

  ghost predicate EvenAt(r: Register<bv32>, x: bv32) {
    x & 1 == 0 ==> r.shift(x) == x >> 1
  }

  /** Adding a word and shifting: add its lowest bit, shift, add the rest. */
  ghost predicate HalvesAt(r: Register<bv32>, c: bv32, w: bv32) {
    r.shift(r.xor(c, w)) == r.xor(r.shift(r.xor(c, w & 1)), w >> 1)
  }

  ghost predicate IsWord(r: Register<bv32>) {
    && Lawful(r) && r.zero == 0
    && (forall a, b :: XorAt(r, a, b))
    && (forall x :: EvenAt(r, x))
    && (forall c, w :: HalvesAt(r, c, w))
  }

  lemma EvenIs(r: Register<bv32>, x: bv32)
    requires r == Word32()
    ensures EvenAt(r, x)
  {
    ShiftIs(r, x);
  }

  lemma UpIsEven(w: bv32, rest: bv32, up: bv32)
    requires rest == w >> 1 && up == rest << 1
    ensures up & 1 == 0
  {
  }

  lemma UpComesDown(w: bv32, rest: bv32, up: bv32)
    requires rest == w >> 1 && up == rest << 1
    ensures up >> 1 == rest
  {
  }

  lemma LowAndUp(w: bv32, bit: bv32, rest: bv32, up: bv32)
    requires bit == w & 1 && rest == w >> 1 && up == rest << 1
    ensures w == bit ^ up
  {
  }

  /** The lowest bit of a word, and the rest one place up. */
  lemma Split(w: bv32) returns (bit: bv32, rest: bv32, up: bv32)
    ensures bit == w & 1 && rest == w >> 1
    ensures w == bit ^ up
    ensures up & 1 == 0
    ensures up >> 1 == rest
  {
    bit := w & 1;
    rest := w >> 1;
    up := rest << 1;
    UpIsEven(w, rest, up);
    UpComesDown(w, rest, up);
    LowAndUp(w, bit, rest, up);
  }

  lemma Regroup(c: bv32, bit: bv32, up: bv32, w: bv32)
    requires w == bit ^ up
    ensures c ^ w == (c ^ bit) ^ up
  {
  }

  lemma HalvesIs(r: Register<bv32>, c: bv32, w: bv32)
    requires r == Word32()
    ensures HalvesAt(r, c, w)
  {
    var bit, rest, up := Split(w);
    Regroup(c, bit, up, w);
    HalvesFrom(r, c, w, bit, c ^ bit, up, rest);
  }

  lemma HalvesFrom(r: Register<bv32>, c: bv32, w: bv32, bit: bv32, low: bv32, up: bv32, rest: bv32)
    requires r == Word32() && low == c ^ bit && c ^ w == low ^ up && up & 1 == 0 && up >> 1 == rest
    ensures r.shift(r.xor(c, w)) == r.xor(r.shift(r.xor(c, bit)), rest)
  {
    XorIs(r, c, w);
    XorIs(r, c, bit);
    XorIs(r, low, up);
    XorShiftIs(r, low, up);
    EvenIs(r, up);
  }

  lemma WordIs()
    ensures IsWord(Word32())
  {
    var r := Word32();
    forall a: bv32, b: bv32, c: bv32 ensures Laws(r, a, b, c) {
      WordLaws(r, a, b, c);
    }
    forall a: bv32, b: bv32 ensures XorAt(r, a, b) {
      XorIs(r, a, b);
    }
    forall x: bv32 ensures EvenAt(r, x) {
      EvenIs(r, x);
    }
    forall c: bv32, w: bv32 ensures HalvesAt(r, c, w) {
      HalvesIs(r, c, w);
    }
  }

  // ---- Feeding bits is shifting ----

  /** Only the lowest `n` bits of a word can be set. */
  predicate FitsIn(w: bv32, n: nat)
    decreases n
  {
    if n == 0 then w == 0 else FitsIn(w >> 1, n - 1)
  }

  lemma {:induction false} PushBits(r: Register<bv32>, c: bv32, w: bv32, n: nat)
    requires IsWord(r) && FitsIn(w, n)
    ensures Push(r, c, BitsFrom(w, n)) == Shifts(r, r.xor(c, w), n)
    decreases n
  {
    if n == 0 {
      assert Laws(r, c, c, c);
    } else {
      assert HalvesAt(r, c, w);
      var bits := BitsFrom(w, n);
      assert bits[0] == w & 1 && bits[1..] == BitsFrom(w >> 1, n - 1);
      PushBits(r, r.shift(r.xor(c, w & 1)), w >> 1, n - 1);
    }
  }

  // ---- The table ----

  function Down(x: bv32, n: nat): bv32
    decreases n
  {
    if n == 0 then x else Down(x >> 1, n - 1)
  }

  predicate EvenRun(x: bv32, n: nat)
    decreases n
  {
    n == 0 || (x & 1 == 0 && EvenRun(x >> 1, n - 1))
  }

  /** While zeros fall out, shifting only moves down. */
  lemma {:induction false} EvenShifts(r: Register<bv32>, x: bv32, n: nat)
    requires IsWord(r) && EvenRun(x, n)
    ensures Shifts(r, x, n) == Down(x, n)
    decreases n
  {
    if n > 0 {
      assert EvenAt(r, x);
      EvenShifts(r, x >> 1, n - 1);
    }
  }

  lemma LowZeroRuns(x: bv32)
    requires x & 0xff == 0
    ensures EvenRun(x, 8)
  {
    assert EvenRun(x >> 1 >> 1 >> 1 >> 1, 4);
    assert EvenRun(x, 4);
  }

  lemma EightDown(x: bv32)
    ensures Down(x, 8) == x >> 8
  {
    assert Down(x >> 1 >> 1 >> 1 >> 1, 4) == x >> 8;
  }

  lemma LowByteZero(x: bv32, high: bv32)
    requires high == x & 0xffff_ff00
    ensures high & 0xff == 0
    ensures high >> 8 == x >> 8
  {
  }

  lemma ByteAndHigh(x: bv32, low: bv32, high: bv32)
    requires low == x & 0xff && high == x & 0xffff_ff00
    ensures x == low ^ high
  {
  }

  lemma SplitByte(x: bv32) returns (low: bv32, rest: bv32, high: bv32)
    ensures low == x & 0xff && rest == x >> 8
    ensures x == low ^ high
    ensures EvenRun(high, 8)
    ensures Down(high, 8) == rest
  {
    low := x & 0xff;
    rest := x >> 8;
    high := x & 0xffff_ff00;
    LowByteZero(x, high);
    ByteAndHigh(x, low, high);
    LowZeroRuns(high);
    EightDown(high);
  }

  /** Eight shifts: look the low byte up, move the rest down. */
  lemma {:induction false} EightShifts(r: Register<bv32>, x: bv32, low: bv32, rest: bv32, high: bv32)
    requires IsWord(r) && x == low ^ high && EvenRun(high, 8) && Down(high, 8) == rest
    ensures Shifts(r, x, 8) == r.xor(Shifts(r, low, 8), rest)
  {
    assert XorAt(r, low, high);
    EvenShifts(r, high, 8);
    ShiftsXor(r, low, high, 8);
  }

  /** Entry `n` is what eight shifts make of `n`. */
  ghost predicate IsTable(table: seq<bv32>, r: Register<bv32>) {
    |table| == 256 && forall n | 0 <= n < 256 :: table[n] == Shifts(r, n as bv32, 8)
  }

  method ShiftOnce(c: bv32, ghost r: Register<bv32>) returns (d: bv32)
    requires r == Word32()
    ensures d == r.shift(c)
  {
    ShiftIs(r, c);
    d := if c & 1 == 0 then c >> 1 else 0xedb88320 ^ (c >> 1);
  }

  method TableEntry(n: bv32, ghost r: Register<bv32>) returns (c: bv32)
    requires r == Word32()
    ensures c == Shifts(r, n, 8)
  {
    c := n;
    for k := 0 to 8
      invariant Shifts(r, c, 8 - k) == Shifts(r, n, 8)
    {
      c := ShiftOnce(c, r);
    }
  }

  method MakeCrcTable(ghost r: Register<bv32>) returns (table: seq<bv32>)
    requires r == Word32()
    ensures IsTable(table, r)
  {
    table := [];
    for n := 0 to 256
      invariant |table| == n
      invariant forall m | 0 <= m < n :: table[m] == Shifts(r, m as bv32, 8)
    {
      var entry := TableEntry(n as bv32, r);
      table := table + [entry];
    }
  }

  lemma ByteFits(b: Octet)
    ensures FitsIn(b as bv32, 8)
  {
    assert FitsIn(b as bv32 >> 1 >> 1 >> 1 >> 1, 4);
  }

  lemma ByteLeavesHigh(c: bv32, b: Octet)
    ensures (c ^ b as bv32) >> 8 == c >> 8
  {
  }

  lemma LowByte(x: bv32) returns (low: bv32)
    ensures low == x & 0xff && low <= 0xff
  {
    low := x & 0xff;
  }

  lemma ByteIndex(low: bv32)
    requires low <= 0xff
    ensures low as int < 256
    ensures (low as int) as bv32 == low
  {
  }

  lemma {:induction false} NextFrom(r: Register<bv32>, c: bv32, w: bv32, low: bv32, rest: bv32, high: bv32)
    requires IsWord(r) && FitsIn(w, 8) && r.xor(c, w) == low ^ high && EvenRun(high, 8) && Down(high, 8) == rest
    ensures Push(r, c, BitsFrom(w, 8)) == r.xor(Shifts(r, low, 8), rest)
  {
    PushBits(r, c, w, 8);
    EightShifts(r, low ^ high, low, rest, high);
  }

  lemma {:induction false} NextIs(r: Register<bv32>, c: bv32, b: Octet, entry: bv32)
    requires IsWord(r) && entry == Shifts(r, (c ^ b as bv32) & 0xff, 8)
    ensures Push(r, c, BitsFrom(b as bv32, 8)) == r.xor(entry, c >> 8)
  {
    ByteFits(b);
    assert XorAt(r, c, b as bv32);
    var low, rest, high := SplitByte(c ^ b as bv32);
    ByteLeavesHigh(c, b);
    NextFrom(r, c, b as bv32, low, rest, high);
  }

  method Lookup(table: seq<bv32>, x: bv32, ghost r: Register<bv32>) returns (entry: bv32)
    requires IsTable(table, r)
    ensures entry == Shifts(r, x & 0xff, 8)
  {
    ghost var low := LowByte(x);
    ByteIndex(low);
    entry := table[(x & 0xff) as int];
  }

  method Combine(entry: bv32, rest: bv32, ghost r: Register<bv32>) returns (d: bv32)
    requires IsWord(r)
    ensures d == r.xor(entry, rest)
  {
    assert XorAt(r, entry, rest);
    d := entry ^ rest;
  }

  method NextRegister(c: bv32, b: Octet, table: seq<bv32>, ghost r: Register<bv32>) returns (d: bv32)
    requires IsTable(table, r) && IsWord(r)
    ensures d == Push(r, c, BitsFrom(b as bv32, 8))
  {
    var entry := Lookup(table, c ^ b as bv32, r);
    NextIs(r, c, b, entry);
    d := Combine(entry, c >> 8, r);
  }

  lemma {:induction false} FeedByte(r: Register<bv32>, c: bv32, bytes: seq<Octet>, i: nat)
    requires i < |bytes|
    ensures Push(r, c, AllBits(bytes[i..])) == Push(r, Push(r, c, BitsFrom(bytes[i] as bv32, 8)), AllBits(bytes[i + 1..]))
  {
    assert bytes[i..][1..] == bytes[i + 1..];
    PushConcat(r, c, BitsFrom(bytes[i] as bv32, 8), AllBits(bytes[i + 1..]));
  }

  lemma CrcIs(r: Register<bv32>, bytes: seq<Octet>)
    requires r == Word32()
    ensures Crc(bytes) == Push(r, 0xffff_ffff, AllBits(bytes)) ^ 0xffff_ffff
    ensures IsWord(r)
  {
    WordIs();
  }

  method FeedAll(buf: seq<Octet>, start: bv32, table: seq<bv32>, ghost r: Register<bv32>) returns (c: bv32)
    requires IsTable(table, r) && IsWord(r)
    ensures c == Push(r, start, AllBits(buf))
  {
    c := start;
    assert buf[0..] == buf;
    for i := 0 to |buf|
      invariant Push(r, c, AllBits(buf[i..])) == Push(r, start, AllBits(buf))
    {
      FeedByte(r, c, buf, i);
      c := NextRegister(c, buf[i], table, r);
    }
    assert buf[|buf|..] == [];
  }

  /** The table loop computes the bit-by-bit definition. */
  method ComputeCrc32(buf: seq<Octet>, table: seq<bv32>) returns (crc: bv32)
    requires IsTable(table, Word32())
    ensures crc == Crc(buf)
  {
    CrcIs(Word32(), buf);
    var c := FeedAll(buf, 0xffff_ffff, table, Word32());
    crc := c ^ 0xffff_ffff;
  }

  // ---- What the check detects ----

  predicate AreBits(bits: seq<bv32>) {
    forall i | 0 <= i < |bits| :: bits[i] == 0 || bits[i] == 1
  }

  lemma {:induction false} FitsMore(w: bv32, n: nat, m: nat)
    requires FitsIn(w, n) && n <= m
    ensures FitsIn(w, m)
    decreases m
  {
    if n > 0 {
      FitsMore(w >> 1, n - 1, m - 1);
    } else if m > 0 {
      assert w >> 1 == 0;
      FitsMore(0, 0, m - 1);
    }
  }

  lemma {:induction false} FitsDown(w: bv32, n: nat, m: nat)
    requires FitsIn(w, n + m)
    ensures FitsIn(Down(w, n), m)
    decreases n
  {
    if n > 0 {
      FitsDown(w >> 1, n - 1, m);
    }
  }

  lemma {:induction false} DownAdd(w: bv32, n: nat, m: nat)
    ensures Down(Down(w, n), m) == Down(w, n + m)
    decreases n
  {
    if n > 0 {
      DownAdd(w >> 1, n - 1, m);
    }
  }

  lemma ThirtyOneDown(w: bv32)
    ensures Down(w, 31) == w >> 31
  {
    EightDown(w);
    EightDown(w >> 8);
    EightDown(w >> 16);
    DownAdd(w, 8, 8);
    DownAdd(w, 16, 8);
    DownAdd(w, 24, 7);
    SevenDown(w >> 24);
    EightsAdd(w);
  }

  lemma SevenDown(x: bv32)
    ensures Down(x, 7) == x >> 7
  {
    assert Down(x >> 1 >> 1 >> 1 >> 1, 3) == x >> 7;
  }

  lemma EightsAdd(w: bv32)
    ensures (w >> 8) >> 8 == w >> 16 && (w >> 16) >> 8 == w >> 24 && (w >> 24) >> 7 == w >> 31
  {
  }

  /** A word of at most 31 bits can move up. */
  lemma UpAndDown(w: bv32, n: nat)
    requires FitsIn(w, n) && n <= 31
    ensures (w << 1) >> 1 == w
  {
    FitsMore(w, n, 31);
    FitsDown(w, 31, 0);
    ThirtyOneDown(w);
    NoTopBit(w);
  }

  lemma NoTopBit(w: bv32)
    requires w >> 31 == 0
    ensures (w << 1) >> 1 == w
  {
  }

  lemma BitBelow(bit: bv32, w: bv32)
    requires (bit == 0 || bit == 1) && (w << 1) >> 1 == w
    ensures (bit ^ (w << 1)) & 1 == bit
    ensures (bit ^ (w << 1)) >> 1 == w
  {
  }

  lemma {:induction false} PackStep(w: bv32, bit: bv32, rest: bv32, k: nat)
    requires w & 1 == bit && w >> 1 == rest && FitsIn(rest, k)
    ensures FitsIn(w, k + 1) && BitsFrom(w, k + 1) == [bit] + BitsFrom(rest, k)
  {
  }

  lemma {:induction false} PackOnto(bit: bv32, rest: bv32, k: nat) returns (w: bv32)
    requires (bit == 0 || bit == 1) && FitsIn(rest, k) && k <= 31
    ensures FitsIn(w, k + 1) && BitsFrom(w, k + 1) == [bit] + BitsFrom(rest, k)
  {
    w := bit ^ (rest << 1);
    UpAndDown(rest, k);
    BitBelow(bit, rest);
    PackStep(w, bit, rest, k);
  }

  /** Up to 32 bits are the bits of one word. */
  lemma {:induction false} Packed(bits: seq<bv32>) returns (w: bv32)
    requires AreBits(bits) && |bits| <= 32
    ensures FitsIn(w, |bits|) && BitsFrom(w, |bits|) == bits
  {
    if bits == [] {
      w := 0;
    } else {
      var rest := Packed(bits[1..]);
      w := PackOnto(bits[0], rest, |bits| - 1);
      assert bits == [bits[0]] + bits[1..];
    }
  }

  lemma {:induction false} WindowDiffers(r: Register<bv32>, c: bv32, u: seq<bv32>, v: seq<bv32>)
    requires IsWord(r) && AreBits(u) && AreBits(v) && |u| == |v| <= 32 && u != v
    ensures Push(r, c, u) != Push(r, c, v)
  {
    var p := Packed(u);
    var q := Packed(v);
    PushBits(r, c, p, |u|);
    PushBits(r, c, q, |v|);
    assert Laws(r, c, p, c) && Laws(r, c, q, c);
    XorDiffers(r, p, q, c);
    ShiftsDiffer(r, r.xor(c, p), r.xor(c, q), |u|);
  }

  lemma {:induction false} BurstDiffers(r: Register<bv32>, c: bv32, before: seq<bv32>, u: seq<bv32>, v: seq<bv32>, after: seq<bv32>)
    requires IsWord(r) && AreBits(u) && AreBits(v) && |u| == |v| <= 32 && u != v
    ensures Push(r, c, before + u + after) != Push(r, c, before + v + after)
  {
    PushConcat(r, c, before + u, after);
    PushConcat(r, c, before + v, after);
    PushConcat(r, c, before, u);
    PushConcat(r, c, before, v);
    WindowDiffers(r, Push(r, c, before), u, v);
    PushKeepsDifference(r, Push(r, Push(r, c, before), u), Push(r, Push(r, c, before), v), after);
  }

  lemma ComplementsDiffer(a: bv32, b: bv32)
    requires a != b
    ensures a ^ 0xffff_ffff != b ^ 0xffff_ffff
  {
  }

  /** Two messages whose bits differ only within 32 consecutive ones have different checks. */
  lemma {:induction false} BurstIsDetected(a: seq<Octet>, b: seq<Octet>, before: seq<bv32>, u: seq<bv32>, v: seq<bv32>, after: seq<bv32>)
    requires AllBits(a) == before + u + after && AllBits(b) == before + v + after
    requires |u| == |v| <= 32 && u != v
    ensures Crc(a) != Crc(b)
  {
    var r := Word32();
    CrcIs(r, a);
    CrcIs(r, b);
    AllBitsAreBits(a, before, u, after);
    AllBitsAreBits(b, before, v, after);
    BurstDiffers(r, 0xffff_ffff, before, u, v, after);
    ComplementsDiffer(Push(r, 0xffff_ffff, AllBits(a)), Push(r, 0xffff_ffff, AllBits(b)));
  }

  lemma {:induction false} BitsFromAreBits(w: bv32, n: nat)
    ensures AreBits(BitsFrom(w, n)) && |BitsFrom(w, n)| == n
    decreases n
  {
    if n > 0 {
      OneBit(w);
      BitsFromAreBits(w >> 1, n - 1);
    }
  }

  lemma OneBit(w: bv32)
    ensures w & 1 == 0 || w & 1 == 1
  {
  }

  lemma {:induction false} AllAreBits(a: seq<Octet>)
    ensures AreBits(AllBits(a)) && |AllBits(a)| == 8 * |a|
  {
    if a != [] {
      BitsFromAreBits(a[0] as bv32, 8);
      AllAreBits(a[1..]);
    }
  }

  lemma AllBitsAreBits(a: seq<Octet>, before: seq<bv32>, u: seq<bv32>, after: seq<bv32>)
    requires AllBits(a) == before + u + after
    ensures AreBits(u)
  {
    AllAreBits(a);
    assert forall i | 0 <= i < |u| :: u[i] == AllBits(a)[|before| + i];
  }

  // ---- One changed byte ----

  lemma TakeBit(w: bv32, n: nat) returns (low: bv32, rest: bv32)
    requires n > 0 && FitsIn(w, n)
    ensures low == w & 1 && rest == w >> 1
    ensures FitsIn(rest, n - 1) && BitsFrom(w, n) == [low] + BitsFrom(rest, n - 1)
  {
    low, rest := w & 1, w >> 1;
  }

  lemma SameParts(v: bv32, w: bv32, low: bv32, rest: bv32)
    requires v & 1 == low && w & 1 == low && v >> 1 == rest && w >> 1 == rest
    ensures v == w
  {
  }

  lemma {:induction false} SameBits(v: bv32, w: bv32, n: nat)
    requires FitsIn(v, n) && FitsIn(w, n) && BitsFrom(v, n) == BitsFrom(w, n)
    ensures v == w
    decreases n
  {
    if n > 0 {
      var lowV, restV := TakeBit(v, n);
      var lowW, restW := TakeBit(w, n);
      assert ([lowV] + BitsFrom(restV, n - 1))[1..] == BitsFrom(restV, n - 1);
      assert ([lowW] + BitsFrom(restW, n - 1))[1..] == BitsFrom(restW, n - 1);
      SameBits(restV, restW, n - 1);
      SameParts(v, w, lowV, restV);
    }
  }

  lemma SameOctets(a: Octet, b: Octet)
    requires a as bv32 == b as bv32
    ensures a == b
  {
  }

  lemma OctetsDiffer(a: Octet, b: Octet)
    requires a != b
    ensures BitsFrom(a as bv32, 8) != BitsFrom(b as bv32, 8)
  {
    if BitsFrom(a as bv32, 8) == BitsFrom(b as bv32, 8) {
      ByteFits(a);
      ByteFits(b);
      SameBits(a as bv32, b as bv32, 8);
      SameOctets(a, b);
    }
  }

  function BitsOf(b: Octet): seq<bv32> {
    BitsFrom(b as bv32, 8)
  }

  function OctetBits(): Octet -> seq<bv32> {
    (b: Octet) => BitsOf(b)
  }

  lemma {:induction false} AllBitsFlat(bytes: seq<Octet>, f: Octet -> seq<bv32>)
    requires f == OctetBits()
    ensures AllBits(bytes) == FlatMap(f, bytes)
  {
    if bytes != [] {
      AllBitsFlat(bytes[1..], f);
      OctetBitsIs(f, bytes[0]);
    }
  }

  lemma OctetBitsIs(f: Octet -> seq<bv32>, b: Octet)
    requires f == OctetBits()
    ensures f(b) == BitsFrom(b as bv32, 8)
  {
  }

  /** Two messages of equal length that differ in exactly one byte have different checks. */
  lemma {:induction false} OneByteIsDetected(a: seq<Octet>, b: seq<Octet>, i: nat)
    requires i < |a| == |b| && a[i] != b[i] && a[..i] == b[..i] && a[i + 1..] == b[i + 1..]
    ensures Crc(a) != Crc(b)
  {
    var f := OctetBits();
    AllBitsFlat(a, f);
    AllBitsFlat(b, f);
    FlatMapAround(f, a, i);
    FlatMapAround(f, b, i);
    OctetBitsDiffer(f, a[i], b[i]);
    BurstIsDetected(a, b, FlatMap(f, a[..i]), f(a[i]), f(b[i]), FlatMap(f, a[i + 1..]));
  }

  lemma OctetBitsDiffer(f: Octet -> seq<bv32>, a: Octet, b: Octet)
    requires f == OctetBits() && a != b
    ensures f(a) != f(b) && |f(a)| == |f(b)| == 8
  {
    OctetBitsIs(f, a);
    OctetBitsIs(f, b);
    OctetsDiffer(a, b);
    BitsFromAreBits(a as bv32, 8);
    BitsFromAreBits(b as bv32, 8);
  }

  // ---- The standard's constants ----

  lemma {:induction false} ShiftsTo(r: Register<bv32>, s: seq<bv32>, k: nat)
    requires |s| == 9 && k <= 8 && forall i | 0 <= i < 8 :: r.shift(s[i]) == s[i + 1]
    ensures Shifts(r, s[k], 8 - k) == s[8]
    decreases 8 - k
  {
    if k < 8 {
      ShiftsTo(r, s, k + 1);
    }
  }

  lemma FeedsTo(r: Register<bv32>, c: bv32, b: Octet, x: bv32, s: seq<bv32>, d: bv32)
    requires IsWord(r) && x == c ^ b as bv32
    requires |s| == 9 && s[0] == x && s[8] == d && forall i | 0 <= i < 8 :: r.shift(s[i]) == s[i + 1]
    ensures Push(r, c, BitsFrom(b as bv32, 8)) == d
  {
    ByteFits(b);
    assert XorAt(r, c, b as bv32);
    PushBits(r, c, b as bv32, 8);
    ShiftsTo(r, s, 0);
  }

  /** The register passes through these words. */
  predicate Passes(s: seq<bv32>) {
    |s| == 9 && forall i | 0 <= i < 8 :: Shift(s[i]) == s[i + 1]
  }

  lemma PassesInWord(r: Register<bv32>, s: seq<bv32>)
    requires r == Word32() && Passes(s)
    ensures forall i | 0 <= i < 8 :: r.shift(s[i]) == s[i + 1]
  {
    forall i | 0 <= i < 8 ensures r.shift(s[i]) == s[i + 1] {
      ShiftIs(r, s[i]);
    }
  }

  lemma FeedsI(r: Register<bv32>, b: Octet)
    requires r == Word32() && IsWord(r) && b == 0x49
    ensures Push(r, 0xffffffff, BitsFrom(b as bv32, 8)) == 0x22fde946
  {
    var s := [0xffffffb6, 0x7fffffdb, 0xd2477ccd, 0x849b3d46, 0x424d9ea3,
              0xcc9e4c71, 0x8bf7a518, 0x45fbd28c, 0x22fde946];
    assert Passes(s);
    PassesInWord(r, s);
    FeedsTo(r, 0xffffffff, b, s[0], s, s[8]);
  }

  lemma FeedsE(r: Register<bv32>, b: Octet)
    requires r == Word32() && IsWord(r) && b == 0x45
    ensures Push(r, 0x22fde946, BitsFrom(b as bv32, 8)) == 0x992bac53
  {
    var s := [0x22fde903, 0xfcc677a1, 0x93dbb8f0, 0x49eddc78, 0x24f6ee3c,
              0x127b771e, 0x093dbb8f, 0xe9265ee7, 0x992bac53];
    assert Passes(s);
    PassesInWord(r, s);
    FeedsTo(r, 0x22fde946, b, s[0], s, s[8]);
  }

  lemma FeedsN(r: Register<bv32>, b: Octet)
    requires r == Word32() && IsWord(r) && b == 0x4e
    ensures Push(r, 0x992bac53, BitsFrom(b as bv32, 8)) == 0x639f4775
  {
    var s := [0x992bac1d, 0xa12d552e, 0x5096aa97, 0xc5f3d66b, 0x8f416815,
              0xaa18372a, 0x550c1b95, 0xc73e8eea, 0x639f4775];
    assert Passes(s);
    PassesInWord(r, s);
    FeedsTo(r, 0x992bac53, b, s[0], s, s[8]);
  }

  lemma FeedsD(r: Register<bv32>, b: Octet)
    requires r == Word32() && IsWord(r) && b == 0x44
    ensures Push(r, 0x639f4775, BitsFrom(b as bv32, 8)) == 0x51bd9f7d
  {
    var s := [0x639f4731, 0xdc7720b8, 0x6e3b905c, 0x371dc82e, 0x1b8ee417,
              0xe07ff12b, 0x9d877bb5, 0xa37b3efa, 0x51bd9f7d];
    assert Passes(s);
    PassesInWord(r, s);
    FeedsTo(r, 0x639f4775, b, s[0], s, s[8]);
  }

  lemma {:induction false} BytesFeed(r: Register<bv32>, bytes: seq<Octet>, c: seq<bv32>, i: nat)
    requires |c| == |bytes| + 1 && i <= |bytes|
    requires forall k | 0 <= k < |bytes| :: Push(r, c[k], BitsFrom(bytes[k] as bv32, 8)) == c[k + 1]
    ensures Push(r, c[i], AllBits(bytes[i..])) == c[|bytes|]
    decreases |bytes| - i
  {
    if i < |bytes| {
      FeedByte(r, c[i], bytes, i);
      BytesFeed(r, bytes, c, i + 1);
    } else {
      assert bytes[i..] == [];
    }
  }

  lemma LettersFeed(r: Register<bv32>, bytes: seq<Octet>, c: seq<bv32>)
    requires r == Word32() && IsWord(r) && bytes == [0x49, 0x45, 0x4e, 0x44]
    requires c == [0xffff_ffff, 0x22fd_e946, 0x992b_ac53, 0x639f_4775, 0x51bd_9f7d]
    ensures forall k | 0 <= k < |bytes| :: Push(r, c[k], BitsFrom(bytes[k] as bv32, 8)) == c[k + 1]
  {
    FeedsI(r, bytes[0]);
    FeedsE(r, bytes[1]);
    FeedsN(r, bytes[2]);
    FeedsD(r, bytes[3]);
  }

  /** The check of the four letters IEND, with which every PNG file ends, is 0xae426082. */
  lemma CheckOfTheEnd()
    ensures Crc([0x49, 0x45, 0x4e, 0x44]) == 0xae42_6082
  {
    var r, bytes, c := Word32(), [0x49, 0x45, 0x4e, 0x44], [0xffff_ffff, 0x22fd_e946, 0x992b_ac53, 0x639f_4775, 0x51bd_9f7d];
    CrcIs(r, bytes);
    LettersFeed(r, bytes, c);
    BytesFeed(r, bytes, c, 0);
    assert bytes[0..] == bytes;
  }
}
