/** The icon file: a directory of entries, then the images it points at. */
module Ico {
  import opened Bytes

  /** The side of an image in pixels, and its encoded bytes. */
  datatype Image = Image(size: nat, bytes: seq<Byte>)

  function Little16(n: nat): seq<Byte>
    requires n < 0x1_0000
  {
    [(n % 256) as Byte, (n / 256) as Byte]
  }

  function Little32(n: nat): seq<Byte>
    requires n < LIMIT_32
  {
    [(n % 256) as Byte, (n / 256 % 256) as Byte, (n / 0x1_0000 % 256) as Byte, (n / 0x100_0000) as Byte]
  }

  function Read16(bytes: seq<Byte>, at: nat): nat
    requires at + 2 <= |bytes|
  {
    bytes[at] as int + bytes[at + 1] as int * 256
  }

  function Read32(bytes: seq<Byte>, at: nat): nat
    requires at + 4 <= |bytes|
  {
    bytes[at] as int + bytes[at + 1] as int * 256 + bytes[at + 2] as int * 0x1_0000 + bytes[at + 3] as int * 0x100_0000
  }

  // ---- Layout ----

  function HeaderSize(count: nat): nat {
    6 + 16 * count
  }

  function BytesBefore(images: seq<Image>, k: nat): nat
    requires k <= |images|
  {
    if k == 0 then 0 else BytesBefore(images, k - 1) + |images[k - 1].bytes|
  }

  predicate Fits(images: seq<Image>) {
    && |images| < 0x1_0000
    && HeaderSize(|images|) + BytesBefore(images, |images|) < LIMIT_32
    && forall k | 0 <= k < |images| :: 1 <= images[k].size <= 256
  }

  function Offset(images: seq<Image>, k: nat): nat
    requires k <= |images|
  {
    HeaderSize(|images|) + BytesBefore(images, k)
  }

  lemma {:induction false} OffsetsGrow(images: seq<Image>, j: nat, k: nat)
    requires j <= k <= |images|
    ensures BytesBefore(images, j) <= BytesBefore(images, k)
    decreases k
  {
    if j < k {
      OffsetsGrow(images, j, k - 1);
    }
  }

  /** One directory entry: side (256 is written as 0), no palette, one plane, 32 bits, length, offset. */
  function EntryOf(size: nat, length: nat, offset: nat): seq<Byte>
    requires 1 <= size <= 256 && length < LIMIT_32 && offset < LIMIT_32
  {
    var side: Byte := if size == 256 then 0 else size as Byte;
    [side, side, 0, 0] + Little16(1) + Little16(32) + Little32(length) + Little32(offset)
  }

  function Entry(images: seq<Image>, k: nat): seq<Byte>
    requires Fits(images) && k < |images|
  {
    OffsetsGrow(images, k + 1, |images|);
    EntryOf(images[k].size, |images[k].bytes|, Offset(images, k))
  }

  function Entries(images: seq<Image>, count: nat): seq<Byte>
    requires Fits(images) && count <= |images|
  {
    if count == 0 then [] else Entries(images, count - 1) + Entry(images, count - 1)
  }

  function Header(images: seq<Image>): seq<Byte>
    requires Fits(images)
  {
    [0, 0] + Little16(1) + Little16(|images|) + Entries(images, |images|)
  }

  function Payload(images: seq<Image>, count: nat): seq<Byte>
    requires count <= |images|
  {
    if count == 0 then [] else Payload(images, count - 1) + images[count - 1].bytes
  }

  lemma {:induction false} EntriesLength(images: seq<Image>, count: nat)
    requires Fits(images) && count <= |images|
    ensures |Entries(images, count)| == 16 * count
  {
    if count > 0 {
      EntriesLength(images, count - 1);
    }
  }

  lemma {:induction false} PayloadLength(images: seq<Image>, count: nat)
    requires count <= |images|
    ensures |Payload(images, count)| == BytesBefore(images, count)
  {
    if count > 0 {
      PayloadLength(images, count - 1);
    }
  }

  /** Write the directory with a running offset, then the images one after the other. */
  method WriteIco(images: seq<Image>) returns (ico: array<Byte>)
    requires Fits(images)
    ensures fresh(ico) && ico[..] == FileOf(images)
  {
    EntriesLength(images, |images|);
    var header := MakeHeader(images);
    ico := new Byte[|header| + BytesBefore(images, |images|)];
    Put(ico, 0, header);
    WritePayload(images, ico, header);
  }

  method WritePayload(images: seq<Image>, ico: array<Byte>, header: seq<Byte>)
    requires ico.Length == |header| + BytesBefore(images, |images|) && ico[..|header|] == header
    modifies ico
    ensures ico[..] == header + Payload(images, |images|)
  {
    var off := |header|;
    for k := 0 to |images|
      invariant off == |header| + BytesBefore(images, k) <= ico.Length
      invariant ico[..off] == header + Payload(images, k)
    {
      OffsetsGrow(images, k + 1, |images|);
      var next := off + |images[k].bytes|;
      Put(ico, off, images[k].bytes);
      assert ico[..next] == ico[..off] + ico[off..next];
      PayloadNext(header, images, k);
      off := next;
    }
    assert ico[..] == ico[..off];
  }

  lemma PayloadNext(header: seq<Byte>, images: seq<Image>, k: nat)
    requires k < |images|
    ensures (header + Payload(images, k)) + images[k].bytes == header + Payload(images, k + 1)
  {
  }

  lemma EntriesNext(fixed: seq<Byte>, images: seq<Image>, k: nat, entry: seq<Byte>)
    requires Fits(images) && k < |images| && entry == Entry(images, k)
    ensures (fixed + Entries(images, k)) + entry == fixed + Entries(images, k + 1)
  {
  }

  method MakeHeader(images: seq<Image>) returns (header: seq<Byte>)
    requires Fits(images)
    ensures header == Header(images)
  {
    header := [0, 0] + Little16(1) + Little16(|images|);
    ghost var fixed := header;
    var offset := HeaderSize(|images|);
    for k := 0 to |images|
      invariant header == fixed + Entries(images, k) && offset == Offset(images, k)
    {
      OffsetsGrow(images, k + 1, |images|);
      var entry := EntryOf(images[k].size, |images[k].bytes|, offset);
      EntriesNext(fixed, images, k, entry);
      header := header + entry;
      offset := offset + |images[k].bytes|;
    }
  }

  method Put(out: array<Byte>, at: nat, bytes: seq<Byte>)
    requires at + |bytes| <= out.Length
    modifies out
    ensures out[at..at + |bytes|] == bytes && out[..at] == old(out[..at])
  {
    for i := 0 to |bytes|
      invariant out[at..at + i] == bytes[..i] && out[..at] == old(out[..at])
    {
      out[at + i] := bytes[i];
      assert out[at..at + i + 1] == out[at..at + i] + [out[at + i]];
    }
    assert bytes[..|bytes|] == bytes;
  }

  // ---- Reading it back ----

  datatype Listed = Listed(side: nat, planes: nat, bits: nat, length: nat, offset: nat)

  /** What a reader finds in directory entry `k`. */
  function ReadEntry(ico: seq<Byte>, k: nat): Listed
    requires HeaderSize(k + 1) <= |ico|
  {
    var at := 6 + 16 * k;
    Listed(if ico[at] == 0 then 256 else ico[at] as int, Read16(ico, at + 4), Read16(ico, at + 6), Read32(ico, at + 8), Read32(ico, at + 12))
  }

  lemma {:induction false} EntryAt(images: seq<Image>, count: nat, k: nat)
    requires Fits(images) && k < count <= |images|
    ensures |Entries(images, count)| == 16 * count && Entries(images, count)[16 * k..16 * k + 16] == Entry(images, k)
    decreases count
  {
    EntriesLength(images, count - 1);
    var before, last := Entries(images, count - 1), Entry(images, count - 1);
    if k < count - 1 {
      EntryAt(images, count - 1, k);
      assert (before + last)[16 * k..16 * k + 16] == before[16 * k..16 * k + 16];
    } else {
      assert (before + last)[16 * k..16 * k + 16] == last;
    }
  }

  lemma {:induction false} PayloadAt(images: seq<Image>, count: nat, k: nat)
    requires k < count <= |images|
    ensures var from := BytesBefore(images, k);
            && |Payload(images, count)| == BytesBefore(images, count)
            && from + |images[k].bytes| <= |Payload(images, count)|
            && Payload(images, count)[from..from + |images[k].bytes|] == images[k].bytes
    decreases count
  {
    PayloadLength(images, count - 1);
    if k < count - 1 {
      PayloadAt(images, count - 1, k);
    }
  }

  lemma EntryOfReads(size: nat, length: nat, offset: nat, bytes: seq<Byte>)
    requires 1 <= size <= 256 && length < LIMIT_32 && offset < LIMIT_32 && bytes == EntryOf(size, length, offset)
    ensures |bytes| == 16 && (if bytes[0] == 0 then 256 else bytes[0] as int) == size
    ensures Read16(bytes, 4) == 1 && Read16(bytes, 6) == 32 && Read32(bytes, 8) == length && Read32(bytes, 12) == offset
  {
    FourDigits(length);
    FourDigits(offset);
  }

  lemma ReadsShift(ico: seq<Byte>, at: nat, bytes: seq<Byte>)
    requires |bytes| == 16 && at + 16 <= |ico| && ico[at..at + 16] == bytes
    ensures ico[at] == bytes[0] && Read16(ico, at + 4) == Read16(bytes, 4) && Read16(ico, at + 6) == Read16(bytes, 6)
    ensures Read32(ico, at + 8) == Read32(bytes, 8) && Read32(ico, at + 12) == Read32(bytes, 12)
  {
    assert forall j | 0 <= j < 16 :: ico[at + j] == bytes[j];
  }

  lemma EntryReads(images: seq<Image>, k: nat, ico: seq<Byte>)
    requires Fits(images) && k < |images| && HeaderSize(k + 1) <= |ico|
    requires ico[6 + 16 * k..22 + 16 * k] == Entry(images, k)
    ensures ReadEntry(ico, k) == Listed(images[k].size, 1, 32, |images[k].bytes|, Offset(images, k))
  {
    OffsetsGrow(images, k + 1, |images|);
    EntryOfReads(images[k].size, |images[k].bytes|, Offset(images, k), Entry(images, k));
    ReadsShift(ico, 6 + 16 * k, Entry(images, k));
  }

  /** The file written for the images. */
  function FileOf(images: seq<Image>): seq<Byte>
    requires Fits(images)
  {
    Header(images) + Payload(images, |images|)
  }

  /** Every entry of the file names its image's side, length and place, and following it yields exactly
      that image. */
  lemma DirectoryReadsBack(images: seq<Image>, k: nat)
    requires Fits(images) && k < |images|
    ensures HeaderSize(k + 1) <= |FileOf(images)|
    ensures var e := ReadEntry(FileOf(images), k);
            && e == Listed(images[k].size, 1, 32, |images[k].bytes|, Offset(images, k))
            && e.offset + e.length <= |FileOf(images)|
            && FileOf(images)[e.offset..e.offset + e.length] == images[k].bytes
  {
    EntrySlice(images, k, FileOf(images));
    EntryReads(images, k, FileOf(images));
    PayloadSlice(images, k, FileOf(images));
  }

  /** The file announces an icon of that many images, and ends with the last of them. */
  lemma FileStart(images: seq<Image>)
    requires Fits(images)
    ensures |FileOf(images)| == Offset(images, |images|) >= HeaderSize(|images|)
    ensures FileOf(images)[..4] == [0, 0, 1, 0]
    ensures FileOf(images)[4] as int + 256 * FileOf(images)[5] as int == |images|
  {
    EntriesLength(images, |images|);
    PayloadLength(images, |images|);
    var start := [0, 0] + Little16(1) + Little16(|images|);
    assert FileOf(images)[..6] == start;
    assert forall j | 0 <= j < 6 :: FileOf(images)[j] == start[j];
  }

  lemma EntryBytes(size: nat, length: nat, offset: nat, bytes: seq<Byte>)
    requires 1 <= size <= 256 && length < LIMIT_32 && offset < LIMIT_32 && bytes == EntryOf(size, length, offset)
    ensures |bytes| == 16 && bytes[0] == bytes[1] && bytes[0] as int == (if size == 256 then 0 else size)
    ensures bytes[2..8] == [0, 0, 1, 0, 32, 0]
    ensures bytes[8] as int + 256 * bytes[9] as int + 0x1_0000 * bytes[10] as int + 0x100_0000 * bytes[11] as int == length
    ensures bytes[12] as int + 256 * bytes[13] as int + 0x1_0000 * bytes[14] as int + 0x100_0000 * bytes[15] as int == offset
  {
    FourDigits(length);
    FourDigits(offset);
  }

  /** The bytes of entry `k` of the directory, one by one: the side twice, 256 as 0; one plane of 32 bits;
      and length and offset, least significant byte first. */
  lemma EntryByteByByte(images: seq<Image>, k: nat, e: seq<Byte>)
    requires Fits(images) && k < |images|
    requires 22 + 16 * k <= |FileOf(images)| && e == FileOf(images)[6 + 16 * k..22 + 16 * k]
    ensures e[0] == e[1] && e[0] as int == (if images[k].size == 256 then 0 else images[k].size)
    ensures e[2..8] == [0, 0, 1, 0, 32, 0]
    ensures e[8] as int + 256 * e[9] as int + 0x1_0000 * e[10] as int + 0x100_0000 * e[11] as int == |images[k].bytes|
    ensures e[12] as int + 256 * e[13] as int + 0x1_0000 * e[14] as int + 0x100_0000 * e[15] as int == Offset(images, k)
  {
    EntrySlice(images, k, FileOf(images));
    OffsetsGrow(images, k + 1, |images|);
    EntryBytes(images[k].size, |images[k].bytes|, Offset(images, k), e);
  }

  /** The first image follows the directory, every other image the one before it, and the last one
      ends the file. */
  lemma ImagesLieBackToBack(images: seq<Image>, k: nat, ico: seq<Byte>)
    requires Fits(images) && k < |images| && ico == FileOf(images)
    ensures |ico| >= HeaderSize(|images|)
    ensures k == 0 ==> ReadEntry(ico, k).offset == HeaderSize(|images|)
    ensures k > 0 ==> ReadEntry(ico, k).offset == ReadEntry(ico, k - 1).offset + ReadEntry(ico, k - 1).length
    ensures k + 1 == |images| ==> ReadEntry(ico, k).offset + ReadEntry(ico, k).length == |ico|
  {
    FileStart(images);
    EntrySlice(images, k, ico);
    EntryReads(images, k, ico);
    if k > 0 {
      EntrySlice(images, k - 1, ico);
      EntryReads(images, k - 1, ico);
    }
  }

  lemma EntrySlice(images: seq<Image>, k: nat, ico: seq<Byte>)
    requires Fits(images) && k < |images| && ico == FileOf(images)
    ensures |Header(images)| == HeaderSize(|images|) && HeaderSize(k + 1) <= |ico|
    ensures ico[6 + 16 * k..22 + 16 * k] == Entry(images, k)
  {
    var start, entries := [0, 0] + Little16(1) + Little16(|images|), Entries(images, |images|);
    EntryAt(images, |images|, k);
    SliceInside(start, entries, Payload(images, |images|), ico, k);
  }

  lemma SliceInside(start: seq<Byte>, entries: seq<Byte>, rest: seq<Byte>, ico: seq<Byte>, k: nat)
    requires |start| == 6 && ico == start + entries + rest && 16 * k + 16 <= |entries|
    ensures ico[6 + 16 * k..22 + 16 * k] == entries[16 * k..16 * k + 16]
  {
  }

  lemma PayloadSlice(images: seq<Image>, k: nat, ico: seq<Byte>)
    requires Fits(images) && k < |images| && ico == FileOf(images)
    ensures Offset(images, k) + |images[k].bytes| <= |ico|
    ensures ico[Offset(images, k)..Offset(images, k) + |images[k].bytes|] == images[k].bytes
  {
    EntriesLength(images, |images|);
    PayloadAt(images, |images|, k);
    var payload, from := Payload(images, |images|), BytesBefore(images, k);
    assert ico[HeaderSize(|images|)..] == payload;
    assert ico[Offset(images, k)..Offset(images, k) + |images[k].bytes|] == payload[from..from + |images[k].bytes|];
  }
}
