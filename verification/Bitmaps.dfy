/** The bitmap validators (core/domain/image_attachment.py): PNG chunks as in section 5.3 of
    the PNG specification (ISO/IEC 15948), WebP chunks as in section 2.3 of RFC 9649. Each
    accepts exactly the serialisations of acceptable chunk lists. */
module Bitmaps {
  type byte = x: int | 0 <= x < 256

  type Bytes = seq<byte>

  const TWO_32 := 0x1_0000_0000

  function BigEndian(b: Bytes): (n: nat)
    requires |b| == 4
    ensures n < TWO_32
  {
    ((b[0] as int * 256 + b[1]) * 256 + b[2]) * 256 + b[3]
  }

  function LittleEndian(b: Bytes): (n: nat)
    requires |b| == 4
    ensures n < TWO_32
  {
    ((b[3] as int * 256 + b[2]) * 256 + b[1]) * 256 + b[0]
  }

  function BigBytes(n: nat): (b: Bytes)
    requires n < TWO_32
    ensures |b| == 4
  {
    [n / 0x100_0000, n / 0x1_0000 % 256, n / 256 % 256, n % 256]
  }

  function LittleBytes(n: nat): (b: Bytes)
    requires n < TWO_32
    ensures |b| == 4
  {
    [n % 256, n / 256 % 256, n / 0x1_0000 % 256, n / 0x100_0000]
  }

  /** Reading and writing four-byte numbers are inverse. */
  lemma BigRoundTrip(n: nat, b: Bytes)
    requires n < TWO_32 && |b| == 4
    ensures BigEndian(BigBytes(n)) == n && BigBytes(BigEndian(b)) == b
  {
    var m := BigEndian(b);
    var x, y, z: int := b[0], b[1], b[2];
    assert m / 256 == x * 0x1_0000 + y * 256 + z;
    assert m / 0x1_0000 == x * 256 + y;
  }

  lemma LittleRoundTrip(n: nat, b: Bytes)
    requires n < TWO_32 && |b| == 4
    ensures LittleEndian(LittleBytes(n)) == n && LittleBytes(LittleEndian(b)) == b
  {
    BigRoundTrip(n, [b[3], b[2], b[1], b[0]]);
    var m := LittleEndian(b);
    assert m == BigEndian([b[3], b[2], b[1], b[0]]);
  }

  // -------------------------------------------------------------------------- PNG

  const SIGNATURE: Bytes := [0x89, 0x50, 0x4E, 0x47, 0x0D, 0x0A, 0x1A, 0x0A]
  const IHDR: Bytes := [0x49, 0x48, 0x44, 0x52]
  const IDAT: Bytes := [0x49, 0x44, 0x41, 0x54]
  const IEND: Bytes := [0x49, 0x45, 0x4E, 0x44]

  datatype Chunk = Chunk(kind: Bytes, payload: Bytes)

  predicate IsChunk(c: Chunk) {
    |c.kind| == 4 && |c.payload| < TWO_32
  }

  /** The checksum the file must carry for a chunk; `crc` is zlib's CRC-32. */
  function Checksum(crc: Bytes -> nat, c: Chunk): (n: nat)
    ensures n < TWO_32
  {
    crc(c.kind + c.payload) % TWO_32
  }

  function ChunkBytes(crc: Bytes -> nat, c: Chunk): (b: Bytes)
    requires IsChunk(c)
    ensures |b| == 12 + |c.payload|
  {
    BigBytes(|c.payload|) + c.kind + c.payload + BigBytes(Checksum(crc, c))
  }

  function Serialise(crc: Bytes -> nat, chunks: seq<Chunk>): Bytes
    requires forall c :: c in chunks ==> IsChunk(c)
  {
    if chunks == [] then [] else ChunkBytes(crc, chunks[0]) + Serialise(crc, chunks[1..])
  }

  predicate IsHeader(c: Chunk) {
    c.kind == IHDR && |c.payload| == 13 && BigEndian(c.payload[..4]) != 0 && BigEndian(c.payload[4..8]) != 0
  }

  /** The first chunk is a header with nonzero sides, some later chunk is image data, and the
      only IEND is last and empty. */
  predicate GoodChunks(chunks: seq<Chunk>) {
    && chunks != [] && IsHeader(chunks[0])
    && (exists i :: 0 < i < |chunks| && chunks[i].kind == IDAT)
    && chunks[|chunks| - 1] == Chunk(IEND, [])
    && forall i :: 0 < i < |chunks| - 1 ==> chunks[i].kind != IEND
  }

  ghost predicate IsPng(crc: Bytes -> nat, data: Bytes) {
    exists chunks: seq<Chunk> ::
      (forall c :: c in chunks ==> IsChunk(c)) && GoodChunks(chunks) && data == SIGNATURE + Serialise(crc, chunks)
  }

  /** The chunk the loop reads at an offset, when it fits. */
  predicate Fits(data: Bytes, offset: nat) {
    offset + 12 <= |data| && offset + 12 + BigEndian(data[offset..offset + 4]) <= |data|
  }

  function ChunkAt(data: Bytes, offset: nat): (c: Chunk)
    requires Fits(data, offset)
    ensures IsChunk(c) && offset + 12 + |c.payload| <= |data|
  {
    var n := BigEndian(data[offset..offset + 4]);
    Chunk(data[offset + 4..offset + 8], data[offset + 8..offset + 8 + n])
  }

  predicate CrcMatches(crc: Bytes -> nat, data: Bytes, offset: nat)
    requires Fits(data, offset)
  {
    var c := ChunkAt(data, offset);
    var end := offset + 12 + |c.payload|;
    Checksum(crc, c) == BigEndian(data[end - 4..end])
  }

  /** What the loop accepts from an offset on. */
  predicate Accepts(crc: Bytes -> nat, data: Bytes, offset: nat, sawHeader: bool, sawData: bool)
    decreases |data| - offset
  {
    Fits(data, offset) && CrcMatches(crc, data, offset) &&
    var c := ChunkAt(data, offset);
    var end := offset + 12 + |c.payload|;
    if !sawHeader then IsHeader(c) && Accepts(crc, data, end, true, sawData)
    else if c.kind == IDAT then Accepts(crc, data, end, true, true)
    else if c.kind == IEND then c.payload == [] && sawData && end == |data|
    else Accepts(crc, data, end, true, sawData)
  }

  method ValidPng(crc: Bytes -> nat, data: Bytes) returns (valid: bool)
    ensures valid <==> IsPng(crc, data)
  {
    hide IsPng, Accepts;
    PngIsAccepted(crc, data);
    if !(SIGNATURE <= data) { return false; }
    valid := Scan(crc, data);
  }

  method Scan(crc: Bytes -> nat, data: Bytes) returns (valid: bool)
    requires SIGNATURE <= data
    ensures valid <==> Accepts(crc, data, 8, false, false)
  {
    var offset := 8;
    var sawHeader, sawData, sawEnd := false, false, false;
    while offset + 12 <= |data|
      invariant 8 <= offset <= |data|
      invariant !sawEnd && Accepts(crc, data, 8, false, false) == Accepts(crc, data, offset, sawHeader, sawData)
      decreases |data| - offset
    {
      var length := BigEndian(data[offset..offset + 4]);
      var kind := data[offset + 4..offset + 8];
      var end := offset + 12 + length;
      if end > |data| { return false; }
      var payload := data[offset + 8..offset + 8 + length];
      var expected := BigEndian(data[offset + 8 + length..end]);
      if crc(kind + payload) % TWO_32 != expected { return false; }
      if !sawHeader {
        if kind != IHDR || length != 13 { return false; }
        if BigEndian(payload[..4]) == 0 || BigEndian(payload[4..8]) == 0 { return false; }
        sawHeader := true;
      } else if kind == IDAT {
        sawData := true;
      } else if kind == IEND {
        return length == 0 && sawData && end == |data|;
      }
      offset := end;
    }
    return false;
  }

  /** The chunks the loop still accepts, given the flags it has raised. */
  predicate Remaining(chunks: seq<Chunk>, sawHeader: bool, sawData: bool) {
    chunks != [] &&
    if !sawHeader then IsHeader(chunks[0]) && Remaining(chunks[1..], true, sawData)
    else if chunks[0].kind == IDAT then Remaining(chunks[1..], true, true)
    else if chunks[0].kind == IEND then chunks[0].payload == [] && sawData && chunks[1..] == []
    else Remaining(chunks[1..], true, sawData)
  }

  lemma {:induction false} RemainingMeans(chunks: seq<Chunk>, sawData: bool)
    ensures Remaining(chunks, true, sawData) <==>
            && chunks != [] && chunks[|chunks| - 1] == Chunk(IEND, [])
            && (sawData || exists i :: 0 <= i < |chunks| && chunks[i].kind == IDAT)
            && (forall i :: 0 <= i < |chunks| - 1 ==> chunks[i].kind != IEND)
    decreases |chunks|
  {
    if chunks != [] {
      var c, rest := chunks[0], chunks[1..];
      RemainingMeans(rest, sawData || c.kind == IDAT);
      assert forall i :: 0 < i < |chunks| ==> chunks[i] == rest[i - 1];
      if rest == [] {
        assert chunks[|chunks| - 1] == c;
      } else {
        assert chunks[|chunks| - 1] == rest[|rest| - 1];
        assert chunks[0] == c;
        if exists i :: 0 <= i < |rest| && rest[i].kind == IDAT {
          var i :| 0 <= i < |rest| && rest[i].kind == IDAT;
          assert chunks[i + 1].kind == IDAT;
        }
      }
    }
  }

  lemma GoodMeansRemaining(chunks: seq<Chunk>)
    ensures GoodChunks(chunks) <==> Remaining(chunks, false, false)
  {
    if chunks != [] {
      var rest := chunks[1..];
      RemainingMeans(rest, false);
      assert forall i :: 0 < i < |chunks| ==> chunks[i] == rest[i - 1];
      if exists i :: 0 <= i < |rest| && rest[i].kind == IDAT {
        var i :| 0 <= i < |rest| && rest[i].kind == IDAT;
        assert chunks[i + 1].kind == IDAT;
      }
      if rest == [] && IsHeader(chunks[0]) { assert chunks[0] != Chunk(IEND, []); }
    }
  }

  /** A serialised chunk is read back, whatever follows it. */
  lemma ChunkRoundTrip(crc: Bytes -> nat, before: Bytes, c: Chunk, after: Bytes)
    requires IsChunk(c)
    ensures var data := before + ChunkBytes(crc, c) + after;
            Fits(data, |before|) && ChunkAt(data, |before|) == c && CrcMatches(crc, data, |before|)
  {
    var data, o, n := before + ChunkBytes(crc, c) + after, |before|, |c.payload|;
    BigRoundTrip(n, [0, 0, 0, 0]);
    BigRoundTrip(Checksum(crc, c), [0, 0, 0, 0]);
    assert data[o..o + 4] == BigBytes(n);
    assert data[o + 4..o + 8] == c.kind;
    assert data[o + 8..o + 8 + n] == c.payload;
    assert data[o + 8 + n..o + 12 + n] == BigBytes(Checksum(crc, c));
  }

  /** A chunk that fits and whose checksum matches is the serialisation of what is read. */
  lemma ChunkIsSerialised(crc: Bytes -> nat, data: Bytes, offset: nat)
    requires Fits(data, offset) && CrcMatches(crc, data, offset)
    ensures var c := ChunkAt(data, offset);
            data[offset..offset + 12 + |c.payload|] == ChunkBytes(crc, c)
  {
    var c := ChunkAt(data, offset);
    var n := |c.payload|;
    BigRoundTrip(0, data[offset..offset + 4]);
    BigRoundTrip(0, data[offset + 8 + n..offset + 12 + n]);
    assert data[offset..offset + 12 + n]
           == data[offset..offset + 4] + data[offset + 4..offset + 8] + data[offset + 8..offset + 8 + n]
              + data[offset + 8 + n..offset + 12 + n];
  }

  lemma {:induction false} AcceptsSerialised(crc: Bytes -> nat, before: Bytes, chunks: seq<Chunk>, sawHeader: bool, sawData: bool)
    requires forall c :: c in chunks ==> IsChunk(c)
    requires Remaining(chunks, sawHeader, sawData)
    ensures Accepts(crc, before + Serialise(crc, chunks), |before|, sawHeader, sawData)
    decreases |chunks|
  {
    hide Fits, ChunkAt, CrcMatches, ChunkBytes, IsHeader;
    var c, rest := chunks[0], chunks[1..];
    var head, tail := ChunkBytes(crc, c), Serialise(crc, rest);
    ChunkRoundTrip(crc, before, c, tail);
    assert before + Serialise(crc, chunks) == before + head + tail;
    if !(sawHeader && c.kind == IEND) {
      AcceptsSerialised(crc, before + head, rest, true, sawData || (sawHeader && c.kind == IDAT));
      assert before + head + tail == (before + head) + tail;
    }
  }

  lemma {:induction false} AcceptedIsSerialised(crc: Bytes -> nat, data: Bytes, offset: nat, sawHeader: bool, sawData: bool)
    returns (chunks: seq<Chunk>)
    requires offset <= |data| && Accepts(crc, data, offset, sawHeader, sawData)
    ensures forall c :: c in chunks ==> IsChunk(c)
    ensures Remaining(chunks, sawHeader, sawData) && data[offset..] == Serialise(crc, chunks)
    decreases |data| - offset
  {
    hide Fits, CrcMatches, ChunkBytes, IsHeader;
    var c := ChunkAt(data, offset);
    var end := offset + 12 + |c.payload|;
    ChunkIsSerialised(crc, data, offset);
    var rest := [];
    if !(sawHeader && c.kind == IEND) {
      rest := AcceptedIsSerialised(crc, data, end, true, sawData || (sawHeader && c.kind == IDAT));
    } else {
      assert data[end..] == [];
    }
    chunks := [c] + rest;
    assert chunks[1..] == rest;
    assert data[offset..] == data[offset..end] + data[end..];
  }

  lemma PngIsAccepted(crc: Bytes -> nat, data: Bytes)
    ensures IsPng(crc, data) <==> SIGNATURE <= data && Accepts(crc, data, 8, false, false)
  {
    hide Accepts, GoodChunks, Remaining, Serialise;
    if IsPng(crc, data) {
      var chunks: seq<Chunk> :|
        (forall c :: c in chunks ==> IsChunk(c)) && GoodChunks(chunks) && data == SIGNATURE + Serialise(crc, chunks);
      GoodMeansRemaining(chunks);
      AcceptsSerialised(crc, SIGNATURE, chunks, false, false);
    }
    if SIGNATURE <= data && Accepts(crc, data, 8, false, false) {
      var chunks := AcceptedIsSerialised(crc, data, 8, false, false);
      GoodMeansRemaining(chunks);
      assert data == SIGNATURE + data[8..];
    }
  }

  // ------------------------------------------------------------------------- WebP

  const RIFF: Bytes := [0x52, 0x49, 0x46, 0x46]
  const WEBP: Bytes := [0x57, 0x45, 0x42, 0x50]
  const VP8: Bytes := [0x56, 0x50, 0x38, 0x20]
  const VP8L: Bytes := [0x56, 0x50, 0x38, 0x4C]
  const ANMF: Bytes := [0x41, 0x4E, 0x4D, 0x46]
  const FRAME_START: Bytes := [0x9D, 0x01, 0x2A]

  /** A RIFF chunk; a payload of odd size is followed by one padding byte of any value. */
  datatype RiffChunk = RiffChunk(kind: Bytes, payload: Bytes, pad: Bytes)

  predicate IsRiffChunk(c: RiffChunk) {
    |c.kind| == 4 && |c.payload| < TWO_32 && |c.pad| == |c.payload| % 2
  }

  function RiffBytes(c: RiffChunk): (b: Bytes)
    requires IsRiffChunk(c)
    ensures |b| == 8 + |c.payload| + |c.pad|
  {
    c.kind + LittleBytes(|c.payload|) + c.payload + c.pad
  }

  function RiffSerialise(chunks: seq<RiffChunk>): Bytes
    requires forall c :: c in chunks ==> IsRiffChunk(c)
  {
    if chunks == [] then [] else RiffBytes(chunks[0]) + RiffSerialise(chunks[1..])
  }

  /** A lossy, lossless or animation-frame chunk that starts as one must. */
  predicate IsImage(kind: Bytes, payload: Bytes) {
    || (kind == VP8 && |payload| >= 10 && payload[3..6] == FRAME_START)
    || (kind == VP8L && |payload| >= 5 && payload[0] == 0x2F)
    || (kind == ANMF && |payload| >= 24 && (payload[16..20] == VP8 || payload[16..20] == VP8L)
        && var size := LittleEndian(payload[20..24]); 24 + size + size % 2 <= |payload|)
  }

  ghost predicate IsWebp(data: Bytes) {
    exists chunks: seq<RiffChunk> ::
      && (forall c :: c in chunks ==> IsRiffChunk(c))
      && (exists c :: c in chunks && IsImage(c.kind, c.payload))
      && 4 + |RiffSerialise(chunks)| < TWO_32
      && data == RIFF + LittleBytes(4 + |RiffSerialise(chunks)|) + WEBP + RiffSerialise(chunks)
  }

  predicate RiffFits(data: Bytes, offset: nat) {
    offset + 8 <= |data| &&
    var size := LittleEndian(data[offset + 4..offset + 8]);
    offset + 8 + size + size % 2 <= |data|
  }

  function RiffAt(data: Bytes, offset: nat): (c: RiffChunk)
    requires RiffFits(data, offset)
    ensures IsRiffChunk(c) && offset + |RiffBytes(c)| <= |data|
  {
    var size := LittleEndian(data[offset + 4..offset + 8]);
    RiffChunk(data[offset..offset + 4], data[offset + 8..offset + 8 + size],
              data[offset + 8 + size..offset + 8 + size + size % 2])
  }

  predicate AcceptsRiff(data: Bytes, offset: nat, saw: bool)
    requires offset <= |data|
    decreases |data| - offset
  {
    if offset + 8 > |data| then saw && offset == |data|
    else RiffFits(data, offset) &&
         var c := RiffAt(data, offset);
         AcceptsRiff(data, offset + |RiffBytes(c)|, saw || IsImage(c.kind, c.payload))
  }

  method ValidWebp(data: Bytes) returns (valid: bool)
    ensures valid <==> IsWebp(data)
  {
    hide IsWebp, AcceptsRiff;
    WebpIsAccepted(data);
    if |data| < 20 || data[..4] != RIFF || data[8..12] != WEBP { return false; }
    if LittleEndian(data[4..8]) != |data| - 8 { return false; }
    valid := ScanRiff(data);
  }

  method ScanRiff(data: Bytes) returns (valid: bool)
    requires |data| >= 12
    ensures valid <==> AcceptsRiff(data, 12, false)
  {
    hide IsImage;
    var offset := 12;
    var saw := false;
    while offset + 8 <= |data|
      invariant 12 <= offset <= |data|
      invariant AcceptsRiff(data, 12, false) == AcceptsRiff(data, offset, saw)
      decreases |data| - offset
    {
      var kind := data[offset..offset + 4];
      var size := LittleEndian(data[offset + 4..offset + 8]);
      var end := offset + 8 + size + size % 2;
      if end > |data| { return false; }
      var payload := data[offset + 8..offset + 8 + size];
      var image := LooksLikeImage(kind, payload);
      if image { saw := true; }
      offset := end;
    }
    return saw && offset == |data|;
  }

  method LooksLikeImage(kind: Bytes, payload: Bytes) returns (image: bool)
    ensures image <==> IsImage(kind, payload)
  {
    image := false;
    var size := |payload|;
    if kind == VP8 && size >= 10 && payload[3..6] == FRAME_START { image := true; }
    if kind == VP8L && size >= 5 && payload[0] == 0x2F { image := true; }
    if kind == ANMF && size >= 24 {
      var frameKind := payload[16..20];
      var frameSize := LittleEndian(payload[20..24]);
      if (frameKind == VP8 || frameKind == VP8L) && 24 + frameSize + frameSize % 2 <= size { image := true; }
    }
  }

  lemma RiffRoundTrip(before: Bytes, c: RiffChunk, after: Bytes)
    requires IsRiffChunk(c)
    ensures var data := before + RiffBytes(c) + after; RiffFits(data, |before|) && RiffAt(data, |before|) == c
  {
    var data, o, n := before + RiffBytes(c) + after, |before|, |c.payload|;
    LittleRoundTrip(n, [0, 0, 0, 0]);
    assert data[o..o + 4] == c.kind;
    assert data[o + 4..o + 8] == LittleBytes(n);
    assert data[o + 8..o + 8 + n] == c.payload;
    assert data[o + 8 + n..o + 8 + n + n % 2] == c.pad;
  }

  lemma RiffIsSerialised(data: Bytes, offset: nat)
    requires RiffFits(data, offset)
    ensures var c := RiffAt(data, offset); data[offset..offset + |RiffBytes(c)|] == RiffBytes(c)
  {
    var c := RiffAt(data, offset);
    var n := |c.payload|;
    LittleRoundTrip(0, data[offset + 4..offset + 8]);
    assert data[offset..offset + 8 + n + n % 2]
           == data[offset..offset + 4] + data[offset + 4..offset + 8] + data[offset + 8..offset + 8 + n]
              + data[offset + 8 + n..offset + 8 + n + n % 2];
  }

  ghost predicate HasImage(chunks: seq<RiffChunk>) {
    exists c :: c in chunks && IsImage(c.kind, c.payload)
  }

  lemma HasImageSplit(c: RiffChunk, rest: seq<RiffChunk>)
    ensures HasImage([c] + rest) <==> IsImage(c.kind, c.payload) || HasImage(rest)
  {
    hide IsImage;
    if HasImage(rest) {
      var x :| x in rest && IsImage(x.kind, x.payload);
      assert x in [c] + rest;
    }
    if IsImage(c.kind, c.payload) { assert c in [c] + rest; }
  }

  lemma {:induction false} AcceptsRiffSerialised(before: Bytes, chunks: seq<RiffChunk>, saw: bool)
    requires forall c :: c in chunks ==> IsRiffChunk(c)
    ensures AcceptsRiff(before + RiffSerialise(chunks), |before|, saw) <==> saw || HasImage(chunks)
    decreases |chunks|
  {
    hide RiffFits, RiffAt, RiffBytes, IsImage, IsRiffChunk, HasImage;
    if chunks == [] {
      NoImages();
    } else {
      var c, rest := chunks[0], chunks[1..];
      var head, tail := RiffBytes(c), RiffSerialise(rest);
      RiffRoundTrip(before, c, tail);
      assert before + RiffSerialise(chunks) == before + head + tail && before + head + tail == (before + head) + tail;
      assert chunks == [c] + rest;
      HasImageSplit(c, rest);
      AcceptsRiffSerialised(before + head, rest, saw || IsImage(c.kind, c.payload));
    }
  }

  lemma NoImages()
    ensures !HasImage([])
  {
  }

  lemma {:induction false} AcceptedRiffIsSerialised(data: Bytes, offset: nat, saw: bool) returns (chunks: seq<RiffChunk>)
    requires offset <= |data| && AcceptsRiff(data, offset, saw)
    ensures forall c :: c in chunks ==> IsRiffChunk(c)
    ensures data[offset..] == RiffSerialise(chunks)
    decreases |data| - offset
  {
    hide RiffFits, IsImage, IsRiffChunk;
    if offset + 8 > |data| {
      chunks := [];
    } else {
      var c := RiffAt(data, offset);
      var end := offset + |RiffBytes(c)|;
      RiffIsSerialised(data, offset);
      var rest := AcceptedRiffIsSerialised(data, end, saw || IsImage(c.kind, c.payload));
      chunks := [c] + rest;
      assert chunks[1..] == rest;
      assert data[offset..] == data[offset..end] + data[end..];
    }
  }

  /** What the checks before the loop ask for. */
  predicate RiffHeader(data: Bytes) {
    |data| >= 20 && data[..4] == RIFF && data[8..12] == WEBP && LittleEndian(data[4..8]) == |data| - 8
  }

  function RiffFile(chunks: seq<RiffChunk>): Bytes
    requires forall c :: c in chunks ==> IsRiffChunk(c)
    requires 4 + |RiffSerialise(chunks)| < TWO_32
  {
    RIFF + LittleBytes(4 + |RiffSerialise(chunks)|) + WEBP + RiffSerialise(chunks)
  }

  lemma FileIsAccepted(chunks: seq<RiffChunk>)
    requires forall c :: c in chunks ==> IsRiffChunk(c)
    requires 4 + |RiffSerialise(chunks)| < TWO_32 && HasImage(chunks)
    ensures RiffHeader(RiffFile(chunks)) && AcceptsRiff(RiffFile(chunks), 12, false)
  {
    hide AcceptsRiff, HasImage, LittleBytes, LittleEndian, RiffSerialise, IsRiffChunk;
    var data, n := RiffFile(chunks), 4 + |RiffSerialise(chunks)|;
    var header := RIFF + LittleBytes(n) + WEBP;
    LittleRoundTrip(n, [0, 0, 0, 0]);
    assert data[4..8] == LittleBytes(n) && data[8..12] == WEBP && data[..4] == RIFF;
    assert data == header + RiffSerialise(chunks);
    AcceptsRiffSerialised(header, chunks, false);
    ImagesAreLong(chunks);
  }

  lemma AcceptedIsFile(data: Bytes) returns (chunks: seq<RiffChunk>)
    requires RiffHeader(data) && AcceptsRiff(data, 12, false)
    ensures (forall c :: c in chunks ==> IsRiffChunk(c)) && HasImage(chunks)
    ensures 4 + |RiffSerialise(chunks)| < TWO_32 && data == RiffFile(chunks)
  {
    hide AcceptsRiff, HasImage, LittleBytes, LittleEndian, RiffSerialise, IsRiffChunk;
    chunks := AcceptedRiffIsSerialised(data, 12, false);
    LittleRoundTrip(0, data[4..8]);
    assert data == data[..4] + data[4..8] + data[8..12] + data[12..];
    AcceptsRiffSerialised(data[..12], chunks, false);
    assert data[..12] + RiffSerialise(chunks) == data;
  }

  lemma WebpIsAccepted(data: Bytes)
    ensures IsWebp(data) <==> RiffHeader(data) && AcceptsRiff(data, 12, false)
  {
    hide AcceptsRiff, IsImage;
    if IsWebp(data) {
      var chunks: seq<RiffChunk> :|
        && (forall c :: c in chunks ==> IsRiffChunk(c))
        && (exists c :: c in chunks && IsImage(c.kind, c.payload))
        && 4 + |RiffSerialise(chunks)| < TWO_32
        && data == RIFF + LittleBytes(4 + |RiffSerialise(chunks)|) + WEBP + RiffSerialise(chunks);
      FileIsAccepted(chunks);
    }
    if RiffHeader(data) && AcceptsRiff(data, 12, false) {
      var chunks := AcceptedIsFile(data);
    }
  }

  lemma {:induction false} ImagesAreLong(chunks: seq<RiffChunk>)
    requires forall c :: c in chunks ==> IsRiffChunk(c)
    requires HasImage(chunks)
    ensures |RiffSerialise(chunks)| >= 8
  {
  }
}
