/** The JPEG validator (core/domain/image_attachment.py): it accepts exactly the files that are
    a list of marker segments, the last frame header among them long enough, followed by a scan
    whose first end-of-image marker ends the file. */
module Jpegs {
  import opened Bitmaps

  const START_OF_IMAGE: Bytes := [0xFF, 0xD8]
  const END_OF_IMAGE: Bytes := [0xFF, 0xD9]

  /** `fill` bytes 0xFF, the marker, and its parameters unless it stands alone. */
  datatype Segment = Segment(fill: nat, marker: byte, parameters: Bytes)

  predicate StandsAlone(marker: byte) {
    marker == 0xD8 || marker == 0x01 || 0xD0 <= marker <= 0xD7
  }

  predicate IsFrame(marker: byte) {
    0xC0 <= marker <= 0xCF && marker != 0xC4 && marker != 0xC8 && marker != 0xCC
  }

  predicate IsSegment(s: Segment) {
    && s.fill > 0 && s.marker != 0xFF && s.marker != 0xD9
    && if StandsAlone(s.marker) then s.parameters == [] else |s.parameters| + 2 < 0x1_0000
  }

  function Fill(n: nat): (b: Bytes)
    ensures |b| == n && forall i :: 0 <= i < n ==> b[i] == 0xFF
  {
    if n == 0 then [] else [0xFF] + Fill(n - 1)
  }

  function PairValue(hi: byte, lo: byte): nat {
    hi as int * 256 + lo
  }

  function SegmentBytes(s: Segment): (b: Bytes)
    requires IsSegment(s)
    ensures |b| == s.fill + 1 + if StandsAlone(s.marker) then 0 else 2 + |s.parameters|
  {
    var n := |s.parameters| + 2;
    Fill(s.fill) + [s.marker] + if StandsAlone(s.marker) then [] else [(n / 256) as byte, (n % 256) as byte] + s.parameters
  }

  function SegmentsBytes(segments: seq<Segment>): Bytes
    requires forall s :: s in segments ==> IsSegment(s)
  {
    if segments == [] then [] else SegmentBytes(segments[0]) + SegmentsBytes(segments[1..])
  }

  /** Some segment is a frame header, and the last one that is has six parameter bytes or more. */
  predicate HasFrame(segments: seq<Segment>) {
    exists i :: 0 <= i < |segments| && IsLastFrame(segments, i) && |segments[i].parameters| >= 6
  }

  predicate IsLastFrame(segments: seq<Segment>, i: nat)
    requires i < |segments|
  {
    IsFrame(segments[i].marker) && forall j :: i < j < |segments| ==> !IsFrame(segments[j].marker)
  }

  predicate EndsAt(data: Bytes, i: nat) {
    i + 2 <= |data| && data[i] == 0xFF && data[i + 1] == 0xD9
  }

  predicate NoEnd(data: Bytes, from: nat, to: nat) {
    forall i :: from <= i < to ==> !EndsAt(data, i)
  }

  predicate IsScan(s: Segment, coded: Bytes) {
    IsSegment(s) && s.marker == 0xDA && NoEnd(coded + END_OF_IMAGE, 0, |coded|)
  }

  function File(segments: seq<Segment>, scan: Segment, coded: Bytes): Bytes
    requires (forall s :: s in segments ==> IsSegment(s)) && IsSegment(scan)
  {
    START_OF_IMAGE + SegmentsBytes(segments) + SegmentBytes(scan) + coded + END_OF_IMAGE
  }

  ghost predicate IsJpeg(data: Bytes) {
    exists segments: seq<Segment>, scan: Segment, coded: Bytes ::
      && (forall s :: s in segments ==> IsSegment(s) && s.marker != 0xDA)
      && HasFrame(segments) && IsScan(scan, coded)
      && data == File(segments, scan, coded)
  }

  // ------------------------------------------------------------------ reading

  function AfterFill(data: Bytes, offset: nat): (p: nat)
    requires offset <= |data|
    ensures offset <= p <= |data| && (forall i :: offset <= i < p ==> data[i] == 0xFF) && (p < |data| ==> data[p] != 0xFF)
    decreases |data| - offset
  {
    if offset < |data| && data[offset] == 0xFF then AfterFill(data, offset + 1) else offset
  }

  /** A segment can be read: a marker, and room for the parameters it announces. */
  predicate Fits(data: Bytes, offset: nat) {
    offset < |data| && data[offset] == 0xFF &&
    var p := AfterFill(data, offset);
    p < |data| && data[p] != 0xD9 &&
    (StandsAlone(data[p])
     || (p + 3 <= |data| && var n := PairValue(data[p + 1], data[p + 2]); n >= 2 && p + 1 + n <= |data|))
  }

  function SegmentAt(data: Bytes, offset: nat): (s: Segment)
    requires Fits(data, offset)
    ensures IsSegment(s) && offset + |SegmentBytes(s)| <= |data|
  {
    var p := AfterFill(data, offset);
    Segment(p - offset, data[p],
            if StandsAlone(data[p]) then [] else data[p + 3..p + 1 + PairValue(data[p + 1], data[p + 2])])
  }

  /** What data.find returns, with the length of the data for -1. */
  function Find(data: Bytes, from: nat): (end: nat)
    requires from <= |data|
    ensures from <= end <= |data| && NoEnd(data, from, end) && (end < |data| ==> EndsAt(data, end))
    decreases |data| - from
  {
    if from == |data| || EndsAt(data, from) then from else Find(data, from + 1)
  }

  function FrameAfter(s: Segment, frame: bool): bool {
    if IsFrame(s.marker) then |s.parameters| >= 6 else frame
  }

  /** What the loop accepts from an offset on. */
  predicate Accepted(data: Bytes, offset: nat, frame: bool)
    decreases |data| - offset
  {
    offset + 2 < |data| && Fits(data, offset) &&
    var s := SegmentAt(data, offset);
    var end := offset + |SegmentBytes(s)|;
    if s.marker == 0xDA then frame && Find(data, end) == |data| - 2 else Accepted(data, end, FrameAfter(s, frame))
  }

  method ValidJpeg(data: Bytes) returns (valid: bool)
    ensures valid <==> IsJpeg(data)
  {
    hide IsJpeg, Accepted;
    JpegIsAccepted(data);
    if |data| < 12 || !(START_OF_IMAGE <= data) || data[|data| - 2..] != END_OF_IMAGE { return false; }
    valid := ScanSegments(data);
  }

  method ScanSegments(data: Bytes) returns (valid: bool)
    requires |data| >= 12
    ensures valid <==> Accepted(data, 2, false)
  {
    hide Accepted, AfterFill, Find, StandsAlone, IsFrame, PairValue;
    var offset := 2;
    var sawFrame, sawScan := false, false;
    while offset < |data| - 2
      invariant 2 <= offset <= |data| && !sawScan
      invariant Accepted(data, 2, false) == Accepted(data, offset, sawFrame)
      decreases |data| - offset
    {
      ReadsOne(data, offset, sawFrame);
      ghost var start := offset;
      if data[offset] != 0xFF { return false; }
      while offset < |data| && data[offset] == 0xFF
        invariant start <= offset <= |data| && forall i :: start <= i < offset ==> data[i] == 0xFF
      {
        offset := offset + 1;
      }
      assert offset == AfterFill(data, start);
      if offset >= |data| { return false; }
      var marker := data[offset];
      offset := offset + 1;
      if marker == 0xD9 { return sawFrame && sawScan && offset == |data|; }
      if StandsAlone(marker) { continue; }
      if offset + 2 > |data| { return false; }
      var length := PairValue(data[offset], data[offset + 1]);
      if length < 2 || offset + length > |data| { return false; }
      if IsFrame(marker) { sawFrame := length >= 8; }
      if marker == 0xDA {
        sawScan := true;
        return sawFrame && Find(data, offset + length) == |data| - 2;
      }
      offset := offset + length;
    }
    NothingLeft(data, offset, sawFrame);
    return false;
  }

  lemma NothingLeft(data: Bytes, offset: nat, frame: bool)
    requires offset + 2 >= |data|
    ensures !Accepted(data, offset, frame)
  {
  }

  /** The segment read, in terms of the bytes looked at. */
  lemma SegmentIs(data: Bytes, offset: nat)
    requires Fits(data, offset)
    ensures var p, s := AfterFill(data, offset), SegmentAt(data, offset);
            && p < |data| && s.marker == data[p]
            && if StandsAlone(data[p]) then offset + |SegmentBytes(s)| == p + 1
               else p + 3 <= |data| && var n := PairValue(data[p + 1], data[p + 2]);
                    n >= 2 && offset + |SegmentBytes(s)| == p + 1 + n && |s.parameters| == n - 2
  {
    hide AfterFill;
  }

  /** One turn of the loop, in terms of the bytes it looks at. */
  lemma ReadsOne(data: Bytes, offset: nat, frame: bool)
    requires offset + 2 < |data|
    ensures Accepted(data, offset, frame) <==>
            && data[offset] == 0xFF
            && var p := AfterFill(data, offset);
               p < |data| && data[p] != 0xD9 &&
               if StandsAlone(data[p]) then Accepted(data, p + 1, frame)
               else
                 p + 3 <= |data| &&
                 var end := p + 1 + PairValue(data[p + 1], data[p + 2]);
                 var now := if IsFrame(data[p]) then end - p - 1 >= 8 else frame;
                 p + 3 <= end <= |data| &&
                 if data[p] == 0xDA then now && Find(data, end) == |data| - 2 else Accepted(data, end, now)
  {
    hide AfterFill, Find, SegmentAt, SegmentBytes, PairValue, IsSegment;
    if Fits(data, offset) { SegmentIs(data, offset); }
  }

  // -------------------------------------------------------------- round trips

  lemma {:induction false} FillIsSkipped(before: Bytes, n: nat, after: Bytes)
    requires after != [] && after[0] != 0xFF
    ensures AfterFill(before + Fill(n) + after, |before|) == |before| + n
    decreases n
  {
    var data := before + Fill(n) + after;
    if n > 0 {
      FillIsSkipped(before + [0xFF], n - 1, after);
      assert data == before + [0xFF] + Fill(n - 1) + after;
    }
  }

  lemma SegmentRoundTrip(before: Bytes, s: Segment, after: Bytes)
    requires IsSegment(s)
    ensures var data := before + SegmentBytes(s) + after; Fits(data, |before|) && SegmentAt(data, |before|) == s
  {
    var data, p, n := before + SegmentBytes(s) + after, |before| + s.fill, |s.parameters| + 2;
    var rest := [s.marker] + (if StandsAlone(s.marker) then [] else [(n / 256) as byte, (n % 256) as byte] + s.parameters) + after;
    assert data == before + Fill(s.fill) + rest;
    FillIsSkipped(before, s.fill, rest);
    assert data[p] == s.marker && data[|before|] == 0xFF;
    if !StandsAlone(s.marker) {
      assert data[p + 1] == (n / 256) as byte && data[p + 2] == (n % 256) as byte;
      assert data[p + 3..p + 1 + n] == s.parameters;
    }
  }

  lemma SegmentIsWritten(data: Bytes, offset: nat)
    requires Fits(data, offset)
    ensures var s := SegmentAt(data, offset); data[offset..offset + |SegmentBytes(s)|] == SegmentBytes(s)
  {
    var s, p := SegmentAt(data, offset), AfterFill(data, offset);
    var end := offset + |SegmentBytes(s)|;
    assert data[offset..p] == Fill(s.fill);
    if StandsAlone(s.marker) {
      assert data[offset..end] == data[offset..p] + [data[p]];
    } else {
      var n := |s.parameters| + 2;
      assert data[p + 1] == (n / 256) as byte && data[p + 2] == (n % 256) as byte;
      assert data[offset..end] == data[offset..p] + [data[p]] + [data[p + 1], data[p + 2]] + data[p + 3..end];
    }
  }

  /** Whether the last frame header of a list is long enough, or the flag when it has none. */
  function FrameOf(segments: seq<Segment>, frame: bool): bool {
    if segments == [] then frame else FrameOf(segments[1..], FrameAfter(segments[0], frame))
  }

  lemma {:induction false} FrameOfMeans(segments: seq<Segment>, frame: bool)
    ensures FrameOf(segments, frame) <==>
            HasFrame(segments) || (frame && forall i :: 0 <= i < |segments| ==> !IsFrame(segments[i].marker))
    decreases |segments|
  {
    hide IsFrame;
    if segments != [] {
      var rest := segments[1..];
      FrameOfMeans(rest, FrameAfter(segments[0], frame));
      assert forall i :: 0 <= i < |rest| ==> rest[i] == segments[i + 1];
      if HasFrame(rest) {
        var i :| 0 <= i < |rest| && IsLastFrame(rest, i) && |rest[i].parameters| >= 6;
        assert IsLastFrame(segments, i + 1);
      }
      if HasFrame(segments) {
        var i :| 0 <= i < |segments| && IsLastFrame(segments, i) && |segments[i].parameters| >= 6;
        if i > 0 { assert IsLastFrame(rest, i - 1); }
      }
    }
  }

  lemma Regroup(a: Bytes, b: Bytes, c: Bytes, d: Bytes)
    ensures a + (b + c) + d == a + b + (c + d) && a + (b + c) + d == (a + b) + c + d
  {
  }

  /** The loop takes in a list of segments one by one, whatever follows. */
  lemma {:induction false} TakesSegments(before: Bytes, segments: seq<Segment>, after: Bytes, frame: bool)
    requires forall s :: s in segments ==> IsSegment(s) && s.marker != 0xDA
    requires |after| >= 3
    ensures Accepted(before + SegmentsBytes(segments) + after, |before|, frame)
            == Accepted(before + SegmentsBytes(segments) + after, |before| + |SegmentsBytes(segments)|, FrameOf(segments, frame))
    decreases |segments|
  {
    hide Fits, SegmentAt, FrameAfter, SegmentBytes, IsSegment, Find;
    if segments != [] {
      var s, rest := segments[0], segments[1..];
      var first, others := SegmentBytes(s), SegmentsBytes(rest);
      Regroup(before, first, others, after);
      SegmentRoundTrip(before, s, others + after);
      TakesSegments(before + first, rest, after, FrameAfter(s, frame));
    }
  }

  lemma TakesScan(before: Bytes, scan: Segment, coded: Bytes)
    requires IsScan(scan, coded)
    ensures Accepted(before + SegmentBytes(scan) + (coded + END_OF_IMAGE), |before|, true)
  {
    hide Fits, SegmentAt, EndsAt, Find;
    var tail := coded + END_OF_IMAGE;
    var data, end := before + SegmentBytes(scan) + tail, |before + SegmentBytes(scan)|;
    SegmentRoundTrip(before, scan, tail);
    assert data[end..] == tail;
    EndIsThere(coded);
    FindsEnd(data, end, tail, |coded|);
  }

  lemma EndIsThere(coded: Bytes)
    ensures EndsAt(coded + END_OF_IMAGE, |coded|)
  {
  }

  lemma FindsEnd(data: Bytes, from: nat, tail: Bytes, n: nat)
    requires from <= |data| && data[from..] == tail && n < |tail| && EndsAt(tail, n) && NoEnd(tail, 0, n)
    ensures Find(data, from) == from + n
  {
    hide Find, EndsAt;
    Shifted(data, from, tail, n);
    forall i | from <= i < from + n ensures !EndsAt(data, i) {
      Shifted(data, from, tail, i - from);
    }
    FirstEnd(data, from, from + n);
  }

  lemma Shifted(data: Bytes, from: nat, tail: Bytes, i: nat)
    requires from <= |data| && data[from..] == tail
    ensures EndsAt(data, from + i) == EndsAt(tail, i)
  {
  }

  lemma FirstEnd(data: Bytes, from: nat, end: nat)
    requires from <= end < |data| && EndsAt(data, end) && NoEnd(data, from, end)
    ensures Find(data, from) == end
  {
    hide Find, EndsAt;
  }

  lemma {:induction false} AcceptedIsFile(data: Bytes, offset: nat, frame: bool)
    returns (segments: seq<Segment>, scan: Segment, coded: Bytes)
    requires Accepted(data, offset, frame)
    ensures forall s :: s in segments ==> IsSegment(s) && s.marker != 0xDA
    ensures IsScan(scan, coded) && FrameOf(segments, frame)
    ensures data[offset..] == SegmentsBytes(segments) + SegmentBytes(scan) + coded + END_OF_IMAGE
    decreases |data| - offset
  {
    hide Fits, SegmentAt, IsFrame, SegmentBytes;
    var s := SegmentAt(data, offset);
    var end := offset + |SegmentBytes(s)|;
    SegmentIsWritten(data, offset);
    if s.marker == 0xDA {
      segments, scan, coded := [], s, data[end..|data| - 2];
      CodedEnds(data, end);
      assert data[offset..] == data[offset..end] + data[end..];
    } else {
      var rest;
      rest, scan, coded := AcceptedIsFile(data, end, FrameAfter(s, frame));
      segments := [s] + rest;
      assert segments[1..] == rest;
      assert data[offset..] == data[offset..end] + data[end..];
    }
  }

  lemma CodedEnds(data: Bytes, end: nat)
    requires end <= |data| && |data| >= 2 && Find(data, end) == |data| - 2
    ensures var coded := data[end..|data| - 2];
            data[end..] == coded + END_OF_IMAGE && NoEnd(coded + END_OF_IMAGE, 0, |coded|)
  {
    hide Find;
    var coded, tail := data[end..|data| - 2], data[end..];
    assert EndsAt(data, |data| - 2);
    assert tail == coded + END_OF_IMAGE;
    hide EndsAt;
    forall i | 0 <= i < |coded| ensures !EndsAt(tail, i) {
      Shifted(data, end, tail, i);
      assert !EndsAt(data, end + i);
    }
  }

  lemma FileIsAccepted(segments: seq<Segment>, scan: Segment, coded: Bytes)
    requires forall s :: s in segments ==> IsSegment(s) && s.marker != 0xDA
    requires HasFrame(segments) && IsScan(scan, coded)
    ensures var data := File(segments, scan, coded);
            |data| >= 12 && START_OF_IMAGE <= data && data[|data| - 2..] == END_OF_IMAGE && Accepted(data, 2, false)
  {
    hide Accepted, SegmentBytes, SegmentsBytes, HasFrame, EndsAt, IsSegment;
    var data, head := File(segments, scan, coded), START_OF_IMAGE + SegmentsBytes(segments);
    var tail := SegmentBytes(scan) + (coded + END_OF_IMAGE);
    assert data == head + tail && data == head + SegmentBytes(scan) + (coded + END_OF_IMAGE);
    FrameOfMeans(segments, false);
    TakesSegments(START_OF_IMAGE, segments, tail, false);
    TakesScan(head, scan, coded);
    FramesAreLong(segments);
  }

  lemma AcceptedFile(data: Bytes) returns (segments: seq<Segment>, scan: Segment, coded: Bytes)
    requires START_OF_IMAGE <= data && Accepted(data, 2, false)
    ensures forall s :: s in segments ==> IsSegment(s) && s.marker != 0xDA
    ensures HasFrame(segments) && IsScan(scan, coded) && data == File(segments, scan, coded)
  {
    hide Accepted, SegmentBytes, SegmentsBytes, HasFrame, NoEnd, IsSegment, FrameOf, IsFrame;
    segments, scan, coded := AcceptedIsFile(data, 2, false);
    FrameOfMeans(segments, false);
    assert data == START_OF_IMAGE + data[2..];
    assert data == File(segments, scan, coded);
  }

  lemma JpegIsAccepted(data: Bytes)
    ensures IsJpeg(data) <==>
            |data| >= 12 && START_OF_IMAGE <= data && data[|data| - 2..] == END_OF_IMAGE && Accepted(data, 2, false)
  {
    hide Accepted, HasFrame, IsSegment, NoEnd;
    if IsJpeg(data) {
      var segments: seq<Segment>, scan: Segment, coded: Bytes :|
        && (forall s :: s in segments ==> IsSegment(s) && s.marker != 0xDA)
        && HasFrame(segments) && IsScan(scan, coded)
        && data == File(segments, scan, coded);
      FileIsAccepted(segments, scan, coded);
    }
    if START_OF_IMAGE <= data && Accepted(data, 2, false) {
      var segments, scan, coded := AcceptedFile(data);
    }
  }

  lemma {:induction false} FramesAreLong(segments: seq<Segment>)
    requires (forall s :: s in segments ==> IsSegment(s)) && HasFrame(segments)
    ensures |SegmentsBytes(segments)| >= 10
    decreases |segments|
  {
    hide IsFrame;
    var i :| 0 <= i < |segments| && IsLastFrame(segments, i) && |segments[i].parameters| >= 6;
    if i == 0 {
      FrameIsLong(segments[0]);
    } else {
      var rest := segments[1..];
      assert forall j :: 0 <= j < |rest| ==> rest[j] == segments[j + 1];
      assert IsLastFrame(rest, i - 1) && |rest[i - 1].parameters| >= 6;
      FramesAreLong(rest);
    }
  }

  lemma FrameIsLong(s: Segment)
    requires IsSegment(s) && IsFrame(s.marker) && |s.parameters| >= 6
    ensures |SegmentBytes(s)| >= 10
  {
  }
}
