/** The reader-stream iterator over byte ranges of local files: each
    `nextStream` consumes the next segment, opens its file and returns a
    stream bounded to the segment's range. */
module LocalFileReaderStream {
  import opened Primitives
  import opened Wrappers

  /** A byte range `[offset, offset + length)` of the named file. */
  datatype SegmentInfo = SegmentInfo(filename: string, offset: int64, length: int64)

  /** The local files, by name, at the time of a call. */
  type FileSystem = map<string, seq<byte>>

  /** The failure raised when a segment's file cannot be opened. */
  datatype ReadError = OpenFailed(message: string)

  /** Opening a file for reading: its contents, or `None` when it does not exist. */
  function OpenFile(fs: FileSystem, filename: string): (file: Option<seq<byte>>)
    ensures file.Some? <==> filename in fs
    ensures file.Some? ==> file.value == fs[filename]
  {
    if filename in fs then Some(fs[filename]) else None
  }

  /** The bytes a stream bounded to `[offset, offset + length)` of `file`
      yields: a negative offset or length is refused, and a range running
      past the end of the file stops at the end. */
  function BoundedStream(file: seq<byte>, offset: int64, length: int64): (r: Option<seq<byte>>)
    ensures r.Some? <==> 0 <= offset && 0 <= length
    ensures r.Some? ==> |r.value| <= length as int
    ensures r.Some? && r.value != [] ==>
              offset as int + |r.value| <= |file| && r.value == file[offset..offset as int + |r.value|]
    ensures r.Some? && offset as int + length as int <= |file| ==>
              r.value == file[offset..offset as int + length as int]
    ensures r.Some? && offset as int < |file| < offset as int + length as int ==> r.value == file[offset..]
  {
    if offset < 0 || length < 0 then None
    else if offset as int >= |file| then Some([])
    else Some(file[offset..Min(offset as int + length as int, |file|)])
  }

  /** What a call of `nextStream` that consumes `seg` yields: a failure when
      the file is missing, the null stream when the range is refused, and
      otherwise the bounded stream. */
  function SegmentStream(fs: FileSystem, seg: SegmentInfo): (r: Result<Option<seq<byte>>, ReadError>)
    ensures r.Err? <==> seg.filename !in fs
    ensures r.Err? ==> r.error == OpenFailed("Failed to open file: " + seg.filename)
    ensures r == Ok(None) <==> seg.filename in fs && (seg.offset < 0 || seg.length < 0)
    ensures r.Ok? && r.value.Some? ==>
              |r.value.value| <= seg.length as int
              && (r.value.value != [] ==>
                    seg.offset as int + |r.value.value| <= |fs[seg.filename]|
                    && r.value.value == fs[seg.filename][seg.offset..seg.offset as int + |r.value.value|])
  {
    match OpenFile(fs, seg.filename)
    case None => Err(OpenFailed("Failed to open file: " + seg.filename))
    case Some(file) => Ok(BoundedStream(file, seg.offset, seg.length))
  }

  /** `consumed` records, call by call, the segment each `nextStream`
      consumed (`None` once none remained). */
  ghost predicate ConsumedInOrder(segments: seq<SegmentInfo>, consumed: seq<Option<SegmentInfo>>)
  {
    forall i :: 0 <= i < |consumed| ==> consumed[i] == if i < |segments| then Some(segments[i]) else None
  }

  class LocalFileReaderStreamIterator {
    /** The segments given at construction, in order. */
    var segments: seq<SegmentInfo>
    /** The index of the next segment to consume. */
    var current: nat
    /** The segment each call consumed so far. */
    ghost var consumed: seq<Option<SegmentInfo>>

    ghost predicate Valid()
      reads this
    {
      && current == Min(|consumed|, |segments|)
      && ConsumedInOrder(segments, consumed)
    }

    constructor (segments: seq<SegmentInfo>)
      ensures Valid()
      ensures this.segments == segments && current == 0 && consumed == []
    {
      this.segments := segments;
      current := 0;
      consumed := [];
    }

    /** Consumes the next segment and returns its bounded stream; the cursor
        moves before the file is opened, so it moves on failure too. */
    method NextStream(fs: FileSystem) returns (r: Result<Option<seq<byte>>, ReadError>)
      requires Valid()
      modifies this
      ensures Valid()
      ensures segments == old(segments)
      ensures old(current) >= |segments| ==> r == Ok(None) && current == old(current)
      ensures old(current) < |segments| ==>
                current == old(current) + 1 && r == SegmentStream(fs, segments[old(current)])
      ensures consumed == old(consumed) + [if old(current) < |segments| then Some(segments[old(current)]) else None]
    {
      if current >= |segments| {
        consumed := consumed + [None];
        return Ok(None);
      }
      var seg := segments[current];
      current := current + 1;
      consumed := consumed + [Some(seg)];
      var fileRes := OpenFile(fs, seg.filename);
      if fileRes.None? {
        return Err(OpenFailed("Failed to open file: " + seg.filename));
      }
      var file := fileRes.value;
      var streamRes := BoundedStream(file, seg.offset, seg.length);
      if streamRes.None? {
        return Ok(None);
      }
      return Ok(streamRes);
    }

    /** Releases nothing: no file stays open between calls. */
    method Close()
      ensures segments == old(segments) && current == old(current) && consumed == old(consumed)
    {
    }

    /** Discards the reader's statistics. */
    method UpdateMetrics(numRows: int64, numBatches: int64, decompressTime: int64,
                         deserializeTime: int64, totalReadTime: int64)
      ensures segments == old(segments) && current == old(current) && consumed == old(consumed)
    {
    }
  }
}
