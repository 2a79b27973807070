/** The reader-stream iterator over in-memory buffers: each `nextStream`
    hands out a copy of the next buffer, and after the last one the end
    sentinel, for ever. */
module MemoryReaderStream {
  import opened Primitives
  import opened Wrappers

  /** The contents of the streams in `served`, in order, sentinels dropped. */
  function Delivered(served: seq<Option<seq<byte>>>): seq<seq<byte>>
  {
    if served == [] then []
    else
      var last := served[|served| - 1];
      Delivered(served[..|served| - 1]) + (if last.Some? then [last.value] else [])
  }

  /** `served` is what successive `nextStream` calls return on an iterator
      built from `buffers`. */
  ghost predicate ServedInOrder(buffers: seq<seq<byte>>, served: seq<Option<seq<byte>>>)
  {
    forall i :: 0 <= i < |served| ==> served[i] == if i < |buffers| then Some(buffers[i]) else None
  }

  /** Once at least as many calls as buffers were made, the streams handed
      out are the buffers in construction order, each exactly once; with
      fewer calls they are a prefix of them. */
  lemma {:induction false} DeliveredBuffers(buffers: seq<seq<byte>>, served: seq<Option<seq<byte>>>)
    requires ServedInOrder(buffers, served)
    ensures Delivered(served) == buffers[..Min(|served|, |buffers|)]
  {
    if served != [] {
      var k := |served| - 1;
      DeliveredBuffers(buffers, served[..k]);
      if k < |buffers| {
        assert buffers[..k + 1] == buffers[..k] + [buffers[k]];
      }
    }
  }

  class MemoryReaderStreamIterator {
    /** The buffers given at construction, in order. */
    var buffers: seq<seq<byte>>
    /** The index of the next buffer to hand out. */
    var current: nat
    /** Every value `NextStream` has returned so far, in order (`None` is
        the end sentinel). */
    ghost var served: seq<Option<seq<byte>>>

    /** Call number `i` returned buffer `i` while buffers remained and the
        end sentinel afterwards; the cursor counts the buffers handed out. */
    ghost predicate Valid()
      reads this
    {
      && current == Min(|served|, |buffers|)
      && ServedInOrder(buffers, served)
    }

    constructor (buffers: seq<seq<byte>>)
      ensures Valid()
      ensures this.buffers == buffers && current == 0 && served == []
    {
      this.buffers := buffers;
      current := 0;
      served := [];
    }

    /** The next buffer as a stream, or `None` once every buffer was served. */
    method NextStream() returns (stream: Option<seq<byte>>)
      requires Valid()
      modifies this
      ensures Valid()
      ensures buffers == old(buffers)
      ensures old(current) < |buffers| ==> stream == Some(buffers[old(current)]) && current == old(current) + 1
      ensures old(current) >= |buffers| ==> stream == None && current == old(current)
      ensures served == old(served) + [stream]
    {
      if current >= |buffers| {
        stream := None;
      } else {
        var buf := buffers[current];
        current := current + 1;
        stream := Some(buf);
      }
      served := served + [stream];
    }

    /** Releases nothing: the iterator holds no resource besides its buffers. */
    method Close()
      ensures buffers == old(buffers) && current == old(current) && served == old(served)
    {
    }

    /** Discards the reader's statistics. */
    method UpdateMetrics(numRows: int64, numBatches: int64, decompressTime: int64,
                         deserializeTime: int64, totalReadTime: int64)
      ensures buffers == old(buffers) && current == old(current) && served == old(served)
    {
    }
  }
}
