/** The in-memory remote-shuffle-service client used by the shuffle tests:
    it accepts every push in full and keeps, per partition id, the bytes
    pushed to it. */
module MockRss {
  import opened Primitives

  /** The bytes recorded for partition `p`, or nothing when `p` has never
      been pushed to. */
  function Recorded(data: map<int32, seq<byte>>, p: int32): seq<byte>
  {
    if p in data then data[p] else []
  }

  /** The recorded data after `payload` is pushed to partition `p`. */
  function Append(data: map<int32, seq<byte>>, p: int32, payload: seq<byte>): (r: map<int32, seq<byte>>)
    ensures r.Keys == data.Keys + {p}
    ensures r[p] == Recorded(data, p) + payload
    ensures forall q :: q in data && q != p ==> r[q] == data[q]
  {
    data[p := Recorded(data, p) + payload]
  }

  /** One call of `pushPartitionData`, as it was issued. */
  datatype Push = Push(partitionId: int32, payload: seq<byte>)

  /** The data a fresh client records after the pushes of `log`, in order. */
  function Replay(log: seq<Push>): map<int32, seq<byte>>
  {
    if log == [] then map[]
    else
      var last := log[|log| - 1];
      Append(Replay(log[..|log| - 1]), last.partitionId, last.payload)
  }

  /** The payloads of the pushes in `log` addressed to partition `p`,
      concatenated in push order. */
  function PushedTo(log: seq<Push>, p: int32): seq<byte>
  {
    if log == [] then []
    else
      var last := log[|log| - 1];
      PushedTo(log[..|log| - 1], p) + (if last.partitionId == p then last.payload else [])
  }

  /** Some push of `log` is addressed to partition `p`. */
  ghost predicate Addressed(log: seq<Push>, p: int32)
  {
    exists i :: 0 <= i < |log| && log[i].partitionId == p
  }

  /** Over any sequence of pushes, a partition is present exactly when some
      push went to it, and its bytes are the in-order concatenation of the
      payloads pushed to it. */
  lemma {:induction false} ReplayIsConcatenation(log: seq<Push>, p: int32)
    ensures p in Replay(log) <==> Addressed(log, p)
    ensures Recorded(Replay(log), p) == PushedTo(log, p)
  {
    if log != [] {
      var init := log[..|log| - 1];
      ReplayIsConcatenation(init, p);
      if Addressed(log, p) && log[|log| - 1].partitionId != p {
        var i :| 0 <= i < |log| && log[i].partitionId == p;
        assert init[i].partitionId == p;
      }
      if Addressed(init, p) {
        var i :| 0 <= i < |init| && init[i].partitionId == p;
        assert log[i].partitionId == p;
      }
    }
  }

  class MockRssClient {
    /** The bytes received so far, per partition id. */
    var data: map<int32, seq<byte>>
    /** Every push issued so far, in order. */
    ghost var log: seq<Push>

    /** The recorded data is what the logged pushes produce. */
    ghost predicate Valid()
      reads this
    {
      data == Replay(log)
    }

    constructor ()
      ensures Valid()
      ensures data == map[] && log == []
    {
      data := map[];
      log := [];
    }

    /** Appends the first `size` bytes of `bytes` to partition `partitionId`
        and reports them all as accepted. */
    method PushPartitionData(partitionId: int32, bytes: seq<byte>, size: int64) returns (accepted: int32)
      requires 0 <= size as int <= |bytes|
      modifies this
      ensures data == Append(old(data), partitionId, bytes[..size])
      ensures log == old(log) + [Push(partitionId, bytes[..size])]
      ensures old(Valid()) ==> Valid()
      ensures accepted == TruncateToInt32(size)
      ensures size as int < 0x8000_0000 ==> accepted as int == size as int
    {
      if partitionId !in data {
        data := data[partitionId := []];
      }
      data := data[partitionId := data[partitionId] + bytes[..size]];
      log := log + [Push(partitionId, bytes[..size])];
      accepted := TruncateToInt32(size);
    }

    /** Ends the session; the mock holds nothing to flush. */
    method Stop()
      ensures data == old(data) && log == old(log)
    {
    }

    /** The recorded data, as it is. */
    function GetData(): (m: map<int32, seq<byte>>)
      reads this
      ensures m == data
    {
      data
    }
  }

  /** One push of a 1024-byte payload to partition 2, then two stops: the
      mock then holds exactly that payload for partition 2 and nothing else. */
  method PushOnceAndStopTwice(payload: seq<byte>) returns (recorded: map<int32, seq<byte>>)
    requires |payload| == 1024
    ensures recorded == map[2 := payload]
  {
    var client := new MockRssClient();
    assert Recorded(client.data, 2) == [];
    var accepted := client.PushPartitionData(2, payload, 1024);
    assert accepted == 1024;
    client.Stop();
    client.Stop();
    assert payload[..1024] == payload;
    assert client.data.Keys == {2};
    assert client.data[2] == payload;
    recorded := client.GetData();
  }
}
