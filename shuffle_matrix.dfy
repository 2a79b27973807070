/** The configuration matrix of the shuffle round-trip tests: every
    combination of partitioning scheme, shuffle mode, writer backend, data
    type group, partition count and mapper count, enumerated in nested-loop
    order and filtered by a support predicate. */
module ShuffleMatrix {
  import opened Primitives

  datatype PartitionWriterType = Local | Celeborn

  /** One test configuration. The data type group is opaque to the matrix. */
  datatype ShuffleTestParam<G> = ShuffleTestParam(
    partitioning: string,
    shuffleMode: int32,
    writerType: PartitionWriterType,
    dataTypeGroup: G,
    numPartitions: int32,
    numMappers: int32)

  // The axes of the matrix, in the order they are enumerated.
  const Partitionings: seq<string> := ["single", "rr", "hash", "range"]
  const ShuffleModes: seq<int32> := [0, 1, 2, 3]
  const WriterTypes: seq<PartitionWriterType> := [Local, Celeborn]
  const PartitionNumbers: seq<int32> := [1, 4, 16]
  const MapperNumbers: seq<int32> := [1, 4]

  /** The blocks `f(x)` of the elements `x` of `xs`, concatenated in order. */
  function Concat<A, B>(xs: seq<A>, f: A -> seq<B>): seq<B>
  {
    if xs == [] then [] else Concat(xs[..|xs| - 1], f) + f(xs[|xs| - 1])
  }

  lemma ConcatStep<A, B>(xs: seq<A>, f: A -> seq<B>, i: nat)
    requires i < |xs|
    ensures Concat(xs[..i + 1], f) == Concat(xs[..i], f) + f(xs[i])
  {
    assert xs[..i + 1][..i] == xs[..i];
  }

  /** Appending the block of `xs[i]` to what was enumerated for `xs[..i]`
      gives what is enumerated for `xs[..i + 1]`. */
  lemma AppendStep<A, B>(acc: seq<B>, next: seq<B>, base: seq<B>, xs: seq<A>, f: A -> seq<B>, i: nat)
    requires i < |xs|
    requires acc == base + Concat(xs[..i], f)
    requires next == acc + f(xs[i])
    ensures next == base + Concat(xs[..i + 1], f)
  {
    ConcatStep(xs, f, i);
  }

  /** The configuration as a one-element block when it is supported, else nothing. */
  function Keep<G>(isSupported: ShuffleTestParam<G> -> bool, param: ShuffleTestParam<G>): seq<ShuffleTestParam<G>>
  {
    if isSupported(param) then [param] else []
  }

  // One function per loop of the enumeration: the block it contributes for
  // one value of its axis, given the values of the enclosing loops.

  function MapperBlock<G>(isSupported: ShuffleTestParam<G> -> bool, partitioning: string, shuffleMode: int32,
                          writerType: PartitionWriterType, group: G, numPartitions: int32)
    : int32 -> seq<ShuffleTestParam<G>>
  {
    numMappers =>
      Keep(isSupported, ShuffleTestParam(partitioning, shuffleMode, writerType, group, numPartitions, numMappers))
  }

  function PartitionBlock<G>(isSupported: ShuffleTestParam<G> -> bool, partitioning: string, shuffleMode: int32,
                             writerType: PartitionWriterType, group: G)
    : int32 -> seq<ShuffleTestParam<G>>
  {
    numPartitions =>
      Concat(MapperNumbers, MapperBlock(isSupported, partitioning, shuffleMode, writerType, group, numPartitions))
  }

  function GroupBlock<G>(isSupported: ShuffleTestParam<G> -> bool, partitioning: string, shuffleMode: int32,
                         writerType: PartitionWriterType)
    : G -> seq<ShuffleTestParam<G>>
  {
    group => Concat(PartitionNumbers, PartitionBlock(isSupported, partitioning, shuffleMode, writerType, group))
  }

  function WriterBlock<G>(isSupported: ShuffleTestParam<G> -> bool, dataGroups: seq<G>, partitioning: string,
                          shuffleMode: int32)
    : PartitionWriterType -> seq<ShuffleTestParam<G>>
  {
    writerType => Concat(dataGroups, GroupBlock(isSupported, partitioning, shuffleMode, writerType))
  }

  function ModeBlock<G>(isSupported: ShuffleTestParam<G> -> bool, dataGroups: seq<G>, partitioning: string)
    : int32 -> seq<ShuffleTestParam<G>>
  {
    shuffleMode => Concat(WriterTypes, WriterBlock(isSupported, dataGroups, partitioning, shuffleMode))
  }

  function PartitioningBlock<G>(isSupported: ShuffleTestParam<G> -> bool, dataGroups: seq<G>)
    : string -> seq<ShuffleTestParam<G>>
  {
    partitioning => Concat(ShuffleModes, ModeBlock(isSupported, dataGroups, partitioning))
  }

  /** The whole filtered matrix, in enumeration order. */
  function ShuffleParams<G>(dataGroups: seq<G>, isSupported: ShuffleTestParam<G> -> bool): seq<ShuffleTestParam<G>>
  {
    Concat(Partitionings, PartitioningBlock(isSupported, dataGroups))
  }

  // Membership: what the matrix holds.

  lemma {:induction false} ConcatMember<A, B>(xs: seq<A>, f: A -> seq<B>, y: B)
    ensures y in Concat(xs, f) <==> exists i :: 0 <= i < |xs| && y in f(xs[i])
  {
    if xs != [] {
      var init := xs[..|xs| - 1];
      ConcatMember(init, f, y);
      if y in Concat(init, f) {
        var i :| 0 <= i < |init| && y in f(init[i]);
        assert xs[i] == init[i];
      }
      if exists i :: 0 <= i < |xs| && y in f(xs[i]) {
        var i :| 0 <= i < |xs| && y in f(xs[i]);
        if i < |init| {
          assert init[i] == xs[i];
        }
      }
    }
  }

  lemma PartitionBlockMembers<G>(isSupported: ShuffleTestParam<G> -> bool, partitioning: string, shuffleMode: int32,
                                 writerType: PartitionWriterType, group: G, numPartitions: int32,
                                 p: ShuffleTestParam<G>)
    ensures p in PartitionBlock(isSupported, partitioning, shuffleMode, writerType, group)(numPartitions) <==>
              && p.partitioning == partitioning && p.shuffleMode == shuffleMode && p.writerType == writerType
              && p.dataTypeGroup == group && p.numPartitions == numPartitions
              && p.numMappers in MapperNumbers && isSupported(p)
  {
    var f := MapperBlock(isSupported, partitioning, shuffleMode, writerType, group, numPartitions);
    ConcatMember(MapperNumbers, f, p);
  }

  lemma GroupBlockMembers<G>(isSupported: ShuffleTestParam<G> -> bool, partitioning: string, shuffleMode: int32,
                             writerType: PartitionWriterType, group: G, p: ShuffleTestParam<G>)
    ensures p in GroupBlock(isSupported, partitioning, shuffleMode, writerType)(group) <==>
              && p.partitioning == partitioning && p.shuffleMode == shuffleMode && p.writerType == writerType
              && p.dataTypeGroup == group && p.numPartitions in PartitionNumbers
              && p.numMappers in MapperNumbers && isSupported(p)
  {
    var f := PartitionBlock(isSupported, partitioning, shuffleMode, writerType, group);
    ConcatMember(PartitionNumbers, f, p);
    forall i | 0 <= i < |PartitionNumbers| {
      PartitionBlockMembers(isSupported, partitioning, shuffleMode, writerType, group, PartitionNumbers[i], p);
    }
  }

  lemma WriterBlockMembers<G>(isSupported: ShuffleTestParam<G> -> bool, dataGroups: seq<G>, partitioning: string,
                              shuffleMode: int32, writerType: PartitionWriterType, p: ShuffleTestParam<G>)
    ensures p in WriterBlock(isSupported, dataGroups, partitioning, shuffleMode)(writerType) <==>
              && p.partitioning == partitioning && p.shuffleMode == shuffleMode && p.writerType == writerType
              && p.dataTypeGroup in dataGroups && p.numPartitions in PartitionNumbers
              && p.numMappers in MapperNumbers && isSupported(p)
  {
    var f := GroupBlock(isSupported, partitioning, shuffleMode, writerType);
    ConcatMember(dataGroups, f, p);
    forall i | 0 <= i < |dataGroups| {
      GroupBlockMembers(isSupported, partitioning, shuffleMode, writerType, dataGroups[i], p);
    }
  }

  lemma ModeBlockMembers<G>(isSupported: ShuffleTestParam<G> -> bool, dataGroups: seq<G>, partitioning: string,
                            shuffleMode: int32, p: ShuffleTestParam<G>)
    ensures p in ModeBlock(isSupported, dataGroups, partitioning)(shuffleMode) <==>
              && p.partitioning == partitioning && p.shuffleMode == shuffleMode && p.writerType in WriterTypes
              && p.dataTypeGroup in dataGroups && p.numPartitions in PartitionNumbers
              && p.numMappers in MapperNumbers && isSupported(p)
  {
    var f := WriterBlock(isSupported, dataGroups, partitioning, shuffleMode);
    ConcatMember(WriterTypes, f, p);
    forall i | 0 <= i < |WriterTypes| {
      WriterBlockMembers(isSupported, dataGroups, partitioning, shuffleMode, WriterTypes[i], p);
    }
  }

  lemma PartitioningBlockMembers<G>(isSupported: ShuffleTestParam<G> -> bool, dataGroups: seq<G>,
                                    partitioning: string, p: ShuffleTestParam<G>)
    ensures p in PartitioningBlock(isSupported, dataGroups)(partitioning) <==>
              && p.partitioning == partitioning && p.shuffleMode in ShuffleModes && p.writerType in WriterTypes
              && p.dataTypeGroup in dataGroups && p.numPartitions in PartitionNumbers
              && p.numMappers in MapperNumbers && isSupported(p)
  {
    var f := ModeBlock(isSupported, dataGroups, partitioning);
    ConcatMember(ShuffleModes, f, p);
    forall i | 0 <= i < |ShuffleModes| {
      ModeBlockMembers(isSupported, dataGroups, partitioning, ShuffleModes[i], p);
    }
  }

  /** `p` is a supported combination of values drawn from the axes. */
  ghost predicate InMatrix<G>(dataGroups: seq<G>, isSupported: ShuffleTestParam<G> -> bool, p: ShuffleTestParam<G>)
  {
    && p.partitioning in Partitionings && p.shuffleMode in ShuffleModes && p.writerType in WriterTypes
    && p.dataTypeGroup in dataGroups && p.numPartitions in PartitionNumbers && p.numMappers in MapperNumbers
    && isSupported(p)
  }

  /** The matrix holds every supported combination of the axes and nothing
      else: each configuration in it is supported and takes each field from
      its axis. */
  lemma ShuffleParamsMembers<G>(dataGroups: seq<G>, isSupported: ShuffleTestParam<G> -> bool, p: ShuffleTestParam<G>)
    ensures p in ShuffleParams(dataGroups, isSupported) <==> InMatrix(dataGroups, isSupported, p)
  {
    var f := PartitioningBlock(isSupported, dataGroups);
    ConcatMember(Partitionings, f, p);
    forall i | 0 <= i < |Partitionings| {
      PartitioningBlockMembers(isSupported, dataGroups, Partitionings[i], p);
    }
  }

  // Size.

  lemma {:induction false} ConcatLength<A, B>(xs: seq<A>, f: A -> seq<B>, width: nat)
    requires forall i :: 0 <= i < |xs| ==> |f(xs[i])| <= width
    ensures |Concat(xs, f)| <= |xs| * width
  {
    if xs != [] {
      var init := xs[..|xs| - 1];
      ConcatLength(init, f, width);
      assert |init| * width + width == |xs| * width;
    }
  }

  lemma GroupBlockLength<G>(isSupported: ShuffleTestParam<G> -> bool, partitioning: string, shuffleMode: int32,
                            writerType: PartitionWriterType, group: G)
    ensures |GroupBlock(isSupported, partitioning, shuffleMode, writerType)(group)| <= 6
  {
    var f := PartitionBlock(isSupported, partitioning, shuffleMode, writerType, group);
    forall i | 0 <= i < |PartitionNumbers| ensures |f(PartitionNumbers[i])| <= 2 {
      var g := MapperBlock(isSupported, partitioning, shuffleMode, writerType, group, PartitionNumbers[i]);
      ConcatLength(MapperNumbers, g, 1);
    }
    ConcatLength(PartitionNumbers, f, 2);
  }

  lemma ModeBlockLength<G>(isSupported: ShuffleTestParam<G> -> bool, dataGroups: seq<G>, partitioning: string,
                           shuffleMode: int32)
    ensures |ModeBlock(isSupported, dataGroups, partitioning)(shuffleMode)| <= 12 * |dataGroups|
  {
    var f := WriterBlock(isSupported, dataGroups, partitioning, shuffleMode);
    forall i | 0 <= i < |WriterTypes| ensures |f(WriterTypes[i])| <= |dataGroups| * 6 {
      var g := GroupBlock(isSupported, partitioning, shuffleMode, WriterTypes[i]);
      forall k | 0 <= k < |dataGroups| ensures |g(dataGroups[k])| <= 6 {
        GroupBlockLength(isSupported, partitioning, shuffleMode, WriterTypes[i], dataGroups[k]);
      }
      ConcatLength(dataGroups, g, 6);
    }
    ConcatLength(WriterTypes, f, |dataGroups| * 6);
    assert |WriterTypes| == 2;
  }

  /** The matrix has at most one configuration per combination of the axes:
      4 partitionings, 4 modes, 2 writers, the data type groups, 3 partition
      counts and 2 mapper counts. */
  lemma ShuffleParamsLength<G>(dataGroups: seq<G>, isSupported: ShuffleTestParam<G> -> bool)
    ensures |ShuffleParams(dataGroups, isSupported)| <= 192 * |dataGroups|
  {
    var w := 12 * |dataGroups|;
    var f := PartitioningBlock(isSupported, dataGroups);
    forall i | 0 <= i < |Partitionings| ensures |f(Partitionings[i])| <= 4 * w {
      var g := ModeBlock(isSupported, dataGroups, Partitionings[i]);
      forall k | 0 <= k < |ShuffleModes| ensures |g(ShuffleModes[k])| <= w {
        ModeBlockLength(isSupported, dataGroups, Partitionings[i], ShuffleModes[k]);
      }
      ConcatLength(ShuffleModes, g, w);
      assert |ShuffleModes| == 4;
    }
    ConcatLength(Partitionings, f, 4 * w);
    assert |Partitionings| == 4;
  }

  // Order: the matrix lists configurations in the nesting order of the loops.

  /** The position of the first occurrence of `x` in `xs`, or `|xs|`. */
  ghost function IndexOf<T>(xs: seq<T>, x: T): (i: nat)
    ensures x in xs ==> i < |xs| && xs[i] == x
    ensures x !in xs ==> i == |xs|
  {
    if xs == [] then 0
    else if xs[0] == x then 0
    else 1 + IndexOf(xs[1..], x)
  }

  ghost predicate Distinct<T>(xs: seq<T>)
  {
    forall i, j :: 0 <= i < j < |xs| ==> xs[i] != xs[j]
  }

  lemma IndexOfDistinct<T>(xs: seq<T>, i: int)
    requires Distinct(xs) && 0 <= i < |xs|
    ensures IndexOf(xs, xs[i]) == i
  {
  }

  /** Where `p` sits on axis `k`, counting the loops from the outermost
      (0: partitioning, 1: mode, 2: writer, 3: group, 4: partition count,
      5: mapper count). */
  ghost function Position<G>(dataGroups: seq<G>, p: ShuffleTestParam<G>, k: nat): nat
  {
    if k == 0 then IndexOf(Partitionings, p.partitioning)
    else if k == 1 then IndexOf(ShuffleModes, p.shuffleMode)
    else if k == 2 then IndexOf(WriterTypes, p.writerType)
    else if k == 3 then IndexOf(dataGroups, p.dataTypeGroup)
    else if k == 4 then IndexOf(PartitionNumbers, p.numPartitions)
    else IndexOf(MapperNumbers, p.numMappers)
  }

  /** `p` comes before `q` in the lexicographic order of their positions on
      axes `k` to 5. */
  ghost predicate Precedes<G>(dataGroups: seq<G>, p: ShuffleTestParam<G>, q: ShuffleTestParam<G>, k: nat)
    decreases 6 - k
  {
    && k < 6
    && (|| Position(dataGroups, p, k) < Position(dataGroups, q, k)
        || (Position(dataGroups, p, k) == Position(dataGroups, q, k) && Precedes(dataGroups, p, q, k + 1)))
  }

  lemma {:induction false} PrecedesIrreflexive<G>(dataGroups: seq<G>, p: ShuffleTestParam<G>, k: nat)
    decreases 6 - k
    ensures !Precedes(dataGroups, p, p, k)
  {
    if k < 6 {
      PrecedesIrreflexive(dataGroups, p, k + 1);
    }
  }

  /** The configurations of `ps`, compared from axis `k` inward, strictly increase. */
  ghost predicate AscendingFrom<G>(dataGroups: seq<G>, ps: seq<ShuffleTestParam<G>>, k: nat)
    requires k <= 6
  {
    forall i, j :: 0 <= i < j < |ps| ==> Precedes(dataGroups, ps[i], ps[j], k)
  }

  /** Concatenating blocks that are each ascending from axis `k + 1`, where
      block `i` holds only configurations at position `i` on axis `k`,
      gives a sequence ascending from axis `k`. */
  lemma {:induction false} ConcatAscending<A, G>(dataGroups: seq<G>, xs: seq<A>, f: A -> seq<ShuffleTestParam<G>>,
                                                k: nat)
    requires k < 6
    requires forall i, p :: 0 <= i < |xs| && p in f(xs[i]) ==> Position(dataGroups, p, k) == i
    requires forall i :: 0 <= i < |xs| ==> AscendingFrom(dataGroups, f(xs[i]), k + 1)
    ensures AscendingFrom(dataGroups, Concat(xs, f), k)
    ensures forall p :: p in Concat(xs, f) ==> Position(dataGroups, p, k) < |xs|
  {
    if xs != [] {
      var n := |xs| - 1;
      var init := xs[..n];
      assert forall i :: 0 <= i < n ==> init[i] == xs[i];
      ConcatAscending(dataGroups, init, f, k);
      var c, d := Concat(init, f), f(xs[n]);
      assert Concat(xs, f) == c + d;
      forall i, j | 0 <= i < j < |c + d|
        ensures Precedes(dataGroups, (c + d)[i], (c + d)[j], k)
      {
        var p, q := (c + d)[i], (c + d)[j];
        if |c| <= j {
          assert q == d[j - |c|] && q in d;
        }
        if j < |c| {
          assert p == c[i] && q == c[j];
        } else if |c| <= i {
          assert p == d[i - |c|] && p in d;
        } else {
          assert p == c[i] && p in c;
        }
      }
    }
  }

  lemma MapperPositions<G>(dataGroups: seq<G>, isSupported: ShuffleTestParam<G> -> bool, partitioning: string,
                           shuffleMode: int32, writerType: PartitionWriterType, group: G, numPartitions: int32)
    ensures forall i, p ::
              0 <= i < |MapperNumbers| &&
              p in MapperBlock(isSupported, partitioning, shuffleMode, writerType, group, numPartitions)(MapperNumbers[i])
              ==> Position(dataGroups, p, 5) == i
  {
    assert Distinct(MapperNumbers);
    forall i, p | 0 <= i < |MapperNumbers| &&
                  p in MapperBlock(isSupported, partitioning, shuffleMode, writerType, group, numPartitions)(MapperNumbers[i])
      ensures Position(dataGroups, p, 5) == i
    {
      IndexOfDistinct(MapperNumbers, i);
    }
  }

  lemma PartitionBlockAscending<G>(dataGroups: seq<G>, isSupported: ShuffleTestParam<G> -> bool, partitioning: string,
                                   shuffleMode: int32, writerType: PartitionWriterType, group: G, numPartitions: int32)
    ensures AscendingFrom(dataGroups,
                          PartitionBlock(isSupported, partitioning, shuffleMode, writerType, group)(numPartitions), 5)
  {
    var f := MapperBlock(isSupported, partitioning, shuffleMode, writerType, group, numPartitions);
    MapperPositions(dataGroups, isSupported, partitioning, shuffleMode, writerType, group, numPartitions);
    ConcatAscending(dataGroups, MapperNumbers, f, 5);
  }

  lemma PartitionNumberPositions<G>(dataGroups: seq<G>, isSupported: ShuffleTestParam<G> -> bool, partitioning: string,
                                     shuffleMode: int32, writerType: PartitionWriterType, group: G)
    ensures forall i, p ::
              0 <= i < |PartitionNumbers| &&
              p in PartitionBlock(isSupported, partitioning, shuffleMode, writerType, group)(PartitionNumbers[i])
              ==> Position(dataGroups, p, 4) == i
  {
    assert Distinct(PartitionNumbers);
    forall i, p | 0 <= i < |PartitionNumbers| &&
                  p in PartitionBlock(isSupported, partitioning, shuffleMode, writerType, group)(PartitionNumbers[i])
      ensures Position(dataGroups, p, 4) == i
    {
      PartitionBlockMembers(isSupported, partitioning, shuffleMode, writerType, group, PartitionNumbers[i], p);
      IndexOfDistinct(PartitionNumbers, i);
    }
  }

  lemma GroupBlockAscending<G>(dataGroups: seq<G>, isSupported: ShuffleTestParam<G> -> bool, partitioning: string,
                               shuffleMode: int32, writerType: PartitionWriterType, group: G)
    ensures AscendingFrom(dataGroups, GroupBlock(isSupported, partitioning, shuffleMode, writerType)(group), 4)
  {
    var f := PartitionBlock(isSupported, partitioning, shuffleMode, writerType, group);
    PartitionNumberPositions(dataGroups, isSupported, partitioning, shuffleMode, writerType, group);
    forall i | 0 <= i < |PartitionNumbers| ensures AscendingFrom(dataGroups, f(PartitionNumbers[i]), 5) {
      var numPartitions := PartitionNumbers[i];
      PartitionBlockAscending(dataGroups, isSupported, partitioning, shuffleMode, writerType, group, numPartitions);
    }
    ConcatAscending(dataGroups, PartitionNumbers, f, 4);
  }

  lemma GroupPositions<G>(dataGroups: seq<G>, isSupported: ShuffleTestParam<G> -> bool, partitioning: string,
                           shuffleMode: int32, writerType: PartitionWriterType)
    requires Distinct(dataGroups)
    ensures forall i, p ::
              0 <= i < |dataGroups| &&
              p in GroupBlock(isSupported, partitioning, shuffleMode, writerType)(dataGroups[i])
              ==> Position(dataGroups, p, 3) == i
  {
    forall i, p | 0 <= i < |dataGroups| &&
                  p in GroupBlock(isSupported, partitioning, shuffleMode, writerType)(dataGroups[i])
      ensures Position(dataGroups, p, 3) == i
    {
      GroupBlockMembers(isSupported, partitioning, shuffleMode, writerType, dataGroups[i], p);
      IndexOfDistinct(dataGroups, i);
    }
  }

  lemma WriterBlockAscending<G>(dataGroups: seq<G>, isSupported: ShuffleTestParam<G> -> bool, partitioning: string,
                                shuffleMode: int32, writerType: PartitionWriterType)
    requires Distinct(dataGroups)
    ensures AscendingFrom(dataGroups, WriterBlock(isSupported, dataGroups, partitioning, shuffleMode)(writerType), 3)
  {
    var f := GroupBlock(isSupported, partitioning, shuffleMode, writerType);
    GroupPositions(dataGroups, isSupported, partitioning, shuffleMode, writerType);
    forall i | 0 <= i < |dataGroups| ensures AscendingFrom(dataGroups, f(dataGroups[i]), 4) {
      GroupBlockAscending(dataGroups, isSupported, partitioning, shuffleMode, writerType, dataGroups[i]);
    }
    ConcatAscending(dataGroups, dataGroups, f, 3);
  }

  lemma WriterPositions<G>(dataGroups: seq<G>, isSupported: ShuffleTestParam<G> -> bool, partitioning: string,
                           shuffleMode: int32)
    ensures forall i, p ::
              0 <= i < |WriterTypes| &&
              p in WriterBlock(isSupported, dataGroups, partitioning, shuffleMode)(WriterTypes[i])
              ==> Position(dataGroups, p, 2) == i
  {
    assert Distinct(WriterTypes);
    forall i, p | 0 <= i < |WriterTypes| &&
                  p in WriterBlock(isSupported, dataGroups, partitioning, shuffleMode)(WriterTypes[i])
      ensures Position(dataGroups, p, 2) == i
    {
      WriterBlockMembers(isSupported, dataGroups, partitioning, shuffleMode, WriterTypes[i], p);
      IndexOfDistinct(WriterTypes, i);
    }
  }

  lemma ModeBlockAscending<G>(dataGroups: seq<G>, isSupported: ShuffleTestParam<G> -> bool, partitioning: string,
                              shuffleMode: int32)
    requires Distinct(dataGroups)
    ensures AscendingFrom(dataGroups, ModeBlock(isSupported, dataGroups, partitioning)(shuffleMode), 2)
  {
    var f := WriterBlock(isSupported, dataGroups, partitioning, shuffleMode);
    WriterPositions(dataGroups, isSupported, partitioning, shuffleMode);
    forall i | 0 <= i < |WriterTypes| ensures AscendingFrom(dataGroups, f(WriterTypes[i]), 3) {
      WriterBlockAscending(dataGroups, isSupported, partitioning, shuffleMode, WriterTypes[i]);
    }
    ConcatAscending(dataGroups, WriterTypes, f, 2);
  }

  lemma ModePositions<G>(dataGroups: seq<G>, isSupported: ShuffleTestParam<G> -> bool, partitioning: string)
    ensures forall i, p ::
              0 <= i < |ShuffleModes| &&
              p in ModeBlock(isSupported, dataGroups, partitioning)(ShuffleModes[i])
              ==> Position(dataGroups, p, 1) == i
  {
    assert Distinct(ShuffleModes);
    forall i, p | 0 <= i < |ShuffleModes| && p in ModeBlock(isSupported, dataGroups, partitioning)(ShuffleModes[i])
      ensures Position(dataGroups, p, 1) == i
    {
      ModeBlockMembers(isSupported, dataGroups, partitioning, ShuffleModes[i], p);
      IndexOfDistinct(ShuffleModes, i);
    }
  }

  lemma PartitioningBlockAscending<G>(dataGroups: seq<G>, isSupported: ShuffleTestParam<G> -> bool,
                                      partitioning: string)
    requires Distinct(dataGroups)
    ensures AscendingFrom(dataGroups, PartitioningBlock(isSupported, dataGroups)(partitioning), 1)
  {
    var f := ModeBlock(isSupported, dataGroups, partitioning);
    ModePositions(dataGroups, isSupported, partitioning);
    forall i | 0 <= i < |ShuffleModes| ensures AscendingFrom(dataGroups, f(ShuffleModes[i]), 2) {
      ModeBlockAscending(dataGroups, isSupported, partitioning, ShuffleModes[i]);
    }
    ConcatAscending(dataGroups, ShuffleModes, f, 1);
  }

  lemma PartitioningPositions<G>(dataGroups: seq<G>, isSupported: ShuffleTestParam<G> -> bool)
    ensures forall i, p ::
              0 <= i < |Partitionings| &&
              p in PartitioningBlock(isSupported, dataGroups)(Partitionings[i])
              ==> Position(dataGroups, p, 0) == i
  {
    assert Distinct(Partitionings);
    forall i, p | 0 <= i < |Partitionings| && p in PartitioningBlock(isSupported, dataGroups)(Partitionings[i])
      ensures Position(dataGroups, p, 0) == i
    {
      PartitioningBlockMembers(isSupported, dataGroups, Partitionings[i], p);
      IndexOfDistinct(Partitionings, i);
    }
  }

  lemma PartitioningBlocksAscending<G>(dataGroups: seq<G>, isSupported: ShuffleTestParam<G> -> bool)
    requires Distinct(dataGroups)
    ensures forall i :: 0 <= i < |Partitionings| ==>
              AscendingFrom(dataGroups, PartitioningBlock(isSupported, dataGroups)(Partitionings[i]), 1)
  {
    forall i | 0 <= i < |Partitionings|
      ensures AscendingFrom(dataGroups, PartitioningBlock(isSupported, dataGroups)(Partitionings[i]), 1)
    {
      PartitioningBlockAscending(dataGroups, isSupported, Partitionings[i]);
    }
  }

  /** With distinct data type groups, the matrix lists its configurations in
      strictly increasing lexicographic order of their positions on the axes
      (partitioning, then mode, writer, group, partition count, mapper count). */
  lemma ShuffleParamsAscending<G>(dataGroups: seq<G>, isSupported: ShuffleTestParam<G> -> bool)
    requires Distinct(dataGroups)
    ensures AscendingFrom(dataGroups, ShuffleParams(dataGroups, isSupported), 0)
  {
    var f := PartitioningBlock(isSupported, dataGroups);
    assert AscendingFrom(dataGroups, Concat(Partitionings, f), 0) by {
      PartitioningPositions(dataGroups, isSupported);
      PartitioningBlocksAscending(dataGroups, isSupported);
      ConcatAscending(dataGroups, Partitionings, f, 0);
    }
  }

  /** With distinct data type groups, no configuration is listed twice. */
  lemma ShuffleParamsDistinct<G>(dataGroups: seq<G>, isSupported: ShuffleTestParam<G> -> bool)
    requires Distinct(dataGroups)
    ensures Distinct(ShuffleParams(dataGroups, isSupported))
  {
    var ps := ShuffleParams(dataGroups, isSupported);
    ShuffleParamsAscending(dataGroups, isSupported);
    forall i, j | 0 <= i < j < |ps| ensures ps[i] != ps[j] {
      PrecedesIrreflexive(dataGroups, ps[i], 0);
    }
  }

  /** Enumerates the matrix in six nested loops, keeping the supported
      configurations: the loops over partitioning schemes and shuffle modes
      are here, the two below them are `AppendWriterBlock` and the two
      innermost `AppendGroupBlock`. */
  method BuildShuffleParams<G>(dataGroups: seq<G>, isSupported: ShuffleTestParam<G> -> bool)
    returns (params: seq<ShuffleTestParam<G>>)
    ensures params == ShuffleParams(dataGroups, isSupported)
  {
    params := [];
    ghost var byPartitioning := PartitioningBlock(isSupported, dataGroups);
    for a := 0 to |Partitionings|
      invariant params == Concat(Partitionings[..a], byPartitioning)
    {
      var partitioning := Partitionings[a];
      ghost var before := params;
      ghost var byMode := ModeBlock(isSupported, dataGroups, partitioning);
      for b := 0 to |ShuffleModes|
        invariant params == before + Concat(ShuffleModes[..b], byMode)
      {
        ghost var acc := params;
        params := AppendWriterBlock(params, isSupported, dataGroups, partitioning, ShuffleModes[b]);
        AppendStep(acc, params, before, ShuffleModes, byMode, b);
      }
      assert ShuffleModes[..|ShuffleModes|] == ShuffleModes;
      AppendStep(before, params, [], Partitionings, byPartitioning, a);
    }
    assert Partitionings[..|Partitionings|] == Partitionings;
  }

  /** The loops over writer backends and data type groups for one
      partitioning scheme and shuffle mode. */
  method AppendWriterBlock<G>(params: seq<ShuffleTestParam<G>>, isSupported: ShuffleTestParam<G> -> bool,
                              dataGroups: seq<G>, partitioning: string, shuffleMode: int32)
    returns (params': seq<ShuffleTestParam<G>>)
    ensures params' == params + ModeBlock(isSupported, dataGroups, partitioning)(shuffleMode)
  {
    params' := params;
    ghost var byWriter := WriterBlock(isSupported, dataGroups, partitioning, shuffleMode);
    for c := 0 to |WriterTypes|
      invariant params' == params + Concat(WriterTypes[..c], byWriter)
    {
      var writerType := WriterTypes[c];
      ghost var before := params';
      ghost var byGroup := GroupBlock(isSupported, partitioning, shuffleMode, writerType);
      for d := 0 to |dataGroups|
        invariant params' == before + Concat(dataGroups[..d], byGroup)
      {
        ghost var acc := params';
        params' := AppendGroupBlock(params', isSupported, partitioning, shuffleMode, writerType, dataGroups[d]);
        AppendStep(acc, params', before, dataGroups, byGroup, d);
      }
      assert dataGroups[..|dataGroups|] == dataGroups;
      AppendStep(before, params', params, WriterTypes, byWriter, c);
    }
    assert WriterTypes[..|WriterTypes|] == WriterTypes;
  }

  /** The loops over partition counts and mapper counts for one data type
      group: appends the supported configurations to `params`. */
  method AppendGroupBlock<G>(params: seq<ShuffleTestParam<G>>, isSupported: ShuffleTestParam<G> -> bool,
                             partitioning: string, shuffleMode: int32, writerType: PartitionWriterType, group: G)
    returns (params': seq<ShuffleTestParam<G>>)
    ensures params' == params + GroupBlock(isSupported, partitioning, shuffleMode, writerType)(group)
  {
    params' := params;
    ghost var byPartitions := PartitionBlock(isSupported, partitioning, shuffleMode, writerType, group);
    for e := 0 to |PartitionNumbers|
      invariant params' == params + Concat(PartitionNumbers[..e], byPartitions)
    {
      var numPartitions := PartitionNumbers[e];
      ghost var before := params';
      ghost var byMappers := MapperBlock(isSupported, partitioning, shuffleMode, writerType, group, numPartitions);
      for f := 0 to |MapperNumbers|
        invariant params' == before + Concat(MapperNumbers[..f], byMappers)
      {
        var numMappers := MapperNumbers[f];
        var param := ShuffleTestParam(partitioning, shuffleMode, writerType, group, numPartitions, numMappers);
        ghost var acc := params';
        if isSupported(param) {
          params' := params' + [param];
        }
        AppendStep(acc, params', before, MapperNumbers, byMappers, f);
      }
      assert MapperNumbers[..|MapperNumbers|] == MapperNumbers;
      AppendStep(before, params', params, PartitionNumbers, byPartitions, e);
    }
    assert PartitionNumbers[..|PartitionNumbers|] == PartitionNumbers;
  }
}
