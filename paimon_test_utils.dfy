/** The helpers the Paimon reader tests use to lay out a primary-key data
    file (`createPaimonFile`) and to map every column of a table to a Hive
    column handle (`getIdentityAssignment`). */
module PaimonTestUtils {
  import opened Primitives
  import opened Wrappers

  /** The reserved column names and the key-column prefix of Paimon files. */
  datatype PaimonConstants = PaimonConstants(
    keyFieldPrefix: string,
    sequenceNumber: string,
    valueKind: string,
    rowId: string,
    rowIndex: string,
    filePath: string,
    partition: string,
    bucket: string)

  datatype ColumnType = BigInt | TinyInt | Integer | OtherType(name: string)

  /** A row type: column names and column types, position by position. */
  datatype RowType = RowType(names: seq<string>, children: seq<ColumnType>)

  /** A column vector: its type and its cells, one per row. */
  datatype Vector = Vector(typ: ColumnType, cells: seq<int>)

  /** The rows `[offset, offset + length)` of the file's row vector. */
  datatype Slice = Slice(offset: int, length: int)

  /** What `createPaimonFile` hands to the write plan: the file's row type,
      its column vectors and the 64-row slices of its rows. */
  datatype PaimonFile = PaimonFile(rowType: RowType, columns: seq<Vector>, slices: seq<Slice>)

  function OptionalColumn<T>(present: bool, column: T): seq<T>
  {
    if present then [column] else []
  }

  /** The column order of a Paimon primary-key data file. */
  function Layout<T>(keys: seq<T>, sequence: seq<T>, valueKind: T, columns: seq<T>, rowId: seq<T>, extras: seq<T>)
    : seq<T>
  {
    keys + sequence + [valueKind] + columns + rowId + extras
  }

  /** Where each part of a layout sits: the key columns first, then the
      sequence-number column when present, the value-kind column, the data
      columns, the row-id column when present and the extra columns. */
  lemma LayoutPositions<T>(keys: seq<T>, sequence: seq<T>, valueKind: T, columns: seq<T>, rowId: seq<T>,
                           extras: seq<T>)
    ensures var r := Layout(keys, sequence, valueKind, columns, rowId, extras);
            var v := |keys| + |sequence|;
            var w := v + 1 + |columns|;
            && |r| == w + |rowId| + |extras|
            && r[..|keys|] == keys
            && r[|keys|..v] == sequence
            && r[v] == valueKind
            && r[v + 1..w] == columns
            && r[w..w + |rowId|] == rowId
            && r[w + |rowId|..] == extras
  {
    var r := Layout(keys, sequence, valueKind, columns, rowId, extras);
    var v := |keys| + |sequence|;
    var w := v + 1 + |columns|;
    assert r == (keys + sequence + [valueKind]) + columns + rowId + extras;
    assert r[..|keys|] == keys;
    assert r[|keys|..v] == sequence;
    assert r[v + 1..w] == columns;
    assert r[w..w + |rowId|] == rowId;
    assert r[w + |rowId|..] == extras;
  }

  /** The elements of `xs` at the positions `indices`, in that order. */
  function Pick<T>(indices: seq<int>, xs: seq<T>): (r: seq<T>)
    requires forall j :: 0 <= j < |indices| ==> 0 <= indices[j] < |xs|
    ensures |r| == |indices|
    ensures forall j :: 0 <= j < |indices| ==> r[j] == xs[indices[j]]
  {
    seq(|indices|, j requires 0 <= j < |indices| => xs[indices[j]])
  }

  /** The names of the key columns: the prefixed names of the primary-key columns. */
  function KeyNames(prefix: string, indices: seq<int>, names: seq<string>): (r: seq<string>)
    requires forall j :: 0 <= j < |indices| ==> 0 <= indices[j] < |names|
    ensures |r| == |indices|
    ensures forall j :: 0 <= j < |indices| ==> r[j] == prefix + names[indices[j]]
  {
    seq(|indices|, j requires 0 <= j < |indices| => prefix + names[indices[j]])
  }

  function Int64Cells(values: seq<int64>): (r: seq<int>)
    ensures |r| == |values| && forall i :: 0 <= i < |values| ==> r[i] == values[i] as int
  {
    seq(|values|, i requires 0 <= i < |values| => values[i] as int)
  }

  function Int8Cells(values: seq<int8>): (r: seq<int>)
    ensures |r| == |values| && forall i :: 0 <= i < |values| ==> r[i] == values[i] as int
  {
    seq(|values|, i requires 0 <= i < |values| => values[i] as int)
  }

  /** The row ids of a file with `n` rows: consecutive numbers from 9001. */
  method RowIds(n: nat) returns (ids: seq<int64>)
    requires n <= 0x7fff_ffff
    ensures |ids| == n
    ensures forall i :: 0 <= i < n ==> ids[i] as int == 9001 + i
  {
    var rowId := new int64[n];
    for i := 0 to n
      invariant forall j :: 0 <= j < i ==> rowId[j] as int == 9001 + j
    {
      rowId[i] := (9001 + i) as int64;
    }
    ids := rowId[..];
  }

  /** The slices of `inputSize` rows cut every 64 rows, each `length` being
      what remains of `rowCount` rows from `offset`, capped at 64. */
  ghost predicate SlicedEvery64(slices: seq<Slice>, inputSize: nat, rowCount: int)
  {
    && |slices| == (inputSize + 63) / 64
    && forall j :: 0 <= j < |slices| ==> slices[j] == Slice(64 * j, Min(64, rowCount - 64 * j))
  }

  /** Cuts the row vector into slices of at most 64 rows. */
  method SliceRanges(inputSize: nat, rowCount: int) returns (slices: seq<Slice>)
    ensures SlicedEvery64(slices, inputSize, rowCount)
  {
    slices := [];
    var i := 0;
    while i < inputSize
      invariant i == 64 * |slices| && (slices == [] || i - 64 < inputSize)
      invariant forall j :: 0 <= j < |slices| ==> slices[j] == Slice(64 * j, Min(64, rowCount - 64 * j))
    {
      slices := slices + [Slice(i, Min(64, rowCount - i))];
      i := i + 64;
    }
  }

  /** The consecutive numbers `[from, to)`, in order. */
  function Rows(from: int, to: int): (r: seq<int>)
    decreases to - from
    ensures |r| == if from <= to then to - from else 0
    ensures forall i :: 0 <= i < |r| ==> r[i] == from + i
  {
    if to <= from then [] else [from] + Rows(from + 1, to)
  }

  /** The rows the slices select, in slice order. */
  function Selected(slices: seq<Slice>): seq<int>
  {
    if slices == [] then []
    else Selected(slices[..|slices| - 1]) + Rows(slices[|slices| - 1].offset,
                                                  slices[|slices| - 1].offset + slices[|slices| - 1].length)
  }

  lemma {:induction false} RowsSplit(from: int, mid: int, to: int)
    requires from <= mid <= to
    ensures Rows(from, to) == Rows(from, mid) + Rows(mid, to)
    decreases mid - from
  {
    if from < mid {
      RowsSplit(from + 1, mid, to);
    }
  }

  /** When the row vector has as many rows as the input, the slices select
      every row exactly once, in order, each slice holding 1 to 64 rows. */
  lemma {:induction false} SlicesCoverRows(slices: seq<Slice>, inputSize: nat)
    requires SlicedEvery64(slices, inputSize, inputSize)
    ensures Selected(slices) == Rows(0, inputSize)
    ensures forall j :: 0 <= j < |slices| ==> 1 <= slices[j].length <= 64
  {
    var k := |slices|;
    if k > 0 {
      SlicesCoverRows(slices[..k - 1], 64 * (k - 1));
      RowsSplit(0, 64 * (k - 1), inputSize);
    }
  }

  /** `order` lists every key of `m` exactly once: an iteration order of the map. */
  ghost predicate EnumeratesKeys<V>(order: seq<string>, m: map<string, V>)
  {
    && (forall k :: k in order <==> k in m)
    && (forall i, j :: 0 <= i < j < |order| ==> order[i] != order[j])
  }

  function ExtraVectors(order: seq<string>, extraColumns: map<string, Vector>): (r: seq<Vector>)
    requires forall k :: k in order ==> k in extraColumns
    ensures |r| == |order| && forall i :: 0 <= i < |order| ==> r[i] == extraColumns[order[i]]
  {
    seq(|order|, i requires 0 <= i < |order| => extraColumns[order[i]])
  }

  function Types(columns: seq<Vector>): (r: seq<ColumnType>)
    ensures |r| == |columns| && forall i :: 0 <= i < |columns| ==> r[i] == columns[i].typ
  {
    seq(|columns|, i requires 0 <= i < |columns| => columns[i].typ)
  }

  /** The primary-key indices select columns of both the row type and the data. */
  ghost predicate KeysInRange(primaryKeyIndices: seq<int>, rowType: RowType, data: seq<Vector>)
  {
    forall j :: 0 <= j < |primaryKeyIndices| ==>
      0 <= primaryKeyIndices[j] < |rowType.names| && primaryKeyIndices[j] < |rowType.children|
      && primaryKeyIndices[j] < |data|
  }

  /** `file` is the Paimon data file laid out from the given columns: names,
      types and vectors all follow `Layout`, the row-id column holds the
      consecutive ids from 9001, one per input row, and the rows are cut
      every 64 rows of the input, bounded by the row count of the first
      column. */
  ghost predicate LaidOut(constants: PaimonConstants, primaryKeyIndices: seq<int>, rowType: RowType,
                          data: seq<Vector>, sequenceNumber: seq<int64>, valueKind: seq<int8>, withRowId: bool,
                          extraColumns: map<string, Vector>, extraOrder: seq<string>, file: PaimonFile)
    requires data != [] && KeysInRange(primaryKeyIndices, rowType, data)
    requires EnumeratesKeys(extraOrder, extraColumns)
  {
    var hasSequence := sequenceNumber != [];
    var inputSize := |data[0].cells|;
    var extras := ExtraVectors(extraOrder, extraColumns);
    && file.rowType.names
       == Layout(KeyNames(constants.keyFieldPrefix, primaryKeyIndices, rowType.names),
                 OptionalColumn(hasSequence, constants.sequenceNumber), constants.valueKind, rowType.names,
                 OptionalColumn(withRowId, constants.rowId), extraOrder)
    && file.rowType.children
       == Layout(Pick(primaryKeyIndices, rowType.children), OptionalColumn(hasSequence, BigInt), TinyInt,
                 rowType.children, OptionalColumn(withRowId, BigInt), Types(extras))
    && file.columns
       == Layout(Pick(primaryKeyIndices, data),
                 OptionalColumn(hasSequence, Vector(BigInt, Int64Cells(sequenceNumber))),
                 Vector(TinyInt, Int8Cells(valueKind)), data,
                 OptionalColumn(withRowId, Vector(BigInt, Rows(9001, 9001 + inputSize))), extras)
    && file.columns != []
    && SlicedEvery64(file.slices, inputSize, |file.columns[0].cells|)
  }

  /** Lays out a Paimon primary-key data file from the columns of `data`
      (described by `rowType`) and the given system columns, and cuts its
      rows into 64-row slices for the write plan; fails when `data` is
      empty. `extraOrder` is the order in which the extra-column map is
      iterated. */
  method CreatePaimonFile(constants: PaimonConstants, primaryKeyIndices: seq<int>, rowType: RowType,
                          data: seq<Vector>, sequenceNumber: seq<int64>, valueKind: seq<int8>,
                          withRowId: bool := false, extraColumns: map<string, Vector> := map[],
                          extraOrder: seq<string> := [])
    returns (r: Result<PaimonFile, string>)
    requires data != [] ==> KeysInRange(primaryKeyIndices, rowType, data) && |data[0].cells| <= 0x7fff_ffff
    requires EnumeratesKeys(extraOrder, extraColumns)
    ensures r.Err? <==> data == []
    ensures r.Err? ==> r.error == "data must not be empty"
    ensures r.Ok? ==> LaidOut(constants, primaryKeyIndices, rowType, data, sequenceNumber, valueKind, withRowId,
                              extraColumns, extraOrder, r.value)
    ensures r.Ok? ==> |r.value.columns| == |r.value.rowType.names|
                      + |data| - |rowType.names|
    ensures r.Ok? ==> |r.value.rowType.children| == |r.value.rowType.names|
                      + |rowType.children| - |rowType.names|
  {
    if data == [] {
      return Err("data must not be empty");
    }
    var colNames := rowType.names;
    var colTypes := rowType.children;
    var inputSize := |data[0].cells|;
    var names: seq<string> := [];
    var types: seq<ColumnType> := [];
    var fileData: seq<Vector> := [];
    names, types, fileData := AppendKeyColumns(names, types, fileData, constants.keyFieldPrefix, primaryKeyIndices,
                                               rowType, data);
    assert names == KeyNames(constants.keyFieldPrefix, primaryKeyIndices, rowType.names);
    assert types == Pick(primaryKeyIndices, rowType.children);
    assert fileData == Pick(primaryKeyIndices, data);
    names, types, fileData := AppendSequenceColumn(names, types, fileData, constants.sequenceNumber, sequenceNumber);
    names := names + [constants.valueKind];
    types := types + [TinyInt];
    fileData := fileData + [Vector(TinyInt, Int8Cells(valueKind))];
    names := names + colNames;
    types := types + colTypes;
    fileData := fileData + data;
    names, types, fileData := AppendRowIdColumn(names, types, fileData, constants.rowId, withRowId, inputSize);
    names, types, fileData := AppendExtraColumns(names, types, fileData, extraColumns, extraOrder);
    var rowCount := |fileData[0].cells|;
    var slices := SliceRanges(inputSize, rowCount);
    r := Ok(PaimonFile(RowType(names, types), fileData, slices));
  }

  /** When the first column of the laid-out file has one cell per input row,
      its slices select every input row exactly once, in order. */
  lemma LaidOutSlicesCoverRows(constants: PaimonConstants, primaryKeyIndices: seq<int>, rowType: RowType,
                               data: seq<Vector>, sequenceNumber: seq<int64>, valueKind: seq<int8>, withRowId: bool,
                               extraColumns: map<string, Vector>, extraOrder: seq<string>, file: PaimonFile)
    requires data != [] && KeysInRange(primaryKeyIndices, rowType, data)
    requires EnumeratesKeys(extraOrder, extraColumns)
    requires LaidOut(constants, primaryKeyIndices, rowType, data, sequenceNumber, valueKind, withRowId,
                     extraColumns, extraOrder, file)
    requires |file.columns[0].cells| == |data[0].cells|
    ensures Selected(file.slices) == Rows(0, |data[0].cells|)
    ensures forall j :: 0 <= j < |file.slices| ==> 1 <= file.slices[j].length <= 64
  {
    SlicesCoverRows(file.slices, |data[0].cells|);
  }

  /** The row-id column, when asked for, sits right after the data columns
      under its reserved name and numbers the input rows from 9001. */
  lemma LaidOutRowIdColumn(constants: PaimonConstants, primaryKeyIndices: seq<int>, rowType: RowType,
                           data: seq<Vector>, sequenceNumber: seq<int64>, valueKind: seq<int8>,
                           extraColumns: map<string, Vector>, extraOrder: seq<string>, file: PaimonFile)
    requires data != [] && KeysInRange(primaryKeyIndices, rowType, data)
    requires EnumeratesKeys(extraOrder, extraColumns)
    requires LaidOut(constants, primaryKeyIndices, rowType, data, sequenceNumber, valueKind, true,
                     extraColumns, extraOrder, file)
    requires |rowType.names| == |data|
    ensures var w := |primaryKeyIndices| + (if sequenceNumber == [] then 0 else 1) + 1 + |data|;
            && w < |file.columns| && w < |file.rowType.names|
            && file.rowType.names[w] == constants.rowId
            && file.columns[w] == Vector(BigInt, Rows(9001, 9001 + |data[0].cells|))
  {
    var hasSequence := sequenceNumber != [];
    LayoutPositions(KeyNames(constants.keyFieldPrefix, primaryKeyIndices, rowType.names),
                    OptionalColumn(hasSequence, constants.sequenceNumber), constants.valueKind, rowType.names,
                    OptionalColumn(true, constants.rowId), extraOrder);
    LayoutPositions(Pick(primaryKeyIndices, data),
                    OptionalColumn(hasSequence, Vector(BigInt, Int64Cells(sequenceNumber))),
                    Vector(TinyInt, Int8Cells(valueKind)), data,
                    OptionalColumn(true, Vector(BigInt, Rows(9001, 9001 + |data[0].cells|))),
                    ExtraVectors(extraOrder, extraColumns));
  }

  /** The sequence-number column, present only when sequence numbers are given. */
  method AppendSequenceColumn(names: seq<string>, types: seq<ColumnType>, fileData: seq<Vector>, name: string,
                              sequenceNumber: seq<int64>)
    returns (names': seq<string>, types': seq<ColumnType>, fileData': seq<Vector>)
    ensures names' == names + OptionalColumn(sequenceNumber != [], name)
    ensures types' == types + OptionalColumn(sequenceNumber != [], BigInt)
    ensures fileData' == fileData + OptionalColumn(sequenceNumber != [], Vector(BigInt, Int64Cells(sequenceNumber)))
  {
    names', types', fileData' := names, types, fileData;
    if sequenceNumber != [] {
      names' := names' + [name];
      types' := types' + [BigInt];
      fileData' := fileData' + [Vector(BigInt, Int64Cells(sequenceNumber))];
    }
  }

  /** The row-id column, present only when asked for, holding one id per
      input row counting up from 9001. */
  method AppendRowIdColumn(names: seq<string>, types: seq<ColumnType>, fileData: seq<Vector>, name: string,
                           withRowId: bool, inputSize: nat)
    returns (names': seq<string>, types': seq<ColumnType>, fileData': seq<Vector>)
    requires inputSize <= 0x7fff_ffff
    ensures names' == names + OptionalColumn(withRowId, name)
    ensures types' == types + OptionalColumn(withRowId, BigInt)
    ensures fileData' == fileData + OptionalColumn(withRowId, Vector(BigInt, Rows(9001, 9001 + inputSize)))
  {
    names', types', fileData' := names, types, fileData;
    if withRowId {
      names' := names' + [name];
      types' := types' + [BigInt];
      var rowId := RowIds(inputSize);
      assert Int64Cells(rowId) == Rows(9001, 9001 + inputSize);
      fileData' := fileData' + [Vector(BigInt, Int64Cells(rowId))];
    }
  }

  /** The loop over the primary-key indices: appends, for each, the
      prefixed column name, the column type and the column's vector. */
  method AppendKeyColumns(names: seq<string>, types: seq<ColumnType>, fileData: seq<Vector>, prefix: string,
                          primaryKeyIndices: seq<int>, rowType: RowType, data: seq<Vector>)
    returns (names': seq<string>, types': seq<ColumnType>, fileData': seq<Vector>)
    requires KeysInRange(primaryKeyIndices, rowType, data)
    ensures names' == names + KeyNames(prefix, primaryKeyIndices, rowType.names)
    ensures types' == types + Pick(primaryKeyIndices, rowType.children)
    ensures fileData' == fileData + Pick(primaryKeyIndices, data)
  {
    names', types', fileData' := names, types, fileData;
    for j := 0 to |primaryKeyIndices|
      invariant names' == names + KeyNames(prefix, primaryKeyIndices[..j], rowType.names)
      invariant types' == types + Pick(primaryKeyIndices[..j], rowType.children)
      invariant fileData' == fileData + Pick(primaryKeyIndices[..j], data)
    {
      var i := primaryKeyIndices[j];
      names' := names' + [prefix + rowType.names[i]];
      types' := types' + [rowType.children[i]];
      fileData' := fileData' + [data[i]];
    }
    assert primaryKeyIndices[..|primaryKeyIndices|] == primaryKeyIndices;
  }

  /** The loop over the extra columns, in the map's iteration order:
      appends, for each, its name, its vector's type and its vector. */
  method AppendExtraColumns(names: seq<string>, types: seq<ColumnType>, fileData: seq<Vector>,
                            extraColumns: map<string, Vector>, extraOrder: seq<string>)
    returns (names': seq<string>, types': seq<ColumnType>, fileData': seq<Vector>)
    requires EnumeratesKeys(extraOrder, extraColumns)
    ensures names' == names + extraOrder
    ensures types' == types + Types(ExtraVectors(extraOrder, extraColumns))
    ensures fileData' == fileData + ExtraVectors(extraOrder, extraColumns)
  {
    names', types', fileData' := names, types, fileData;
    for k := 0 to |extraOrder|
      invariant names' == names + extraOrder[..k]
      invariant fileData' == fileData + ExtraVectors(extraOrder[..k], extraColumns)
      invariant types' == types + Types(ExtraVectors(extraOrder[..k], extraColumns))
    {
      var colName := extraOrder[k];
      var colVector := extraColumns[colName];
      names' := names' + [colName];
      types' := types' + [colVector.typ];
      fileData' := fileData' + [colVector];
    }
    assert extraOrder[..|extraOrder|] == extraOrder;
  }

  function Int32Cells(values: seq<int32>): (r: seq<int>)
    ensures |r| == |values| && forall i :: 0 <= i < |values| ==> r[i] == values[i] as int
  {
    seq(|values|, i requires 0 <= i < |values| => values[i] as int)
  }

  /** The INTEGER vectors made from columns of 32-bit values. */
  function Int32Vectors(columns: seq<seq<int32>>): (r: seq<Vector>)
    ensures |r| == |columns|
    ensures forall i :: 0 <= i < |columns| ==> r[i] == Vector(Integer, Int32Cells(columns[i]))
  {
    seq(|columns|, i requires 0 <= i < |columns| => Vector(Integer, Int32Cells(columns[i])))
  }

  /** The overload taking plain 32-bit columns: turns each into an INTEGER
      vector, in order, and lays the file out from those vectors. */
  method CreatePaimonFileFromInt32Columns(constants: PaimonConstants, primaryKeyIndices: seq<int>,
                                          rowType: RowType, data: seq<seq<int32>>, sequenceNumber: seq<int64>,
                                          valueKind: seq<int8>, withRowId: bool := false,
                                          extraColumns: map<string, Vector> := map[], extraOrder: seq<string> := [])
    returns (r: Result<PaimonFile, string>)
    requires data != [] ==> KeysInRange(primaryKeyIndices, rowType, Int32Vectors(data)) && |data[0]| <= 0x7fff_ffff
    requires EnumeratesKeys(extraOrder, extraColumns)
    ensures r.Err? <==> data == []
    ensures r.Err? ==> r.error == "data must not be empty"
    ensures r.Ok? ==> LaidOut(constants, primaryKeyIndices, rowType, Int32Vectors(data), sequenceNumber, valueKind,
                              withRowId, extraColumns, extraOrder, r.value)
  {
    var fileData: seq<Vector> := [];
    for i := 0 to |data|
      invariant |fileData| == i
      invariant forall j :: 0 <= j < i ==> fileData[j] == Vector(Integer, Int32Cells(data[j]))
    {
      fileData := fileData + [Vector(Integer, Int32Cells(data[i]))];
    }
    assert fileData == Int32Vectors(data);
    r := CreatePaimonFile(constants, primaryKeyIndices, rowType, fileData, sequenceNumber, valueKind, withRowId,
                          extraColumns, extraOrder);
  }

  /** How a Hive column handle sources its values: read from the file, taken
      from the partition value, or synthesized by the reader. */
  datatype HandleKind = Regular | PartitionKey | Synthesized

  datatype HiveColumnHandle = HiveColumnHandle(name: string, kind: HandleKind, dataType: ColumnType,
                                               hiveType: ColumnType)

  /** The metadata columns a Paimon reader synthesizes instead of reading. */
  predicate IsMetadataName(constants: PaimonConstants, name: string)
  {
    || name == constants.rowIndex
    || name == constants.filePath
    || name == constants.partition
    || name == constants.bucket
    || name == constants.rowId
  }

  /** The kind of handle a table column gets. */
  function ColumnKind(constants: PaimonConstants, partitionKeys: map<string, ColumnType>, name: string)
    : (kind: HandleKind)
    ensures kind == PartitionKey <==> name in partitionKeys
    ensures kind == Synthesized <==> name !in partitionKeys && IsMetadataName(constants, name)
  {
    if name in partitionKeys then PartitionKey
    else if IsMetadataName(constants, name) then Synthesized
    else Regular
  }

  /** The last position of `x` in `xs`: the column whose handle is kept when
      a name repeats. */
  function LastIndexOf<T(==)>(xs: seq<T>, x: T): (i: nat)
    requires x in xs
    ensures i < |xs| && xs[i] == x
    ensures forall j :: i < j < |xs| ==> xs[j] != x
  {
    if xs[|xs| - 1] == x then |xs| - 1 else LastIndexOf(xs[..|xs| - 1], x)
  }

  /** Without repeated names every column's own position is its last one. */
  lemma LastIndexOfDistinct<T>(xs: seq<T>, i: int)
    requires forall j, k :: 0 <= j < k < |xs| ==> xs[j] != xs[k]
    requires 0 <= i < |xs|
    ensures LastIndexOf(xs, xs[i]) == i
  {
  }

  /** Maps every column of `rowType` and every partition key to a Hive
      column handle of that name, whose data and Hive types are both the
      column's type. A partition key gets a partition-key handle with the
      partition key's type, even when it is also a column; a metadata
      column gets a synthesized handle; every other column a regular one,
      from its last occurrence in the row type. */
  method GetIdentityAssignment(constants: PaimonConstants, rowType: RowType,
                               partitionKeys: map<string, ColumnType> := map[])
    returns (assignments: map<string, HiveColumnHandle>)
    requires |rowType.names| == |rowType.children|
    ensures forall k :: k in assignments <==> k in rowType.names || k in partitionKeys
    ensures forall k :: k in partitionKeys ==>
                          assignments[k] == HiveColumnHandle(k, PartitionKey, partitionKeys[k], partitionKeys[k])
    ensures forall k :: k in rowType.names && k !in partitionKeys ==>
                          var t := rowType.children[LastIndexOf(rowType.names, k)];
                          assignments[k] == HiveColumnHandle(k, ColumnKind(constants, partitionKeys, k), t, t)
  {
    var names := rowType.names;
    assignments := map[];
    for i := 0 to |names|
      invariant forall k :: k in assignments <==> k in names[..i]
      invariant forall k :: k in assignments ==>
                              var t := rowType.children[LastIndexOf(names[..i], k)];
                              assignments[k] == HiveColumnHandle(k, ColumnKind(constants, partitionKeys, k), t, t)
    {
      var colType := rowType.children[i];
      var colName := names[i];
      var columnHandleType := Regular;
      if colName in partitionKeys {
        columnHandleType := PartitionKey;
      } else if || colName == constants.rowIndex
                || colName == constants.filePath
                || colName == constants.partition
                || colName == constants.bucket
                || colName == constants.rowId {
        columnHandleType := Synthesized;
      }
      LastIndexOfSnoc(names, i);
      assignments := assignments[colName := HiveColumnHandle(colName, columnHandleType, colType, colType)];
    }
    assert names[..|names|] == names;
    var remaining := partitionKeys.Keys;
    while remaining != {}
      invariant remaining <= partitionKeys.Keys
      invariant forall k :: k in assignments <==> k in names || k in partitionKeys.Keys - remaining
      invariant forall k :: k in partitionKeys.Keys - remaining ==>
                              assignments[k] == HiveColumnHandle(k, PartitionKey, partitionKeys[k], partitionKeys[k])
      invariant forall k :: k in names && k !in partitionKeys.Keys - remaining ==>
                              var t := rowType.children[LastIndexOf(names, k)];
                              assignments[k] == HiveColumnHandle(k, ColumnKind(constants, partitionKeys, k), t, t)
      decreases remaining
    {
      var colName :| colName in remaining;
      var colType := partitionKeys[colName];
      assignments := assignments[colName := HiveColumnHandle(colName, PartitionKey, colType, colType)];
      remaining := remaining - {colName};
    }
  }

  /** Appending one name: the name's last position is the new one, and
      every other name keeps its last position. */
  lemma LastIndexOfSnoc<T>(xs: seq<T>, i: int)
    requires 0 <= i < |xs|
    ensures LastIndexOf(xs[..i + 1], xs[i]) == i
    ensures forall x :: x in xs[..i] && x != xs[i] ==> x in xs[..i + 1] && LastIndexOf(xs[..i + 1], x) == LastIndexOf(xs[..i], x)
  {
    assert xs[..i + 1][..i] == xs[..i];
  }
}
