# Shuffle test doubles and Paimon test utilities of Bolt, in Dafny

This project models two groups of test support code from the Bolt query engine.

- **Shuffle test doubles** (`bolt/shuffle/sparksql/tests`):
  - `MockRssClient` is an in-memory remote-shuffle-service client. It appends every push to a per-partition byte buffer and reports full acceptance.
  - `MemoryReaderStreamIterator` hands out a list of in-memory buffers one stream at a time, then the null end sentinel for ever.
  - `LocalFileReaderStreamIterator` hands out, one segment at a time, a stream bounded to a byte range of a local file.
  - `buildShuffleParams` enumerates the shuffle test matrix: partitioning × mode × writer × data-type group × partition count × mapper count, in nested-loop order. It keeps only the supported configurations.
- **Paimon test utilities** (`bolt/dwio/paimon/reader/tests/PaimonTestUtils.cpp`):
  - `createPaimonFile` lays out a primary-key data file. The columns come in this order:
    - the prefixed key columns;
    - an optional sequence-number column;
    - the value-kind column;
    - the data columns;
    - an optional row-id column numbered from 9001;
    - the extra columns.

    It then cuts the rows into 64-row slices for the write plan.
  - Its overload over plain 32-bit columns first builds INTEGER vectors.
  - `getIdentityAssignment` maps every column and every partition key to a Hive column handle. Each handle is classified as partition key, synthesized metadata column or regular column.

Each source file becomes one module, in the source's own imperative form.

- `MockRss` (`mock_rss_client.dfy`):
  - The client is a class whose `data` field is a `map<int32, seq<byte>>`. Its methods update the field in place.
  - A ghost log of pushes ties the recorded data to `Replay`, which gives the meaning of the whole push history.
- `MemoryReaderStream` and `LocalFileReaderStream`:
  - The iterators are classes with a buffer or segment sequence and a `current` cursor.
  - A ghost history of what each call returned or consumed sits beside them. `Valid()` says call `i` served element `i` and then the sentinel.
  - The null stream is `None`. A `BOLT_FAIL` is an `Err` outcome.
  - The file system is a `map<string, seq<byte>>` passed to each call.
- `ShuffleMatrix`:
  - `BuildShuffleParams` keeps the six nested loops, split over three methods. It is proved equal to the specification function `ShuffleParams`.
  - `ShuffleParams` is built from one block function per loop level.
  - Lemmas about `ShuffleParams` prove membership (exactly the supported combinations of the axes), the size bound, strict lexicographic order and absence of duplicates.
- `PaimonTestUtils`:
  - `CreatePaimonFile` builds the names, types and vectors in loops and steps as the source does. It is proved against `LaidOut`, which states the column layout through `Layout`, the row-id column and the slices.
  - Lemmas show where each column sits and that the slices cover every row once, in order.
  - `GetIdentityAssignment` keeps both loops over the assignment map. Its postcondition states the whole resulting map.

The constants of the shuffle matrix axes and the row ids from 9001 are those of the source. The Paimon reserved column names are the fields of a `PaimonConstants` value passed in, because their definitions are not part of this model.

## Model

| member | source | states |
|---|---|---|
| Primitives.TruncateToInt32 | bolt/shuffle/sparksql/tests/MockRssClient.h:34 | The `int64` size returned through an `int32` result equals the size when it fits in 32 bits; otherwise it is the value congruent to it modulo 2^32 |
| MockRss.Append | bolt/shuffle/sparksql/tests/MockRssClient.h:30-33 | After a push to `p`, the key `p` is present even for an empty payload, its bytes are the old bytes (empty if absent) followed by the payload, and every other partition is unchanged |
| MockRss.ReplayIsConcatenation | bolt/shuffle/sparksql/tests/MockRssClient.h:28-35 | Over any sequence of pushes, a partition is present exactly when some push went to it, and its bytes are the in-order concatenation of the payloads pushed to it |
| MockRss.MockRssClient.constructor | bolt/shuffle/sparksql/tests/MockRssClient.h:45 | A new client holds no partition and an empty push history |
| MockRss.MockRssClient.PushPartitionData | bolt/shuffle/sparksql/tests/MockRssClient.h:28-35 | The new data is `Append` of the old data with the first `size` bytes, the push is logged, the concatenation invariant is kept, and the result is `size` (truncated to 32 bits) |
| MockRss.MockRssClient.Stop | bolt/shuffle/sparksql/tests/MockRssClient.h:37 | Changes nothing, so it can be called any number of times |
| MockRss.MockRssClient.GetData | bolt/shuffle/sparksql/tests/MockRssClient.h:39-41 | Returns exactly the recorded data and only reads the client |
| MockRss.PushOnceAndStopTwice | bolt/shuffle/sparksql/tests/MockRssClient.h:28-41 | On a fresh client, one push of a 1024-byte payload to partition 2 followed by two stops leaves exactly `{2: payload}` |
| MemoryReaderStream.DeliveredBuffers | bolt/shuffle/sparksql/tests/MemoryReaderStreamIterator.h:32-42 | The streams served by successive calls are the buffers in construction order, each exactly once, and a prefix of them when fewer calls were made |
| MemoryReaderStream.MemoryReaderStreamIterator.constructor | bolt/shuffle/sparksql/tests/MemoryReaderStreamIterator.h:27-28 | Stores the buffers unchanged with the cursor at 0 |
| MemoryReaderStream.MemoryReaderStreamIterator.NextStream | bolt/shuffle/sparksql/tests/MemoryReaderStreamIterator.h:30-43 | Past the end it returns `None` and leaves the cursor where it is; otherwise it returns the next buffer byte for byte and advances the cursor by one; the buffers never change; the served-in-order invariant is kept |
| MemoryReaderStream.MemoryReaderStreamIterator.Close | bolt/shuffle/sparksql/tests/MemoryReaderStreamIterator.h:45 | Leaves all state unchanged |
| MemoryReaderStream.MemoryReaderStreamIterator.UpdateMetrics | bolt/shuffle/sparksql/tests/MemoryReaderStreamIterator.h:47-52 | Leaves all state unchanged |
| LocalFileReaderStream.OpenFile | bolt/shuffle/sparksql/tests/LocalFileReaderStreamIterator.h:43-48 | Opening succeeds exactly when the file exists, and yields its contents |
| LocalFileReaderStream.BoundedStream | bolt/shuffle/sparksql/tests/LocalFileReaderStreamIterator.h:52-57 | The bounded stream exists exactly when offset and length are non-negative; it never holds more than `length` bytes, only bytes of the file from `offset` on, and the whole range when it lies inside the file |
| LocalFileReaderStream.SegmentStream | bolt/shuffle/sparksql/tests/LocalFileReaderStreamIterator.h:42-57 | A segment yields the error "Failed to open file: " + name exactly when its file is missing, the null stream exactly when its range is refused, and otherwise a stream bounded to its range |
| LocalFileReaderStream.LocalFileReaderStreamIterator.constructor | bolt/shuffle/sparksql/tests/LocalFileReaderStreamIterator.h:34-35 | Stores the segments in order with the cursor at 0 |
| LocalFileReaderStream.LocalFileReaderStreamIterator.NextStream | bolt/shuffle/sparksql/tests/LocalFileReaderStreamIterator.h:37-58 | Past the end it returns the null stream without moving; otherwise it consumes exactly the next segment, advances the cursor even when the open or the range step fails, and returns that segment's `SegmentStream` |
| LocalFileReaderStream.LocalFileReaderStreamIterator.Close | bolt/shuffle/sparksql/tests/LocalFileReaderStreamIterator.h:60-62 | Leaves all state unchanged |
| LocalFileReaderStream.LocalFileReaderStreamIterator.UpdateMetrics | bolt/shuffle/sparksql/tests/LocalFileReaderStreamIterator.h:64-71 | Leaves all state unchanged |
| ShuffleMatrix.ShuffleParamsMembers | bolt/shuffle/sparksql/tests/ShuffleMatrixTest.cpp:23-53 | A configuration is in the matrix exactly when it is supported and each of its fields is drawn from its axis list |
| ShuffleMatrix.ShuffleParamsLength | bolt/shuffle/sparksql/tests/ShuffleMatrixTest.cpp:23-37 | The matrix has at most 4·4·2·3·2 = 192 configurations per data type group |
| ShuffleMatrix.ShuffleParamsAscending | bolt/shuffle/sparksql/tests/ShuffleMatrixTest.cpp:32-53 | With distinct data type groups, the configurations come in strictly increasing lexicographic order of their positions on the axes (partitioning, mode, writer, group, partitions, mappers) |
| ShuffleMatrix.ShuffleParamsDistinct | bolt/shuffle/sparksql/tests/ShuffleMatrixTest.cpp:32-44 | With distinct data type groups, no configuration appears twice |
| ShuffleMatrix.ConcatMember | bolt/shuffle/sparksql/tests/ShuffleMatrixTest.cpp:32-53 | An element is in the concatenation of the blocks of a loop exactly when it is in the block of one of the loop's values |
| ShuffleMatrix.ConcatLength | bolt/shuffle/sparksql/tests/ShuffleMatrixTest.cpp:32-53 | A loop whose every iteration adds at most `width` configurations adds at most `width` per value |
| ShuffleMatrix.BuildShuffleParams | bolt/shuffle/sparksql/tests/ShuffleMatrixTest.cpp:21-56 | The loops over partitionings and modes return exactly the matrix `ShuffleParams` |
| ShuffleMatrix.AppendWriterBlock | bolt/shuffle/sparksql/tests/ShuffleMatrixTest.cpp:34-51 | The loops over writers and data type groups append exactly the block of one mode |
| ShuffleMatrix.AppendGroupBlock | bolt/shuffle/sparksql/tests/ShuffleMatrixTest.cpp:36-49 | The loops over partition and mapper counts append exactly the supported configurations of one data type group |
| PaimonTestUtils.LayoutPositions | bolt/dwio/paimon/reader/tests/PaimonTestUtils.cpp:52-86 | In a file layout, the key columns come first, then the sequence-number column if any, the value-kind column, the data columns, the row-id column if any and the extra columns; each part sits at its offset and the length is the sum |
| PaimonTestUtils.Pick | bolt/dwio/paimon/reader/tests/PaimonTestUtils.cpp:52-56 | The key types and vectors are those of the primary-key columns, one per index, in index order |
| PaimonTestUtils.KeyNames | bolt/dwio/paimon/reader/tests/PaimonTestUtils.cpp:52-53 | Each key-column name is the key prefix followed by the name of the primary-key column, in index order |
| PaimonTestUtils.RowIds | bolt/dwio/paimon/reader/tests/PaimonTestUtils.cpp:77-78 | Produces one row id per input row, the consecutive values 9001, 9002, … |
| PaimonTestUtils.SliceRanges | bolt/dwio/paimon/reader/tests/PaimonTestUtils.cpp:94-98 | Produces ⌈inputSize / 64⌉ slices; slice `j` starts at row `64·j` and holds `min(64, rowCount − 64·j)` rows |
| PaimonTestUtils.SlicesCoverRows | bolt/dwio/paimon/reader/tests/PaimonTestUtils.cpp:94-98 | When the row vector has one row per input row, the slices select rows 0 … inputSize−1 exactly once, in order, each slice holding 1 to 64 rows |
| PaimonTestUtils.CreatePaimonFile | bolt/dwio/paimon/reader/tests/PaimonTestUtils.cpp:31-98 | Fails with "data must not be empty" exactly when the data is empty; otherwise names, types and vectors follow the file layout (row ids from 9001), and the slices are cut every 64 input rows, bounded by the first column's rows |
| PaimonTestUtils.AppendKeyColumns | bolt/dwio/paimon/reader/tests/PaimonTestUtils.cpp:52-56 | The primary-key loop appends the prefixed names, types and vectors of the key columns, in index order |
| PaimonTestUtils.AppendSequenceColumn | bolt/dwio/paimon/reader/tests/PaimonTestUtils.cpp:60-65 | A BIGINT sequence-number column holding the given numbers is appended exactly when sequence numbers are given |
| PaimonTestUtils.AppendRowIdColumn | bolt/dwio/paimon/reader/tests/PaimonTestUtils.cpp:74-80 | A BIGINT row-id column numbering the input rows from 9001 is appended exactly when asked for |
| PaimonTestUtils.AppendExtraColumns | bolt/dwio/paimon/reader/tests/PaimonTestUtils.cpp:82-86 | The extra columns are appended in the map's iteration order, each with its name, its vector's type and its vector |
| PaimonTestUtils.LaidOutSlicesCoverRows | bolt/dwio/paimon/reader/tests/PaimonTestUtils.cpp:91-98 | For a laid-out file whose first column has one cell per input row, the slices select every input row exactly once, in order |
| PaimonTestUtils.LaidOutRowIdColumn | bolt/dwio/paimon/reader/tests/PaimonTestUtils.cpp:71-80 | With a row id, the column right after the data columns is named the row-id column and holds 9001, 9002, … |
| PaimonTestUtils.Int32Vectors | bolt/dwio/paimon/reader/tests/PaimonTestUtils.cpp:131-134 | Each 32-bit column becomes an INTEGER vector with the same values, in column order |
| PaimonTestUtils.CreatePaimonFileFromInt32Columns | bolt/dwio/paimon/reader/tests/PaimonTestUtils.cpp:119-147 | Fails exactly when the data is empty; otherwise the file is laid out from the INTEGER vectors of the columns |
| PaimonTestUtils.ColumnKind | bolt/dwio/paimon/reader/tests/PaimonTestUtils.cpp:159-169 | A column is a partition key exactly when its name is a partition key, and synthesized exactly when it is not and its name is one of the five metadata names; otherwise it is regular |
| PaimonTestUtils.LastIndexOf | bolt/dwio/paimon/reader/tests/PaimonTestUtils.cpp:156-171 | When a name repeats, the handle kept comes from the name's last position |
| PaimonTestUtils.LastIndexOfSnoc | bolt/dwio/paimon/reader/tests/PaimonTestUtils.cpp:170-171 | Assigning column `i` makes it the last position of its name and keeps every other name's last position |
| PaimonTestUtils.LastIndexOfDistinct | bolt/dwio/paimon/reader/tests/PaimonTestUtils.cpp:156-171 | Without repeated names, every column's handle comes from that column itself |
| PaimonTestUtils.GetIdentityAssignment | bolt/dwio/paimon/reader/tests/PaimonTestUtils.cpp:149-183 | The keys are exactly the column names and the partition keys. A partition key maps to a partition-key handle with its given type, even when it is also a column or absent from the row type. Every other column maps to a handle of its own name, classified by `ColumnKind`, with the type of its last occurrence in both type slots |

## Left out

- Arrow I/O is not modelled. This covers `ReadableFile::Open`, `RandomAccessFile::GetStream`, `Buffer::FromString`, `BufferReader` and the memory pool. A file is its bytes in a map, and a stream is the bytes it would yield. `GetStream` is taken to refuse a negative offset or length and to stop at the end of the file. Its implementation is not part of this model.
- `BOLT_FAIL` throws. The `return nullptr` after it in `LocalFileReaderStreamIterator::nextStream` cannot be reached, and the model returns the error instead.
- Query-engine execution in `createPaimonFile` is not modelled. This covers the plan builder, `orderBy` on the column names, the Parquet table write and the serial task loop. These are foreign calls with no visible semantics.
- Vector construction is not modelled. This covers `VectorMaker`, `RowVector` and `slice`. A vector is its type and its cells, as integers.
- The row vector's own size checks are not modelled. This includes what `slice` does with a non-positive length: when the first column has fewer cells than the input, the last slice's length can be zero or negative. The model only records the slice arithmetic.
- PaimonTestUtils.CreatePaimonFile: the file's row type, which the source returns, is the `rowType` field of the returned file.
- PaimonTestUtils.CreatePaimonFile: the reserved column names and the key prefix are fields of a `PaimonConstants` value passed in, because their definitions are not part of this model.
- PaimonTestUtils.CreatePaimonFile: the primary-key indices must select existing columns of both the row type and the data. The source indexes those vectors unchecked, so other indices have no defined behaviour.
- PaimonTestUtils.CreatePaimonFile: the input must have at most 2^31 − 1 rows. The row ids are 64-bit and the row count is a 32-bit vector size.
- PaimonTestUtils.CreatePaimonFile: names, types and vectors have equal lengths only when the row type and the data have as many columns as names. The postcondition states the length relations for every input instead of assuming this.
- PaimonTestUtils.SliceRanges: the loop counter is unbounded here. The source's `int` counter, stepping by 64, could overflow for an input within 64 rows of 2^31.
- PaimonTestUtils.AppendExtraColumns: the iteration order of the `std::unordered_map` of extra columns is a parameter (`extraOrder`) listing every key once. The source does not fix that order.
- PaimonTestUtils.GetIdentityAssignment: the row type must have as many types as names, which a row type always has. The partition keys are visited in an arbitrary order; the result does not depend on it, because their keys are distinct.
- PaimonTestUtils.GetIdentityAssignment: handles are values, not shared pointers, and a column's Hive type is the same `ColumnType` as its data type, as in the source.
- MockRss.MockRssClient.PushPartitionData: `size` must be between 0 and the number of bytes available. The source copies `size` bytes from a raw pointer, which has no defined behaviour otherwise.
- ShuffleMatrix.ShuffleParamsAscending: ordering and absence of duplicates are proved only for distinct data type groups. The `dataGroups` list is not part of this model.
- ShuffleMatrix.BuildShuffleParams: `isSupported` and `dataGroups` are parameters, because their bodies are not part of this model. The gtest suite, `executeTest` and `toString` are left out as test machinery.
- `PaimonMetadataColumn` is not part of this model. It is a thin wrapper over vector constants and string conversion whose code is not shown.
- `ScanSpecTest` is not part of this model. It tests floating-point statistics through a filter helper that is not shown.
- The default arguments of `PaimonTestUtils.h` are mirrored as Dafny default parameters: no row id, no extra columns and no partition keys.
