# Shuffle writing and variance bookkeeping, modelled in Dafny

This project models two pieces of a distributed query engine.

**The shuffle writer** (`ShuffleWriterExec`) runs one input partition of a query stage and writes what it produces, either to a single output or hash-partitioned into `n` output partitions. In the hash case:
- each batch's rows are put into `n` buckets by `hash % n`;
- a writer is created lazily per output partition (a file, a Flight stream or a local channel);
- every sub-batch is written to its writer, and the writer counts batches, rows and bytes;
- at the end, one `ShuffleWritePartition` record is reported per writer, in partition order.

The module also:
- classifies an output location as push and/or local;
- lays out file paths as `work_dir/job/stage/partition/data[-i].arrow`;
- turns the records into a metadata batch in `execute`.

**The variance aggregate** (`VARIANCE`/`VAR_SAMP` and `VAR_POP`) covers the argument types it accepts and its accumulator's count bookkeeping: `update`, `update_batch`, `merge`, `merge_batch`, `state` and `evaluate`. The accumulator's two floating-point moments (`mean`, `m2`) are opaque bit patterns. The model states only when they are copied, replaced by what the floating-point step returned, or left alone.

Files:

- `errors.dfy` (`Errors`): `Option`, `Result`, and the engine's error kinds. A Rust panic (`assert_eq!`, `unreachable!`, `% 0`, an index past the end) is the error `Panic(message)`.
- `text.dfy` (`Text`): `format!("{}", n)` for unsigned integers, its parser, and the round trip between them.
- `shuffle_paths.dfy` (`ShufflePaths`): `PathBuf::push` on a Unix-like system, and the two file layouts with their distinctness and layout lemmas.
- `shuffle_buckets.dfy` (`ShuffleBuckets`): the bucketing loop and its specification, and the conservation of rows.
- `shuffle_writer.dfy` (`ShuffleWrite`):
  - the execution plan and its output location;
  - the writer class and its counters;
  - the hash-partitioned write, with its writer table as an `array<Option<ShuffleWriter>>` filled in place;
  - the unpartitioned write, the dispatch on the partitioning scheme, and the metadata batch.
- `variance.dfy` (`VarianceAgg`):
  - data types and return type;
  - the `VarianceAccumulator` class, whose methods change `count`, `mean` and `m2` in place;
  - the pure specifications of those methods, and `evaluate`.

Inputs that come from code outside this core are parameters:
- **Row hashes.** Each batch carries its row hashes (`RecordBatch.rowHashes`).
- **Sub-batch bytes.** `takeSize(k, p)` gives the memory size of the sub-batch that `take` extracts from stream item `k` for output partition `p`.
- **Stream writers.** `flushed` is what `write_stream_to_disk` / `write_stream_to_flight` report: their statistics, or the `{:?}` text of their error, which the write wraps as an execution error.
- **Cast column.** `cast` is the outcome of casting the input column to Float64.
- **Welford arithmetic.** `step`, `arith` and `divide` are the floating-point steps.

## Model

| member | source | states |
|---|---|---|
| ShuffleWrite.ShuffleClassification | ballista/rust/core/src/execution_plans/shuffle_writer.rs:188-201 | push shuffle exactly when the location is not a local directory; local shuffle exactly when it is an executor list whose every id is `self_id` (so the empty list is local); local implies push |
| ShuffleWrite.AllOnMeansEvery | ballista/rust/core/src/execution_plans/shuffle_writer.rs:199 | the recursive `all` check holds iff every executor id equals the given id |
| ShuffleWrite.ShuffleWriter.constructor | ballista/rust/core/src/execution_plans/shuffle_writer.rs:676-692 | a new writer keeps its kind and starts with zero batches, rows and bytes |
| ShuffleWrite.ShuffleWriter.Write | ballista/rust/core/src/execution_plans/shuffle_writer.rs:694-705 | one write adds 1 batch, the sub-batch's rows and its bytes, and nothing else changes; the Flight (771-783) and local (823-835) writers count the same way |
| ShuffleWrite.WriterCountsBatches | ballista/rust/core/src/execution_plans/shuffle_writer.rs:694-705 | a fresh writer that has written a sequence of sub-batches reports its path, their number, and their total rows and bytes |
| ShuffleWrite.WriterKindFor | ballista/rust/core/src/execution_plans/shuffle_writer.rs:387-445 | the writer a partition gets: a file at the hash-partitioned path for a local directory; for executors, the local writer over `senders[p]` when senders are given, otherwise a Flight writer to `execs[p]`'s host and port for this job, stage and partition `p` (420-436); fails exactly on the `assert_eq!` length checks |
| ShuffleWrite.CreateWriter | ballista/rust/core/src/execution_plans/shuffle_writer.rs:385-445 | fails exactly when the location's length checks fail; otherwise a fresh writer of the right kind that holds exactly the first sub-batch |
| ShuffleBuckets.BucketIndices | ballista/rust/core/src/execution_plans/shuffle_writer.rs:350-354 | exactly `n` buckets, each equal to `Bucket(hashes, n, p)`; with `n == 0` and at least one row it is the remainder-by-zero panic, and only then |
| ShuffleBuckets.BucketContents | ballista/rust/core/src/execution_plans/shuffle_writer.rs:350-354 | bucket `p` holds exactly the row indices whose hash is `p` modulo `n`, strictly ascending |
| ShuffleBuckets.EveryRowInExactlyOneBucket | ballista/rust/core/src/execution_plans/shuffle_writer.rs:350-354 | every row index is in bucket `hash % n` and in no other bucket |
| ShuffleBuckets.BucketsConserveRows | ballista/rust/core/src/execution_plans/shuffle_writer.rs:350-358 | the sizes of the `n` buckets of a batch add up to its row count |
| ShuffleBuckets.BucketListsConserveRows | ballista/rust/core/src/execution_plans/shuffle_writer.rs:350-358 | the index lists the bucketing loop builds have sizes adding up to the batch's row count |
| ShuffleWrite.WriteToWriters | ballista/rust/core/src/execution_plans/shuffle_writer.rs:381-384 | for a batch after the first: each writer's counters move from "after `k` items" to "after `k + 1` items"; the rows written are the total size of the batch's index lists |
| ShuffleWrite.CreateWriters | ballista/rust/core/src/execution_plans/shuffle_writer.rs:385-445 | for the first batch: either the creation failure, or a fresh writer of the partition's kind in every slot `q`, holding bucket `q` of the batch; the rows written are the total size of the index lists |
| ShuffleWrite.ExpectedStep | ballista/rust/core/src/execution_plans/shuffle_writer.rs:355-384 | writing sub-batch `q` of item `k` moves writer `q`'s counters from after `k` items to after `k + 1`; before any item they are zero |
| ShuffleWrite.FirstBatchCounters | ballista/rust/core/src/execution_plans/shuffle_writer.rs:385-409 | after the first batch, writer `q` has one batch, the rows of bucket `q` and that sub-batch's bytes |
| ShuffleWrite.CollectPartitions | ballista/rust/core/src/execution_plans/shuffle_writer.rs:453-479 | the final loop yields one record per occupied slot, in slot order, copied from that writer |
| ShuffleWrite.PartitionsFromSlotsContents | ballista/rust/core/src/execution_plans/shuffle_writer.rs:453-479 | every record comes from an occupied slot with `partition_id` its index and the stats copied; ids strictly ascend; every occupied slot has a record |
| ShuffleWrite.AllOccupiedSlots | ballista/rust/core/src/execution_plans/shuffle_writer.rs:453-479 | with every slot occupied, record `p` is slot `p`'s writer, for all `n` slots |
| ShuffleWrite.NoOccupiedSlots | ballista/rust/core/src/execution_plans/shuffle_writer.rs:325-328 | with no writer created, the result is empty |
| ShuffleWrite.HashResultShape | ballista/rust/core/src/execution_plans/shuffle_writer.rs:376-381 | an empty stream yields `[]`; otherwise `n` records in order, each having counted every batch (empty sub-batches too), the rows and bytes sent to it, and its writer's path |
| ShuffleWrite.NoFailureFrom | ballista/rust/core/src/execution_plans/shuffle_writer.rs:333-334 | a successful write saw no stream error and, with zero partitions, only empty batches |
| ShuffleWrite.RowsToAllPartitions | ballista/rust/core/src/execution_plans/shuffle_writer.rs:350-354 | over the whole stream, the rows sent to the `n` partitions add up to the stream's rows |
| ShuffleWrite.HashWriteConservesRows | ballista/rust/core/src/execution_plans/shuffle_writer.rs:336-448 | the returned records' `num_rows` add up to the rows of the input stream |
| ShuffleWrite.WriteBatches | ballista/rust/core/src/execution_plans/shuffle_writer.rs:325-448 | the loop over the stream stops with exactly the first failure (stream error, remainder panic, creation failure); otherwise `input_rows` and `output_rows` equal the stream's rows and, for a non-empty stream, every slot holds a writer of its partition's kind that has counted every batch and the rows and bytes sent to it |
| ShuffleWrite.WriteHashPartitioned | ballista/rust/core/src/execution_plans/shuffle_writer.rs:320-480 | the hash branch returns the first stream error, remainder panic or creation failure, or else the records collected from the writers in partition order (453-479); its `input_rows` and `output_rows` both equal the stream's rows |
| ShuffleWrite.DrainToLocalSender | ballista/rust/core/src/execution_plans/shuffle_writer.rs:245-266 | the first stream error, or stats with the stream's rows, batch count and bytes |
| ShuffleWrite.WriteUnpartitioned | ballista/rust/core/src/execution_plans/shuffle_writer.rs:213-317 | the unpartitioned branch follows its specification; on success `input_rows == output_rows ==` the rows reported |
| ShuffleWrite.UnpartitionedFlushFailure | ballista/rust/core/src/execution_plans/shuffle_writer.rs:227-234 | a failing disk (227-234) or Flight (276-289) stream writer makes the unpartitioned write return `Execution` with that error's debug text |
| ShuffleWrite.UnpartitionedSingleEntry | ballista/rust/core/src/execution_plans/shuffle_writer.rs:296-317 | one record for the input partition: the `data.arrow` path for a local directory, `""` otherwise, and 0 for any statistic the writer did not report |
| ShuffleWrite.OtherSchemesRejected | ballista/rust/core/src/execution_plans/shuffle_writer.rs:481-484 | any scheme but none or hash is "Invalid shuffle partitioning scheme" |
| ShuffleWrite.ExecutorCountChecked | ballista/rust/core/src/execution_plans/shuffle_writer.rs:411-418 | an executor list not of length 1 (unpartitioned), or not of length `n` once a batch arrives (hash), panics |
| ShuffleWrite.ExecuteShuffleWrite | ballista/rust/core/src/execution_plans/shuffle_writer.rs:203-486 | the dispatch equals the specification of the three cases; on success `input_rows == output_rows ==` the sum of the records' rows |
| ShuffleWrite.BuildMetadata | ballista/rust/core/src/execution_plans/shuffle_writer.rs:532-545 | one metadata row per record, with the partition id narrowed to 32 bits; the records read back unchanged when every id fits |
| ShuffleWrite.Execute | ballista/rust/core/src/execution_plans/shuffle_writer.rs:525-575 | the write's error, or a metadata batch with one row per returned record carrying its narrowed id, path, rows, batches and bytes |
| ShufflePaths.HashFilePathLayout | ballista/rust/core/src/execution_plans/shuffle_writer.rs:389-399 | hash partitioning writes `work_dir/job/stage/output_partition/data-{input_partition}.arrow` |
| ShufflePaths.HashFilePathsDistinct | ballista/rust/core/src/execution_plans/shuffle_writer.rs:389-399 | different (output, input) partition pairs never share a file |
| ShufflePaths.UnpartitionedPathLayout | ballista/rust/core/src/execution_plans/shuffle_writer.rs:216-223 | the unpartitioned file is `work_dir/job/stage/input_partition/data.arrow` |
| ShufflePaths.UnpartitionedPathsDistinct | ballista/rust/core/src/execution_plans/shuffle_writer.rs:216-223 | different input partitions never share a file |
| ShufflePaths.JobOneFile | ballista/rust/core/src/execution_plans/shuffle_writer.rs:892-901 | job `jobOne`, stage 1, input partition 0 writes a path ending in `/jobOne/1/{p}/data-0.arrow` |
| Text.NatToString | ballista/rust/core/src/execution_plans/shuffle_writer.rs:391-393 | `format!("{}", n)` is a non-empty string of digits without a leading zero |
| Text.ParseFormatRoundTrip | ballista/rust/core/src/execution_plans/shuffle_writer.rs:391-393 | reading back the formatted number gives the number |
| Text.NatToStringInjective | ballista/rust/core/src/execution_plans/shuffle_writer.rs:391-393 | different numbers format differently |
| VarianceAgg.VarianceReturnType | datafusion/src/physical_plan/expressions/variance.rs:51-68 | Float64 exactly for the types the support predicate accepts (70-84); otherwise a plan error naming the type |
| VarianceAgg.ReturnTypeExamples | datafusion/src/physical_plan/expressions/variance.rs:546-554 | Float64 maps to Float64; `Decimal(36, 10)` is rejected as "VARIANCE does not support Decimal(36, 10)" |
| VarianceAgg.NewVariance | datafusion/src/physical_plan/expressions/variance.rs:88-100 | the sample aggregate can be built exactly for result type Float64; any other type panics |
| VarianceAgg.NewVariancePop | datafusion/src/physical_plan/expressions/variance.rs:147-159 | the population aggregate can be built exactly for result type Float64; any other type panics |
| VarianceAgg.StateFieldTypes | datafusion/src/physical_plan/expressions/variance.rs:116-134 | three state fields: UInt64 count, Float64 mean, Float64 m2 |
| VarianceAgg.CreateAccumulator | datafusion/src/physical_plan/expressions/variance.rs:112-114 | a fresh empty accumulator, sample for `Variance` and population for `VariancePop` (171-175) |
| VarianceAgg.VarianceAccumulator.TryNew | datafusion/src/physical_plan/expressions/variance.rs:225-232 | count 0, both moments 0, the given statistic |
| VarianceAgg.VarianceAccumulator.State | datafusion/src/physical_plan/expressions/variance.rs:248-254 | three values of the state fields' types, holding count, mean and m2 in that order |
| VarianceAgg.CountedSlotsBounds | datafusion/src/physical_plan/expressions/variance.rs:260-265 | the counted slots are at most all of them; all are counted iff none is null-and-zero, none iff all are |
| VarianceAgg.UpdateAllCount | datafusion/src/physical_plan/expressions/variance.rs:260-275 | `update_batch` raises the count by the number of counted slots; if it counts none, the state is unchanged |
| VarianceAgg.VarianceAccumulator.UpdateBatch | datafusion/src/physical_plan/expressions/variance.rs:256-278 | a cast failure changes nothing; otherwise the state becomes the fold over the slots and the count grows by the slots counted |
| VarianceAgg.MergeAllCount | datafusion/src/physical_plan/expressions/variance.rs:285-301 | `merge_batch` ends with the initial count plus all incoming counts; rows of count 0 change nothing |
| VarianceAgg.VarianceAccumulator.MergeBatch | datafusion/src/physical_plan/expressions/variance.rs:280-303 | the state becomes the fold over the state rows, and the count is the initial count plus the incoming counts |
| VarianceAgg.UpdateScalar | datafusion/src/physical_plan/expressions/variance.rs:305-337 | no value is an index-out-of-bounds panic; a null scalar changes nothing; a failing scalar step changes nothing and returns its error; otherwise the count rises by exactly 1 |
| VarianceAgg.VarianceAccumulator.Update | datafusion/src/physical_plan/expressions/variance.rs:305-337 | the result and the new state are those of `UpdateScalar` on the old state |
| VarianceAgg.MergeCases | datafusion/src/physical_plan/expressions/variance.rs:339-421 | incoming count 0 changes nothing; an empty accumulator takes the incoming state verbatim; otherwise the counts add up, or the scalar step's error leaves the state as it was |
| VarianceAgg.MergeIntoEmptyCopies | datafusion/src/physical_plan/expressions/variance.rs:366-371 | merging a non-empty accumulator's state into an empty one reproduces that accumulator exactly; merging an empty one leaves the count 0 |
| VarianceAgg.VarianceAccumulator.Merge | datafusion/src/physical_plan/expressions/variance.rs:339-421 | the result and the new state are those of `MergeScalar` on the old state |
| VarianceAgg.Evaluate | datafusion/src/physical_plan/expressions/variance.rs:423-446 | population: a value iff the count is at least 2, divided by the count; sample: a value iff the count is at least 3, divided by count - 1; otherwise the "at least two values" error; never `Float64(None)` |
| VarianceAgg.FewInputsRejected | datafusion/src/physical_plan/expressions/variance.rs:557-571 | the sample variance of one value, and of an all-null column (591-606), is an error |
| VarianceAgg.SampleOfTwoRejected | datafusion/src/physical_plan/expressions/variance.rs:435-439 | two values: the code rejects the sample variance, the stated rule accepts it with divisor 1 |
| VarianceAgg.EvaluateIntended | datafusion/src/physical_plan/expressions/variance.rs:435-439 | a value iff at least two values were counted, for either statistic, with the same divisors |
| VarianceAgg.EvaluateAgreesOtherwise | datafusion/src/physical_plan/expressions/variance.rs:423-446 | the code and the stated rule differ only for a sample of exactly two values |

## Left out

- **Foreign and I/O code:**
  - Evaluating the partitioning expressions and hashing them (`create_hashes`, `ahash`) is not modelled. So is the `arrays[0]` panic of an empty expression list. Each batch carries its row hashes instead.
  - `take`, `RecordBatch::try_new` and `get_array_memory_size` are foreign. Their errors are not modelled, and the sub-batch byte sizes are the `takeSize` parameter.
  - `self.plan.execute` and its error are not modelled.
  - `create_dir_all`, `File::create`, the Arrow IPC file writer and `finish` are filesystem I/O. Their failures are not modelled, and a writer's effect is only on its counters.
  - `write_stream_to_disk` / `write_stream_to_flight` are not modelled. Their outcome is the `flushed` parameter, whose error is the foreign error's `{:?}` text.
  - Flight push, `tokio::spawn` and the mpsc channels are network and concurrency code. A send is a no-op after the counter update.
- **Numbers and platform:**
  - Counters and partition ids are unbounded naturals. The model does not capture `u64`/`usize` overflow (wrap-around or panic) of `num_rows`, `num_bytes`, `num_batches`, `count` or `self.count + c`. Only the explicit `as u32` narrowing in `execute` is modelled.
  - Windows path separators (the tests also accept `\`) are not modelled. Paths follow `PathBuf::push` on a Unix-like system.
- **The hash loop's structure:**
  - The hash branch's per-output-partition loop is split in two: the loop for the first batch, which creates the writers (`CreateWriters`), and the loop for later batches (`WriteToWriters`). In the source one loop matches on each slot. The split is equivalent because all slots are filled together on the first batch.
  - The order in which the loop fails is modelled per batch. A creation failure, which does not depend on the partition, already happens at partition 0.
- **Logging and metrics:** metrics timers, `Instant`, logging, `fmt_as`, `statistics`, the schema builders and `format_state_name` are not modelled.
- **Numerics:** Welford's update and merge formulas and the final `m2 / count` division are floating-point arithmetic. They are the parameters `step`, `arith` and `divide`, and `mean`/`m2` are bit patterns.
- **Scalar values:** `ScalarValue` arithmetic, and `PhysicalExpr::evaluate` producing the input column, are foreign. The column arrives already cast, as the `cast` parameter. So the `values[0]` index-out-of-bounds panic of `update_batch` on an empty column list is not modelled (the one in `update` is).
- **Downcasts:** the `downcast_ref(...).unwrap()` calls in `update_batch` and `merge_batch` are not modelled. The state columns of `merge_batch` arrive as rows of equal-length columns.
- **Panic text:** the text of an index-out-of-bounds panic is shortened to "index out of bounds", and that of a failing `assert_eq!` omits the `left:` / `right:` values Rust prints after it.
- **try_new:** `VarianceAgg.VarianceAccumulator.TryNew` is a constructor, because `try_new` always returns `Ok`.
- **The `step` parameter:** `VarianceAgg.UpdateAll`'s and `VarianceAgg.MergeAll`'s moment arithmetic is the `step` parameter. The model makes no claim about the mean or variance values.
- **Data types:** `DataType` lists the ten supported types and four unsupported ones (`Boolean`, `Utf8`, `Date32`, `Decimal`). The support predicate rejects every type outside the ten in the same way.

## Findings

| source | as written | input that shows it | evidently intended | confidence | as-written member | corrected member |
|---|---|---|---|---|---|---|
| datafusion/src/physical_plan/expressions/variance.rs:424-439 | for the sample statistic the divisor is `count - 1`, and any divisor `<= 1` is rejected, so a sample needs three values | a `Variance` (sample) accumulator that has counted two values: `evaluate` returns "At least two values are needed to calculate variance" | as the message says: at least two values for either statistic; the sample variance of two values is `m2 / 1` | medium, not executed | VarianceAgg.SampleOfTwoRejected | VarianceAgg.EvaluateIntended |
