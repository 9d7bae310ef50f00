/**
 * `ShuffleWriterExec`: writes the batches of one input partition either to a
 * single output (no shuffle partitioning) or hash-partitioned into `n`
 * output partitions, one lazily created writer per output partition, and
 * reports one `ShuffleWritePartition` per writer.
 *
 * The input stream is a sequence of items, each a batch or an error. A batch
 * carries the per-row hashes of its partitioning expressions and its memory
 * size in bytes; the byte size of the sub-batch that `take` extracts for
 * output partition `p` from the `k`-th stream item is `takeSize(k, p)`.
 * What the foreign stream writers (to disk and to Flight) report is passed in
 * as `flushed`: their statistics, or the debug text of their error.
 */
module ShuffleWrite {
  import opened Errors
  import opened ShufflePaths
  import opened ShuffleBuckets

  datatype ExecutorMeta = ExecutorMeta(id: string, host: string, port: nat)

  datatype OutputLocation =
    | LocalDir(workDir: string)
    | Executors(execs: seq<ExecutorMeta>)

  /** The partitioning schemes; the hash expressions are represented only by the row hashes of each batch. */
  datatype Partitioning =
    | RoundRobinBatch(count: nat)
    | Hash(count: nat)
    | UnknownPartitioning(count: nat)

  datatype ShuffleWriterExec = ShuffleWriterExec(
    jobId: string,
    stageId: nat,
    outputLoc: OutputLocation,
    shuffleOutputPartitioning: Option<Partitioning>)

  datatype RecordBatch = RecordBatch(rowHashes: seq<nat>, memorySize: nat)

  datatype StreamItem = Batch(batch: RecordBatch) | StreamError(error: Error)

  /** What a writer is told about one sub-batch it writes. */
  datatype SubBatch = SubBatch(numRows: nat, numBytes: nat)

  /** A local sender is identified by the channel it feeds. */
  type Sender = nat

  datatype WriterKind =
    | FileWriter(path: string)
    | FlightWriter(host: string, port: nat, jobId: string, stageId: nat, partitionId: nat)
    | LocalWriter(sender: Sender)

  /** The three counters every writer keeps. */
  datatype Counters = Counters(numBatches: nat, numRows: nat, numBytes: nat) {
    /** The counters after one more sub-batch. */
    function Plus(sub: SubBatch): Counters {
      Counters(numBatches + 1, numRows + sub.numRows, numBytes + sub.numBytes)
    }
  }

  /** What a writer reports: its path (empty unless it writes a file) and its counters. */
  datatype WriterStats = WriterStats(path: string, numBatches: nat, numRows: nat, numBytes: nat)

  datatype ShuffleWritePartition = ShuffleWritePartition(
    partitionId: nat, path: string, numBatches: nat, numRows: nat, numBytes: nat)

  datatype PartitionStats = PartitionStats(numRows: Option<nat>, numBatches: Option<nat>, numBytes: Option<nat>)

  /** The columns of the metadata batch: partition (UInt32), path, and the stats struct. */
  datatype MetadataBatch = MetadataBatch(
    partition: seq<nat>, path: seq<string>, numRows: seq<nat>, numBatches: seq<nat>, numBytes: seq<nat>)

  /** The panic of a failing `assert_eq!`. */
  const AssertEqFailed := Panic("assertion failed: `(left == right)`")

  const InvalidScheme := Execution("Invalid shuffle partitioning scheme")

  // ---------------------------------------------------------------------
  // Output location classification

  predicate IsPushShuffle(exec: ShuffleWriterExec) {
    match exec.outputLoc
    case LocalDir(_) => false
    case Executors(_) => true
  }

  /** Whether every executor in `execs` has id `selfId`. */
  predicate AllOn(execs: seq<ExecutorMeta>, selfId: string) {
    if |execs| == 0 then true else execs[0].id == selfId && AllOn(execs[1..], selfId)
  }

  lemma {:induction false} AllOnMeansEvery(execs: seq<ExecutorMeta>, selfId: string)
    ensures AllOn(execs, selfId) <==> forall i :: 0 <= i < |execs| ==> execs[i].id == selfId
    decreases |execs|
  {
    if |execs| > 0 {
      AllOnMeansEvery(execs[1..], selfId);
      assert forall i :: 1 <= i < |execs| ==> execs[1..][i - 1] == execs[i];
    }
  }

  predicate IsLocalShuffle(exec: ShuffleWriterExec, selfId: string) {
    match exec.outputLoc
    case LocalDir(_) => false
    case Executors(execs) => AllOn(execs, selfId)
  }

  /** Push shuffle exactly for executor locations; local exactly when every executor is this one. */
  lemma ShuffleClassification(exec: ShuffleWriterExec, selfId: string)
    ensures IsPushShuffle(exec) <==> !exec.outputLoc.LocalDir?
    ensures IsLocalShuffle(exec, selfId)
        <==> exec.outputLoc.Executors? && forall i :: 0 <= i < |exec.outputLoc.execs| ==> exec.outputLoc.execs[i].id == selfId
    ensures IsLocalShuffle(exec, selfId) ==> IsPushShuffle(exec)
    ensures exec.outputLoc == Executors([]) ==> IsLocalShuffle(exec, selfId)
  {
    if exec.outputLoc.Executors? {
      AllOnMeansEvery(exec.outputLoc.execs, selfId);
    }
  }

  // ---------------------------------------------------------------------
  // Writers

  function KindPath(kind: WriterKind): string {
    match kind
    case FileWriter(path) => path
    case FlightWriter(_, _, _, _, _) => ""
    case LocalWriter(_) => ""
  }

  /**
   * A file, Flight or local shuffle writer. The three keep the same
   * counters and update them the same way; the file writer also has a
   * path. Where the batch goes (an IPC file, a channel) is not modelled.
   */
  class ShuffleWriter {
    const kind: WriterKind
    /** The index of the table slot the writer is created for. */
    ghost const slot: nat
    var numBatches: nat
    var numRows: nat
    var numBytes: nat

    constructor (kind: WriterKind, ghost slot: nat)
      ensures this.kind == kind && this.slot == slot
      ensures numBatches == 0 && numRows == 0 && numBytes == 0
    {
      this.kind := kind;
      this.slot := slot;
      numBatches := 0;
      numRows := 0;
      numBytes := 0;
    }

    /** One more batch, its rows and its bytes; the kind of writer is unchanged. */
    method Write(batch: SubBatch)
      modifies this
      ensures numBatches == old(numBatches) + 1
      ensures numRows == old(numRows) + batch.numRows
      ensures numBytes == old(numBytes) + batch.numBytes
      ensures Counts() == old(Counts()).Plus(batch)
    {
      numBatches := numBatches + 1;
      numRows := numRows + batch.numRows;
      numBytes := numBytes + batch.numBytes;
    }

    function Counts(): Counters
      reads this
    {
      Counters(numBatches, numRows, numBytes)
    }

    function Stats(): WriterStats
      reads this
    {
      WriterStats(KindPath(kind), numBatches, numRows, numBytes)
    }
  }

  /** A fresh writer that has written exactly `batches` reports exactly their totals. */
  method WriterCountsBatches(kind: WriterKind, batches: seq<SubBatch>) returns (w: ShuffleWriter)
    ensures fresh(w)
    ensures w.Stats() == WriterStats(KindPath(kind), |batches|, SubRows(batches), SubBytes(batches))
  {
    w := new ShuffleWriter(kind, 0);
    var i := 0;
    while i < |batches|
      invariant 0 <= i <= |batches|
      invariant w.kind == kind
      invariant w.numBatches == i && w.numRows == SubRows(batches[..i]) && w.numBytes == SubBytes(batches[..i])
    {
      assert batches[..i + 1][..i] == batches[..i];
      w.Write(batches[i]);
      i := i + 1;
    }
    assert batches[..i] == batches;
  }

  function SubRows(batches: seq<SubBatch>): nat {
    if |batches| == 0 then 0 else SubRows(batches[..|batches| - 1]) + batches[|batches| - 1].numRows
  }

  function SubBytes(batches: seq<SubBatch>): nat {
    if |batches| == 0 then 0 else SubBytes(batches[..|batches| - 1]) + batches[|batches| - 1].numBytes
  }

  // ---------------------------------------------------------------------
  // Stream totals

  function ItemRows(item: StreamItem): nat {
    if item.Batch? then |item.batch.rowHashes| else 0
  }

  /** Rows over the batches of `items`. */
  function TotalRows(items: seq<StreamItem>): nat {
    if |items| == 0 then 0 else TotalRows(items[..|items| - 1]) + ItemRows(items[|items| - 1])
  }

  /** Memory size over the batches of `items`. */
  function TotalBytes(items: seq<StreamItem>): nat {
    if |items| == 0 then 0
    else TotalBytes(items[..|items| - 1]) + (if items[|items| - 1].Batch? then items[|items| - 1].batch.memorySize else 0)
  }

  function ItemRowsTo(item: StreamItem, n: nat, p: nat): nat
    requires n > 0
  {
    if item.Batch? then |Bucket(item.batch.rowHashes, n, p)| else 0
  }

  /** Rows of `items` whose hash selects output partition `p`. */
  function RowsTo(items: seq<StreamItem>, n: nat, p: nat): nat
    requires n > 0
  {
    if |items| == 0 then 0 else RowsTo(items[..|items| - 1], n, p) + ItemRowsTo(items[|items| - 1], n, p)
  }

  /** Bytes of the sub-batches for output partition `p` taken from the first `k` items. */
  function BytesTo(takeSize: (nat, nat) -> nat, k: nat, p: nat): nat {
    if k == 0 then 0 else BytesTo(takeSize, k - 1, p) + takeSize(k - 1, p)
  }

  function SumRows(parts: seq<ShuffleWritePartition>): nat {
    if |parts| == 0 then 0 else SumRows(parts[..|parts| - 1]) + parts[|parts| - 1].numRows
  }

  // ---------------------------------------------------------------------
  // Failures of the hash-partitioned write

  /**
   * Why creating a writer for an output partition fails: an executor
   * location must name one executor per output partition, and so must the
   * local senders when there are any.
   */
  function CreationFailure(loc: OutputLocation, senders: Option<seq<Sender>>, n: nat): Option<Error> {
    match loc
    case LocalDir(_) => None
    case Executors(execs) =>
      if |execs| != n then Some(AssertEqFailed)
      else if senders.Some? && |senders.value| != n then Some(AssertEqFailed)
      else None
  }

  /** The error one stream item causes: a stream error, a remainder by zero, or a writer that cannot be created. */
  function ItemFailure(loc: OutputLocation, senders: Option<seq<Sender>>, n: nat, item: StreamItem): Option<Error> {
    match item
    case StreamError(e) => Some(e)
    case Batch(b) =>
      if n == 0 then (if |b.rowHashes| > 0 then Some(RemainderByZero) else None)
      else CreationFailure(loc, senders, n)
  }

  /** The first failure among `items[k..]`. */
  function FirstHashFailure(loc: OutputLocation, senders: Option<seq<Sender>>, n: nat, items: seq<StreamItem>, k: nat): Option<Error>
    requires k <= |items|
    decreases |items| - k
  {
    if k == |items| then None
    else if ItemFailure(loc, senders, n, items[k]).Some? then ItemFailure(loc, senders, n, items[k])
    else FirstHashFailure(loc, senders, n, items, k + 1)
  }

  /** An item that causes no failure passes the search on to the next one. */
  lemma FirstHashFailureSkip(loc: OutputLocation, senders: Option<seq<Sender>>, n: nat, items: seq<StreamItem>, k: nat)
    requires k < |items| && ItemFailure(loc, senders, n, items[k]).None?
    ensures FirstHashFailure(loc, senders, n, items, k) == FirstHashFailure(loc, senders, n, items, k + 1)
  {
  }

  /** The writer created for output partition `p`. */
  function WriterKindFor(exec: ShuffleWriterExec, inputPartition: nat, senders: Option<seq<Sender>>, n: nat, p: nat): (r: Result<WriterKind>)
    requires p < n
    ensures r.Err? <==> CreationFailure(exec.outputLoc, senders, n).Some?
    ensures r.Err? ==> Some(r.error) == CreationFailure(exec.outputLoc, senders, n)
    ensures r.Ok? && exec.outputLoc.LocalDir? ==>
      r.value == FileWriter(HashFilePath(exec.outputLoc.workDir, exec.jobId, exec.stageId, p, inputPartition))
    ensures r.Ok? && exec.outputLoc.Executors? ==> (r.value.LocalWriter? <==> senders.Some?)
    ensures r.Ok? && exec.outputLoc.Executors? && senders.Some? ==>
      p < |senders.value| && r.value == LocalWriter(senders.value[p])
    ensures r.Ok? && exec.outputLoc.Executors? && senders.None? ==>
      p < |exec.outputLoc.execs| &&
      r.value == FlightWriter(exec.outputLoc.execs[p].host, exec.outputLoc.execs[p].port, exec.jobId, exec.stageId, p)
  {
    match exec.outputLoc
    case LocalDir(workDir) => Ok(FileWriter(HashFilePath(workDir, exec.jobId, exec.stageId, p, inputPartition)))
    case Executors(execs) =>
      if |execs| != n then Err(AssertEqFailed)
      else match senders
        case Some(s) => if |s| != n then Err(AssertEqFailed) else Ok(LocalWriter(s[p]))
        case None => Ok(FlightWriter(execs[p].host, execs[p].port, exec.jobId, exec.stageId, p))
  }

  // ---------------------------------------------------------------------
  // Result of the hash-partitioned write

  /** The writer table once `items` have been written: empty before the first batch, then one writer per partition. */
  function HashSlots(exec: ShuffleWriterExec, inputPartition: nat, senders: Option<seq<Sender>>, n: nat,
                     items: seq<StreamItem>, takeSize: (nat, nat) -> nat): (slots: seq<Option<WriterStats>>)
    requires |items| > 0 && n > 0 ==> CreationFailure(exec.outputLoc, senders, n).None?
    ensures |slots| == n
  {
    if |items| == 0 then
      seq(n, _ => None)
    else
      seq(n, p requires 0 <= p < n =>
        Some(WriterStats(KindPath(WriterKindFor(exec, inputPartition, senders, n, p).value),
                         |items|, RowsTo(items, n, p), BytesTo(takeSize, |items|, p))))
  }

  function FromStats(id: nat, s: WriterStats): ShuffleWritePartition {
    ShuffleWritePartition(id, s.path, s.numBatches, s.numRows, s.numBytes)
  }

  /** One record per occupied slot, in slot order. */
  function PartitionsFromSlots(slots: seq<Option<WriterStats>>): seq<ShuffleWritePartition> {
    if |slots| == 0 then []
    else
      var rest := PartitionsFromSlots(slots[..|slots| - 1]);
      match slots[|slots| - 1]
      case None => rest
      case Some(s) => rest + [FromStats(|slots| - 1, s)]
  }

  /** Exactly the occupied slots, each once, in ascending partition order, stats copied. */
  lemma {:induction false} PartitionsFromSlotsContents(slots: seq<Option<WriterStats>>)
    ensures var r := PartitionsFromSlots(slots);
      (forall k :: 0 <= k < |r| ==>
         r[k].partitionId < |slots| && slots[r[k].partitionId].Some?
         && r[k] == FromStats(r[k].partitionId, slots[r[k].partitionId].value))
      && (forall k, l :: 0 <= k < l < |r| ==> r[k].partitionId < r[l].partitionId)
      && (forall p :: 0 <= p < |slots| && slots[p].Some? ==> exists k :: 0 <= k < |r| && r[k].partitionId == p)
    decreases |slots|
  {
    if |slots| > 0 {
      var init := slots[..|slots| - 1];
      PartitionsFromSlotsContents(init);
      assert forall p :: 0 <= p < |init| ==> init[p] == slots[p];
      var rest := PartitionsFromSlots(init);
      var r := PartitionsFromSlots(slots);
      if slots[|slots| - 1].Some? {
        assert r == rest + [FromStats(|slots| - 1, slots[|slots| - 1].value)];
        assert r[|rest|].partitionId == |slots| - 1;
        forall p | 0 <= p < |slots| && slots[p].Some?
          ensures exists k :: 0 <= k < |r| && r[k].partitionId == p
        {
          if p < |init| {
            var k :| 0 <= k < |rest| && rest[k].partitionId == p;
            assert r[k] == rest[k];
          } else {
            assert r[|rest|].partitionId == p;
          }
        }
      }
    }
  }

  lemma {:induction false} AllOccupiedSlots(slots: seq<Option<WriterStats>>)
    requires forall p :: 0 <= p < |slots| ==> slots[p].Some?
    ensures var r := PartitionsFromSlots(slots);
      |r| == |slots| && forall p :: 0 <= p < |slots| ==> r[p] == FromStats(p, slots[p].value)
    decreases |slots|
  {
    if |slots| > 0 {
      var init := slots[..|slots| - 1];
      assert forall p :: 0 <= p < |init| ==> init[p] == slots[p];
      AllOccupiedSlots(init);
    }
  }

  lemma {:induction false} NoOccupiedSlots(slots: seq<Option<WriterStats>>)
    requires forall p :: 0 <= p < |slots| ==> slots[p].None?
    ensures PartitionsFromSlots(slots) == []
    decreases |slots|
  {
    if |slots| > 0 {
      var init := slots[..|slots| - 1];
      assert forall p :: 0 <= p < |init| ==> init[p] == slots[p];
      NoOccupiedSlots(init);
    }
  }

  function HashPartitionedResult(exec: ShuffleWriterExec, n: nat, inputPartition: nat, stream: seq<StreamItem>,
                                 senders: Option<seq<Sender>>, takeSize: (nat, nat) -> nat): Result<seq<ShuffleWritePartition>>
  {
    match FirstHashFailure(exec.outputLoc, senders, n, stream, 0)
    case Some(e) => Err(e)
    case None => Ok(PartitionsFromSlots(HashSlots(exec, inputPartition, senders, n, stream, takeSize)))
  }

  /**
   * Shape of the hash-partitioned result: empty for an empty stream,
   * otherwise one record per output partition in order, each with every
   * batch counted once (empty sub-batches are written too).
   */
  lemma HashResultShape(exec: ShuffleWriterExec, n: nat, inputPartition: nat, stream: seq<StreamItem>,
                        senders: Option<seq<Sender>>, takeSize: (nat, nat) -> nat)
    requires HashPartitionedResult(exec, n, inputPartition, stream, senders, takeSize).Ok?
    ensures var parts := HashPartitionedResult(exec, n, inputPartition, stream, senders, takeSize).value;
      (|stream| == 0 ==> parts == [])
      && (|stream| > 0 ==>
            |parts| == n
            && forall p :: 0 <= p < n ==>
                 parts[p].partitionId == p && parts[p].numBatches == |stream|
                 && parts[p].numRows == RowsTo(stream, n, p) && parts[p].numBytes == BytesTo(takeSize, |stream|, p)
                 && parts[p].path == KindPath(WriterKindFor(exec, inputPartition, senders, n, p).value))
  {
    var slots := HashSlots(exec, inputPartition, senders, n, stream, takeSize);
    if |stream| == 0 {
      NoOccupiedSlots(slots);
    } else {
      AllOccupiedSlots(slots);
    }
  }

  /** With no failure, stream errors are absent and zero partitions means empty batches only. */
  lemma {:induction false} NoFailureFrom(loc: OutputLocation, senders: Option<seq<Sender>>, n: nat, items: seq<StreamItem>, k: nat)
    requires k <= |items|
    requires FirstHashFailure(loc, senders, n, items, k).None?
    ensures forall j :: k <= j < |items| ==> items[j].Batch? && (n == 0 ==> |items[j].batch.rowHashes| == 0)
    decreases |items| - k
  {
    if k < |items| {
      NoFailureFrom(loc, senders, n, items, k + 1);
    }
  }

  lemma {:induction false} RowsOfEmptyBatches(items: seq<StreamItem>)
    requires forall j :: 0 <= j < |items| ==> ItemRows(items[j]) == 0
    ensures TotalRows(items) == 0
    decreases |items|
  {
    if |items| > 0 {
      RowsOfEmptyBatches(items[..|items| - 1]);
    }
  }

  /** The rows sent to partitions `0 .. k-1`. */
  function RowsToFirst(items: seq<StreamItem>, n: nat, k: nat): nat
    requires n > 0
  {
    if k == 0 then 0 else RowsToFirst(items, n, k - 1) + RowsTo(items, n, k - 1)
  }

  lemma {:induction false} RowsToFirstStep(items: seq<StreamItem>, n: nat, k: nat)
    requires n > 0 && |items| > 0
    ensures RowsToFirst(items, n, k) == RowsToFirst(items[..|items| - 1], n, k)
      + (if items[|items| - 1].Batch? then SumBucketSizes(items[|items| - 1].batch.rowHashes, n, k) else 0)
  {
    if k > 0 {
      RowsToFirstStep(items, n, k - 1);
    }
  }

  lemma {:induction false} RowsToFirstOfEmpty(n: nat, k: nat)
    requires n > 0
    ensures RowsToFirst([], n, k) == 0
  {
    if k > 0 {
      RowsToFirstOfEmpty(n, k - 1);
    }
  }

  /** Every row of the stream goes to exactly one of the `n` output partitions. */
  lemma {:induction false} RowsToAllPartitions(items: seq<StreamItem>, n: nat)
    requires n > 0
    ensures RowsToFirst(items, n, n) == TotalRows(items)
    decreases |items|
  {
    if |items| == 0 {
      RowsToFirstOfEmpty(n, n);
    } else {
      RowsToFirstStep(items, n, n);
      RowsToAllPartitions(items[..|items| - 1], n);
      if items[|items| - 1].Batch? {
        BucketsConserveRows(items[|items| - 1].batch.rowHashes, n);
      }
    }
  }

  lemma {:induction false} SumRowsOfPartitions(n: nat, stream: seq<StreamItem>, parts: seq<ShuffleWritePartition>, k: nat)
    requires n > 0 && k <= |parts| == n
    requires forall p :: 0 <= p < n ==> parts[p].numRows == RowsTo(stream, n, p)
    ensures SumRows(parts[..k]) == RowsToFirst(stream, n, k)
  {
    if k > 0 {
      assert parts[..k][..k - 1] == parts[..k - 1];
      SumRowsOfPartitions(n, stream, parts, k - 1);
    }
  }

  /** Conservation: the rows of the returned partitions add up to the rows of the input stream. */
  lemma HashWriteConservesRows(exec: ShuffleWriterExec, n: nat, inputPartition: nat, stream: seq<StreamItem>,
                               senders: Option<seq<Sender>>, takeSize: (nat, nat) -> nat)
    requires HashPartitionedResult(exec, n, inputPartition, stream, senders, takeSize).Ok?
    ensures SumRows(HashPartitionedResult(exec, n, inputPartition, stream, senders, takeSize).value) == TotalRows(stream)
  {
    var parts := HashPartitionedResult(exec, n, inputPartition, stream, senders, takeSize).value;
    HashResultShape(exec, n, inputPartition, stream, senders, takeSize);
    NoFailureFrom(exec.outputLoc, senders, n, stream, 0);
    if |stream| == 0 {
    } else if n == 0 {
      RowsOfEmptyBatches(stream);
    } else {
      SumRowsOfPartitions(n, stream, parts, n);
      assert parts[..n] == parts;
      RowsToAllPartitions(stream, n);
    }
  }

  // ---------------------------------------------------------------------
  // Result of the unpartitioned write

  function PartitionFromStats(id: nat, path: string, stats: PartitionStats): ShuffleWritePartition {
    ShuffleWritePartition(id, path, stats.numBatches.GetOr(0), stats.numRows.GetOr(0), stats.numBytes.GetOr(0))
  }

  /** The first stream error among `items[k..]`. */
  function FirstStreamError(items: seq<StreamItem>, k: nat): Option<Error>
    requires k <= |items|
    decreases |items| - k
  {
    if k == |items| then None
    else if items[k].StreamError? then Some(items[k].error)
    else FirstStreamError(items, k + 1)
  }

  /**
   * What a foreign stream writer (`write_stream_to_disk`, `write_stream_to_flight`)
   * reports: its statistics, or the `{:?}` text of the error it failed with.
   */
  datatype FlushOutcome = Flushed(stats: PartitionStats) | FlushFailed(debugText: string)

  function UnpartitionedResult(exec: ShuffleWriterExec, inputPartition: nat, stream: seq<StreamItem>,
                               senders: Option<seq<Sender>>, flushed: FlushOutcome): Result<seq<ShuffleWritePartition>>
  {
    match exec.outputLoc
    case LocalDir(workDir) =>
      if flushed.FlushFailed? then Err(Execution(flushed.debugText))
      else Ok([PartitionFromStats(inputPartition, UnpartitionedPath(workDir, exec.jobId, exec.stageId, inputPartition), flushed.stats)])
    case Executors(execs) =>
      if |execs| != 1 then Err(AssertEqFailed)
      else match senders
        case Some(s) =>
          if |s| != 1 then Err(AssertEqFailed)
          else if FirstStreamError(stream, 0).Some? then Err(FirstStreamError(stream, 0).value)
          else Ok([ShuffleWritePartition(inputPartition, "", |stream|, TotalRows(stream), TotalBytes(stream))])
        case None =>
          if flushed.FlushFailed? then Err(Execution(flushed.debugText))
          else Ok([PartitionFromStats(inputPartition, "", flushed.stats)])
  }

  /** A single record for the input partition; missing statistics default to 0. */
  lemma UnpartitionedSingleEntry(exec: ShuffleWriterExec, inputPartition: nat, stream: seq<StreamItem>,
                                 senders: Option<seq<Sender>>, flushed: FlushOutcome)
    requires UnpartitionedResult(exec, inputPartition, stream, senders, flushed).Ok?
    ensures var parts := UnpartitionedResult(exec, inputPartition, stream, senders, flushed).value;
      |parts| == 1 && parts[0].partitionId == inputPartition
      && (exec.outputLoc.LocalDir? ==>
            parts[0].path == UnpartitionedPath(exec.outputLoc.workDir, exec.jobId, exec.stageId, inputPartition))
      && (exec.outputLoc.Executors? ==> parts[0].path == "")
      && (exec.outputLoc.Executors? && senders.Some? ==> FirstStreamError(stream, 0).None? && parts[0].numRows == TotalRows(stream))
      && (!(exec.outputLoc.Executors? && senders.Some?) ==>
            flushed.Flushed? && (flushed.stats.numRows.None? ==> parts[0].numRows == 0)
            && (flushed.stats.numBatches.None? ==> parts[0].numBatches == 0)
            && (flushed.stats.numBytes.None? ==> parts[0].numBytes == 0))
  {
  }

  /** A failing stream writer's error comes back as an execution error carrying its debug text. */
  lemma UnpartitionedFlushFailure(exec: ShuffleWriterExec, inputPartition: nat, stream: seq<StreamItem>,
                                  senders: Option<seq<Sender>>, flushed: FlushOutcome)
    requires flushed.FlushFailed?
    requires exec.outputLoc.LocalDir? || (|exec.outputLoc.execs| == 1 && senders.None?)
    ensures UnpartitionedResult(exec, inputPartition, stream, senders, flushed) == Err(Execution(flushed.debugText))
  {
  }

  // ---------------------------------------------------------------------
  // The whole write

  function ExpectedShuffleWrite(exec: ShuffleWriterExec, inputPartition: nat, stream: seq<StreamItem>,
                                senders: Option<seq<Sender>>, takeSize: (nat, nat) -> nat,
                                flushed: FlushOutcome): Result<seq<ShuffleWritePartition>>
  {
    match exec.shuffleOutputPartitioning
    case None => UnpartitionedResult(exec, inputPartition, stream, senders, flushed)
    case Some(Hash(n)) => HashPartitionedResult(exec, n, inputPartition, stream, senders, takeSize)
    case Some(_) => Err(InvalidScheme)
  }

  /** Only no partitioning and hash partitioning are accepted. */
  lemma OtherSchemesRejected(exec: ShuffleWriterExec, inputPartition: nat, stream: seq<StreamItem>,
                             senders: Option<seq<Sender>>, takeSize: (nat, nat) -> nat, flushed: FlushOutcome)
    requires exec.shuffleOutputPartitioning.Some? && !exec.shuffleOutputPartitioning.value.Hash?
    ensures ExpectedShuffleWrite(exec, inputPartition, stream, senders, takeSize, flushed) == Err(InvalidScheme)
  {
  }

  /**
   * An executor location must list one executor per output partition: `n`
   * of them when hash partitioning (checked once the first batch arrives),
   * exactly one otherwise.
   */
  lemma ExecutorCountChecked(exec: ShuffleWriterExec, inputPartition: nat, stream: seq<StreamItem>,
                             senders: Option<seq<Sender>>, takeSize: (nat, nat) -> nat, flushed: FlushOutcome)
    requires exec.outputLoc.Executors?
    ensures exec.shuffleOutputPartitioning.None? && |exec.outputLoc.execs| != 1 ==>
      ExpectedShuffleWrite(exec, inputPartition, stream, senders, takeSize, flushed) == Err(AssertEqFailed)
    ensures (exec.shuffleOutputPartitioning.Some? && exec.shuffleOutputPartitioning.value.Hash?
             && exec.shuffleOutputPartitioning.value.count > 0
             && |exec.outputLoc.execs| != exec.shuffleOutputPartitioning.value.count
             && |stream| > 0 && stream[0].Batch?) ==>
      ExpectedShuffleWrite(exec, inputPartition, stream, senders, takeSize, flushed) == Err(AssertEqFailed)
  {
  }

  /** Drains the stream into the one local sender, counting what it forwards. */
  method DrainToLocalSender(stream: seq<StreamItem>) returns (r: Result<PartitionStats>)
    ensures FirstStreamError(stream, 0).Some? ==> r == Err(FirstStreamError(stream, 0).value)
    ensures FirstStreamError(stream, 0).None? ==>
      r == Ok(PartitionStats(Some(TotalRows(stream)), Some(|stream|), Some(TotalBytes(stream))))
  {
    var numRows, numBatches, numBytes := 0, 0, 0;
    var k := 0;
    while k < |stream|
      invariant 0 <= k <= |stream|
      invariant FirstStreamError(stream, 0) == FirstStreamError(stream, k)
      invariant numBatches == k && numRows == TotalRows(stream[..k]) && numBytes == TotalBytes(stream[..k])
    {
      assert stream[..k + 1][..k] == stream[..k];
      match stream[k] {
        case StreamError(e) =>
          return Err(e);
        case Batch(b) =>
          numBatches := numBatches + 1;
          numRows := numRows + |b.rowHashes|;
          numBytes := numBytes + b.memorySize;
      }
      k := k + 1;
    }
    assert stream[..k] == stream;
    r := Ok(PartitionStats(Some(numRows), Some(numBatches), Some(numBytes)));
  }

  /** The write with no shuffle partitioning: one output for the whole input partition. */
  method WriteUnpartitioned(exec: ShuffleWriterExec, inputPartition: nat, stream: seq<StreamItem>,
                            localSenders: Option<seq<Sender>>, flushed: FlushOutcome)
    returns (r: Result<seq<ShuffleWritePartition>>, inputRows: nat, outputRows: nat)
    ensures r == UnpartitionedResult(exec, inputPartition, stream, localSenders, flushed)
    ensures r.Ok? ==> inputRows == outputRows == SumRows(r.value)
  {
    inputRows, outputRows := 0, 0;
    var stats: PartitionStats;
    var path: string;
    match exec.outputLoc {
      case LocalDir(workDir) =>
        path := UnpartitionedPath(workDir, exec.jobId, exec.stageId, inputPartition);
        if flushed.FlushFailed? {
          return Err(Execution(flushed.debugText)), 0, 0;
        }
        stats := flushed.stats;
      case Executors(execs) =>
        if |execs| != 1 {
          return Err(AssertEqFailed), 0, 0;
        }
        path := "";
        match localSenders {
          case Some(senders) =>
            if |senders| != 1 {
              return Err(AssertEqFailed), 0, 0;
            }
            var drained := DrainToLocalSender(stream);
            if drained.Err? {
              return Err(drained.error), 0, 0;
            }
            stats := drained.value;
          case None =>
            if flushed.FlushFailed? {
              return Err(Execution(flushed.debugText)), 0, 0;
            }
            stats := flushed.stats;
        }
    }
    inputRows := stats.numRows.GetOr(0);
    outputRows := stats.numRows.GetOr(0);
    r := Ok([PartitionFromStats(inputPartition, path, stats)]);
    assert [PartitionFromStats(inputPartition, path, stats)][..0] == [];
  }

  /** The final loop: one record per writer present, in slot order. */
  method CollectPartitions(writers: array<Option<ShuffleWriter>>, ghost slots: seq<Option<WriterStats>>)
    returns (parts: seq<ShuffleWritePartition>)
    requires writers.Length == |slots|
    requires forall q :: 0 <= q < |slots| ==>
      (writers[q].Some? <==> slots[q].Some?) && (writers[q].Some? ==> writers[q].value.Stats() == slots[q].value)
    ensures parts == PartitionsFromSlots(slots)
  {
    parts := [];
    var i := 0;
    while i < writers.Length
      invariant 0 <= i <= writers.Length
      invariant parts == PartitionsFromSlots(slots[..i])
    {
      assert slots[..i + 1][..i] == slots[..i];
      if writers[i].Some? {
        parts := parts + [FromStats(i, writers[i].value.Stats())];
      }
      i := i + 1;
    }
    assert slots[..i] == slots;
  }

  /** The counters of the writer for partition `q` after the first `k` items. */
  function Expected(n: nat, stream: seq<StreamItem>, takeSize: (nat, nat) -> nat, q: nat, k: nat): Counters
    requires n > 0 && k <= |stream|
  {
    Counters(k, RowsTo(stream[..k], n, q), BytesTo(takeSize, k, q))
  }

  /** Writing the sub-batch of item `k` to writer `q` moves its counters from `Expected(.., k)` to `Expected(.., k + 1)`. */
  lemma ExpectedStep(n: nat, stream: seq<StreamItem>, takeSize: (nat, nat) -> nat, q: nat, k: nat)
    requires n > 0 && k < |stream| && stream[k].Batch?
    ensures Expected(n, stream, takeSize, q, k + 1)
      == Expected(n, stream, takeSize, q, k).Plus(SubBatch(|Bucket(stream[k].batch.rowHashes, n, q)|, takeSize(k, q)))
    ensures k == 0 ==> Expected(n, stream, takeSize, q, k) == Counters(0, 0, 0)
  {
    assert stream[..k + 1][..k] == stream[..k];
  }

  /** After the first batch, writer `q` has counted one sub-batch: bucket `q` of that batch. */
  lemma FirstBatchCounters(n: nat, stream: seq<StreamItem>, takeSize: (nat, nat) -> nat, indices: seq<seq<nat>>)
    requires n > 0 && 0 < |stream| && stream[0].Batch?
    requires |indices| == n && forall p :: 0 <= p < n ==> indices[p] == Bucket(stream[0].batch.rowHashes, n, p)
    ensures forall q :: 0 <= q < n ==> Expected(n, stream, takeSize, q, 1) == Counters(1, |indices[q]|, takeSize(0, q))
  {
    forall q | 0 <= q < n
      ensures Expected(n, stream, takeSize, q, 1) == Counters(1, |indices[q]|, takeSize(0, q))
    {
      ExpectedStep(n, stream, takeSize, q, 0);
    }
  }

  /** The writer objects in the table. */
  function WriterObjects(writers: array<Option<ShuffleWriter>>): set<ShuffleWriter>
    reads writers
  {
    set q | 0 <= q < writers.Length && writers[q].Some? :: writers[q].value
  }

  /** `kinds[q]` is the kind of writer created for output partition `q`, when creation succeeds. */
  predicate KindsOf(exec: ShuffleWriterExec, inputPartition: nat, senders: Option<seq<Sender>>, n: nat, kinds: seq<WriterKind>)
    requires |kinds| == n
  {
    forall q {:trigger WriterKindFor(exec, inputPartition, senders, n, q)} ::
      0 <= q < n && CreationFailure(exec.outputLoc, senders, n).None? ==>
        WriterKindFor(exec, inputPartition, senders, n, q) == Ok(kinds[q])
  }

  /** The kind of writer created for each output partition, when creation succeeds. */
  function Kinds(exec: ShuffleWriterExec, inputPartition: nat, senders: Option<seq<Sender>>, n: nat): (kinds: seq<WriterKind>)
    ensures |kinds| == n && KindsOf(exec, inputPartition, senders, n, kinds)
  {
    seq(n, q requires 0 <= q < n =>
      var kind := WriterKindFor(exec, inputPartition, senders, n, q);
      if kind.Ok? then kind.value else LocalWriter(0))
  }

  /** Creates the writer for output partition `p` and writes the first sub-batch to it. */
  method CreateWriter(exec: ShuffleWriterExec, inputPartition: nat, localSenders: Option<seq<Sender>>, n: nat, p: nat,
                      sub: SubBatch, ghost kinds: seq<WriterKind>)
    returns (r: Result<ShuffleWriter>)
    requires p < n && |kinds| == n
    requires KindsOf(exec, inputPartition, localSenders, n, kinds)
    ensures r.Err? <==> CreationFailure(exec.outputLoc, localSenders, n).Some?
    ensures r.Err? ==> Some(r.error) == CreationFailure(exec.outputLoc, localSenders, n)
    ensures r.Ok? ==>
      fresh(r.value) && r.value.slot == p && r.value.kind == kinds[p]
      && r.value.Counts() == Counters(0, 0, 0).Plus(sub)
  {
    var kind := WriterKindFor(exec, inputPartition, localSenders, n, p);
    if kind.Err? {
      return Err(kind.error);
    }
    var w := new ShuffleWriter(kind.value, p);
    w.Write(sub);
    r := Ok(w);
  }

  /**
   * The per-partition loop for a batch after the first: every slot holds a
   * writer, and sub-batch `p` is written to writer `p`. Returns the rows
   * written.
   */
  method WriteToWriters(n: nat, stream: seq<StreamItem>, takeSize: (nat, nat) -> nat, k: nat, indices: seq<seq<nat>>,
                        writers: array<Option<ShuffleWriter>>, ghost objs: set<ShuffleWriter>)
    returns (written: nat)
    requires n > 0 && writers.Length == n && k < |stream| && stream[k].Batch?
    requires |indices| == n && forall p :: 0 <= p < n ==> indices[p] == Bucket(stream[k].batch.rowHashes, n, p)
    requires forall q :: 0 <= q < n ==>
      writers[q].Some? && writers[q].value.slot == q && writers[q].value in objs
      && writers[q].value.Counts() == Expected(n, stream, takeSize, q, k)
    modifies objs
    ensures written == SumSizes(indices)
    ensures forall q :: 0 <= q < n ==> writers[q].value.Counts() == Expected(n, stream, takeSize, q, k + 1)
  {
    written := 0;
    var p := 0;
    while p < n
      invariant 0 <= p <= n
      invariant written == SumSizes(indices[..p])
      invariant forall q :: 0 <= q < p ==> writers[q].value.Counts() == Expected(n, stream, takeSize, q, k + 1)
      invariant forall q :: p <= q < n ==> writers[q].value.Counts() == Expected(n, stream, takeSize, q, k)
    {
      ExpectedStep(n, stream, takeSize, p, k);
      var sub := SubBatch(|indices[p]|, takeSize(k, p));
      writers[p].value.Write(sub);
      assert indices[..p + 1][..p] == indices[..p];
      written := written + sub.numRows;
      p := p + 1;
    }
    assert indices[..n] == indices;
  }

  /**
   * The per-partition loop for the first batch: every slot is empty, so
   * writer `p` is created, given sub-batch `p` and stored in slot `p`.
   * Returns the rows written, or the creation failure.
   */
  method CreateWriters(exec: ShuffleWriterExec, n: nat, inputPartition: nat, localSenders: Option<seq<Sender>>,
                       takeSize: (nat, nat) -> nat, indices: seq<seq<nat>>,
                       writers: array<Option<ShuffleWriter>>, ghost kinds: seq<WriterKind>)
    returns (failure: Option<Error>, written: nat)
    requires n > 0 && writers.Length == n && |kinds| == n
    requires KindsOf(exec, inputPartition, localSenders, n, kinds)
    requires |indices| == n
    requires forall q :: 0 <= q < n ==> writers[q].None?
    modifies writers
    ensures failure.Some? ==> failure == CreationFailure(exec.outputLoc, localSenders, n)
    ensures failure.None? ==>
      CreationFailure(exec.outputLoc, localSenders, n).None? && written == SumSizes(indices)
      && forall q :: 0 <= q < n ==>
           writers[q].Some? && fresh(writers[q].value) && writers[q].value.slot == q
           && writers[q].value.kind == kinds[q]
           && writers[q].value.Counts() == Counters(1, |indices[q]|, takeSize(0, q))
  {
    written := 0;
    var p := 0;
    ghost var made: seq<ShuffleWriter> := [];
    while p < n
      invariant 0 <= p <= n && |made| == p
      invariant p > 0 ==> CreationFailure(exec.outputLoc, localSenders, n).None?
      invariant written == SumSizes(indices[..p])
      invariant forall q :: 0 <= q < p ==> writers[q] == Some(made[q])
      invariant forall q :: 0 <= q < p ==>
        fresh(made[q]) && made[q].slot == q && made[q].kind == kinds[q]
        && made[q].Counts() == Counters(1, |indices[q]|, takeSize(0, q))
      invariant forall q :: p <= q < n ==> writers[q].None?
    {
      var sub := SubBatch(|indices[p]|, takeSize(0, p));
      var created := CreateWriter(exec, inputPartition, localSenders, n, p, sub, kinds);
      if created.Err? {
        return Some(created.error), written;
      }
      writers[p] := Some(created.value);
      made := made + [created.value];
      assert indices[..p + 1][..p] == indices[..p];
      written := written + sub.numRows;
      p := p + 1;
    }
    assert indices[..n] == indices;
    failure := None;
  }

  /**
   * The loop over the input stream of the hash-partitioned write: bucket
   * each batch and write sub-batch `p` to writer `p`, creating the writers
   * on the first batch. Stops at the first failure.
   */
  method WriteBatches(exec: ShuffleWriterExec, n: nat, inputPartition: nat, stream: seq<StreamItem>,
                      localSenders: Option<seq<Sender>>, takeSize: (nat, nat) -> nat, ghost kinds: seq<WriterKind>)
    returns (failure: Option<Error>, writers: array<Option<ShuffleWriter>>, inputRows: nat, outputRows: nat)
    requires |kinds| == n && KindsOf(exec, inputPartition, localSenders, n, kinds)
    ensures failure == FirstHashFailure(exec.outputLoc, localSenders, n, stream, 0)
    ensures writers.Length == n
    ensures failure.None? ==>
      inputRows == outputRows == TotalRows(stream)
      && (|stream| > 0 && n > 0 ==> CreationFailure(exec.outputLoc, localSenders, n).None?)
      && forall q :: 0 <= q < n ==>
           (writers[q].Some? <==> |stream| > 0)
           && (writers[q].Some? ==>
                 writers[q].value.kind == kinds[q]
                 && writers[q].value.Counts() == Expected(n, stream, takeSize, q, |stream|))
  {
    var loc := exec.outputLoc;
    writers := new Option<ShuffleWriter>[n](_ => None);
    inputRows, outputRows := 0, 0;
    var k := 0;
    while k < |stream|
      invariant 0 <= k <= |stream|
      invariant FirstHashFailure(loc, localSenders, n, stream, 0) == FirstHashFailure(loc, localSenders, n, stream, k)
      invariant k > 0 && n > 0 ==> CreationFailure(loc, localSenders, n).None?
      invariant inputRows == TotalRows(stream[..k]) && outputRows == inputRows
      invariant writers.Length == n
      invariant forall q :: 0 <= q < n ==> (writers[q].Some? <==> k > 0)
      invariant forall q :: 0 <= q < n && writers[q].Some? ==>
        fresh(writers[q].value) && writers[q].value.slot == q && writers[q].value.kind == kinds[q]
        && writers[q].value.Counts() == Expected(n, stream, takeSize, q, k)
    {
      assert stream[..k + 1][..k] == stream[..k];
      if stream[k].StreamError? {
        return Some(stream[k].error), writers, inputRows, outputRows;
      }
      var hashes := stream[k].batch.rowHashes;
      inputRows := inputRows + |hashes|;
      var bucketed := BucketIndices(hashes, n);
      if bucketed.Err? {
        return Some(bucketed.error), writers, inputRows, outputRows;
      }
      if n > 0 {
        var written;
        if writers[0].Some? {
          written := WriteToWriters(n, stream, takeSize, k, bucketed.value, writers, WriterObjects(writers));
        } else {
          var created;
          created, written := CreateWriters(exec, n, inputPartition, localSenders, takeSize, bucketed.value, writers, kinds);
          if created.Some? {
            return created, writers, inputRows, outputRows;
          }
          FirstBatchCounters(n, stream, takeSize, bucketed.value);
        }
        BucketListsConserveRows(hashes, n, bucketed.value);
        outputRows := outputRows + written;
      }
      FirstHashFailureSkip(loc, localSenders, n, stream, k);
      k := k + 1;
    }
    assert stream[..k] == stream;
    failure := None;
  }

  /**
   * The hash-partitioned write: write the stream, then report one record
   * per writer in partition order.
   */
  method WriteHashPartitioned(exec: ShuffleWriterExec, n: nat, inputPartition: nat, stream: seq<StreamItem>,
                              localSenders: Option<seq<Sender>>, takeSize: (nat, nat) -> nat)
    returns (r: Result<seq<ShuffleWritePartition>>, inputRows: nat, outputRows: nat)
    ensures r == HashPartitionedResult(exec, n, inputPartition, stream, localSenders, takeSize)
    ensures r.Ok? ==> inputRows == outputRows == TotalRows(stream)
  {
    ghost var kinds := Kinds(exec, inputPartition, localSenders, n);
    var failure, writers;
    failure, writers, inputRows, outputRows := WriteBatches(exec, n, inputPartition, stream, localSenders, takeSize, kinds);
    if failure.Some? {
      return Err(failure.value), inputRows, outputRows;
    }
    assert stream[..|stream|] == stream;
    ghost var slots := HashSlots(exec, inputPartition, localSenders, n, stream, takeSize);
    var parts := CollectPartitions(writers, slots);
    r := Ok(parts);
  }

  /** `execute_shuffle_write`: dispatch on the shuffle partitioning. */
  method ExecuteShuffleWrite(exec: ShuffleWriterExec, inputPartition: nat, stream: seq<StreamItem>,
                             localSenders: Option<seq<Sender>>, takeSize: (nat, nat) -> nat,
                             flushed: FlushOutcome)
    returns (r: Result<seq<ShuffleWritePartition>>, inputRows: nat, outputRows: nat)
    ensures r == ExpectedShuffleWrite(exec, inputPartition, stream, localSenders, takeSize, flushed)
    ensures r.Ok? ==> inputRows == outputRows == SumRows(r.value)
  {
    match exec.shuffleOutputPartitioning {
      case None =>
        r, inputRows, outputRows := WriteUnpartitioned(exec, inputPartition, stream, localSenders, flushed);
      case Some(partitioning) =>
        if partitioning.Hash? {
          r, inputRows, outputRows := WriteHashPartitioned(exec, partitioning.count, inputPartition, stream, localSenders, takeSize);
          if r.Ok? {
            HashWriteConservesRows(exec, partitioning.count, inputPartition, stream, localSenders, takeSize);
          }
        } else {
          r, inputRows, outputRows := Err(InvalidScheme), 0, 0;
        }
    }
  }

  // ---------------------------------------------------------------------
  // The metadata batch returned by `execute`

  /** Reads the records back from the metadata columns. */
  function PartitionsOfMetadata(m: MetadataBatch): seq<ShuffleWritePartition>
    requires |m.path| == |m.partition| && |m.numRows| == |m.partition|
    requires |m.numBatches| == |m.partition| && |m.numBytes| == |m.partition|
  {
    seq(|m.partition|, i requires 0 <= i < |m.partition| =>
      ShuffleWritePartition(m.partition[i], m.path[i], m.numBatches[i], m.numRows[i], m.numBytes[i]))
  }

  /** One metadata row per record; the partition id is narrowed to 32 bits. */
  method BuildMetadata(parts: seq<ShuffleWritePartition>) returns (m: MetadataBatch)
    ensures |m.partition| == |parts| && |m.path| == |parts| && |m.numRows| == |parts|
    ensures |m.numBatches| == |parts| && |m.numBytes| == |parts|
    ensures forall i :: 0 <= i < |parts| ==>
      m.partition[i] == parts[i].partitionId % 0x1_0000_0000 && m.path[i] == parts[i].path
      && m.numRows[i] == parts[i].numRows && m.numBatches[i] == parts[i].numBatches && m.numBytes[i] == parts[i].numBytes
    ensures (forall i :: 0 <= i < |parts| ==> parts[i].partitionId < 0x1_0000_0000) ==> PartitionsOfMetadata(m) == parts
  {
    var partition, path, numRows, numBatches, numBytes := [], [], [], [], [];
    var i := 0;
    while i < |parts|
      invariant 0 <= i <= |parts|
      invariant |partition| == i && |path| == i && |numRows| == i && |numBatches| == i && |numBytes| == i
      invariant forall j :: 0 <= j < i ==>
        partition[j] == parts[j].partitionId % 0x1_0000_0000 && path[j] == parts[j].path
        && numRows[j] == parts[j].numRows && numBatches[j] == parts[j].numBatches && numBytes[j] == parts[j].numBytes
    {
      var loc := parts[i];
      path := path + [loc.path];
      partition := partition + [loc.partitionId % 0x1_0000_0000];
      numRows := numRows + [loc.numRows];
      numBatches := numBatches + [loc.numBatches];
      numBytes := numBytes + [loc.numBytes];
      i := i + 1;
    }
    m := MetadataBatch(partition, path, numRows, numBatches, numBytes);
  }

  /** `execute`: the shuffle write without local senders, reported as a metadata batch. */
  method Execute(exec: ShuffleWriterExec, inputPartition: nat, stream: seq<StreamItem>,
                 takeSize: (nat, nat) -> nat, flushed: FlushOutcome)
    returns (r: Result<MetadataBatch>)
    ensures var w := ExpectedShuffleWrite(exec, inputPartition, stream, None, takeSize, flushed);
      (w.Err? ==> r == Err(w.error))
      && (w.Ok? ==>
            r.Ok? && |r.value.partition| == |w.value|
            && |r.value.path| == |w.value| && |r.value.numRows| == |w.value|
            && |r.value.numBatches| == |w.value| && |r.value.numBytes| == |w.value|
            && (forall i :: 0 <= i < |w.value| ==>
                  r.value.partition[i] == w.value[i].partitionId % 0x1_0000_0000 && r.value.path[i] == w.value[i].path
                  && r.value.numRows[i] == w.value[i].numRows
                  && r.value.numBatches[i] == w.value[i].numBatches && r.value.numBytes[i] == w.value[i].numBytes))
  {
    var written, _, _ := ExecuteShuffleWrite(exec, inputPartition, stream, None, takeSize, flushed);
    if written.Err? {
      return Err(written.error);
    }
    var m := BuildMetadata(written.value);
    r := Ok(m);
  }
}
