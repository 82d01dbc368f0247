/**
 * The whole run of the unification script: discovery checks, truncation to
 * `max_files`, the batched accumulation loop with its counters, the final
 * concatenation and the cleaning.
 */
module Unification {
  import opened Outcomes
  import opened Extraction
  import opened Batching
  import opened Cleaning

  /** The exceptions that end a run. */
  datatype UnifyError =
    | FolderNotFound   // the input folder does not exist
    | NoFilesFound     // no file matches the naming pattern
    | NoData           // every file failed or yielded no row

  /**
   * What a successful run reports: the cleaned rows that are written out,
   * the three running counters, the row count before and the count removed
   * by cleaning, and the progress mark printed after each batch.
   */
  datatype Summary = Summary(
    data: seq<Point>,
    processed: nat,
    errors: nat,
    totalRows: nat,
    initialCount: nat,
    removed: int,
    progress: seq<nat>)

  /** The files actually read: the first `max_files` of the sorted list when that is fewer than all. */
  function Truncate(files: seq<InputFile>, maxFiles: Option<nat>): (used: seq<InputFile>)
    ensures used <= files
    ensures maxFiles.Some? && maxFiles.value < |files| ==> |used| == maxFiles.value
    ensures !(maxFiles.Some? && maxFiles.value < |files|) ==> used == files
  {
    if maxFiles.Some? && maxFiles.value < |files| then files[..maxFiles.value] else files
  }

  /**
   * The run as a function of its inputs: the folder's existence, the sorted
   * list of matching files, `max_files` and `batch_size`.
   */
  function Unified(folderExists: bool, files: seq<InputFile>, maxFiles: Option<nat>, batchSize: nat)
    : Result<Summary, UnifyError>
    requires batchSize > 0
  {
    if !folderExists then Err(FolderNotFound)
    else if |files| == 0 then Err(NoFilesFound)
    else Combined(Truncate(files, maxFiles), batchSize)
  }

  /**
   * The part of the run after truncation: read and concatenate the rows of
   * the used files, fail when there are none, otherwise clean them.
   */
  function Combined(used: seq<InputFile>, batchSize: nat): Result<Summary, UnifyError>
    requires batchSize > 0
  {
    var combined := Rows(used);
    if combined == [] then Err(NoData)
    else
      var data := Clean(combined);
      Ok(Summary(data, ProcessedCount(used), ErrorCount(used), |combined|, |combined|,
                 |combined| - |data|, ProgressFrom(0, |used|, batchSize)))
  }

  /**
   * The outcome of a run: each exception is raised exactly in its own
   * situation, and a successful run reports only in-box rows, a removed
   * count that is the difference of the two row counts, at least one
   * processed file, and no more processed and failed files than were found.
   */
  lemma RunOutcome(folderExists: bool, files: seq<InputFile>, maxFiles: Option<nat>, batchSize: nat)
    requires batchSize > 0
    ensures var r := Unified(folderExists, files, maxFiles, batchSize);
            && (r == Err(FolderNotFound) <==> !folderExists)
            && (r == Err(NoFilesFound) <==> folderExists && files == [])
            && (r == Err(NoData) <==> folderExists && files != [] && Rows(Truncate(files, maxFiles)) == [])
            && (r.Ok? ==> forall p :: p in r.value.data ==> InBox(p))
            && (r.Ok? ==> r.value.totalRows == r.value.initialCount)
            && (r.Ok? ==> r.value.removed == r.value.initialCount - |r.value.data| >= 0)
            && (r.Ok? ==> 0 < r.value.processed && r.value.processed + r.value.errors <= |files|)
  {
    var used := Truncate(files, maxFiles);
    CountsBounded(used);
    NoRowsIffNoneProcessed(used);
  }

  /**
   * With `max_files = 0` no file is read and the run ends in the "no data"
   * error (provided the folder exists and holds a matching file).
   */
  lemma MaxFilesZeroIsNoData(files: seq<InputFile>, batchSize: nat)
    requires batchSize > 0 && files != []
    ensures Unified(true, files, Some(0), batchSize) == Err(NoData)
  {
  }

  /** Files beyond the first `max_files` are never read: appending more files changes nothing. */
  lemma TruncationIgnoresTail(files: seq<InputFile>, extra: seq<InputFile>, k: nat, batchSize: nat)
    requires batchSize > 0 && 0 < k <= |files|
    ensures Unified(true, files + extra, Some(k), batchSize) == Unified(true, files, Some(k), batchSize)
  {
    assert Truncate(files + extra, Some(k)) == files[..k];
    assert Truncate(files, Some(k)) == files[..k];
  }

  /**
   * The output rows of a successful run are exactly the in-box rows of the
   * used files, in sorted-file order and in file order within a file.
   */
  lemma OutputIsBoxFilterOfRows(folderExists: bool, files: seq<InputFile>, maxFiles: Option<nat>, batchSize: nat)
    requires batchSize > 0
    requires Unified(folderExists, files, maxFiles, batchSize).Ok?
    ensures Unified(folderExists, files, maxFiles, batchSize).value.data
         == Filter(Rows(Truncate(files, maxFiles)), InBox)
  {
    CleanIsBoxFilter(Rows(Truncate(files, maxFiles)));
  }

  /**
   * Error resilience: a file whose read raises, placed anywhere among the
   * others, leaves the output rows and `processed_count` as they were and
   * adds one to `errors_count`.
   */
  lemma ReadErrorIsContained(a: seq<InputFile>, b: seq<InputFile>, batchSize: nat)
    requires batchSize > 0
    requires Unified(true, a + b, None, batchSize).Ok?
    ensures var with := Unified(true, a + [ReadError] + b, None, batchSize);
            var without := Unified(true, a + b, None, batchSize);
            with.Ok? && with.value.data == without.value.data
            && with.value.processed == without.value.processed
            && with.value.errors == without.value.errors + 1
  {
    SilentFileChangesNothing(a, ReadError, b);
  }

  /**
   * A file that was read but has fewer than four columns, placed anywhere
   * among the others, changes neither the output rows nor any counter.
   */
  lemma NarrowTableIsSkipped(a: seq<InputFile>, f: InputFile, b: seq<InputFile>, batchSize: nat)
    requires batchSize > 0
    requires f.Table? && f.ncols < 4
    requires Unified(true, a + b, None, batchSize).Ok?
    ensures var with := Unified(true, a + [f] + b, None, batchSize);
            var without := Unified(true, a + b, None, batchSize);
            with.Ok? && with.value.data == without.value.data
            && with.value.processed == without.value.processed
            && with.value.errors == without.value.errors
            && with.value.totalRows == without.value.totalRows
  {
    SilentFileChangesNothing(a, f, b);
  }

  /**
   * The inner loop over one batch's files: each file is read, a failed read
   * is counted, a table with fewer than four columns is skipped, and the
   * complete rows of any other table are appended to `batchData` when there
   * is at least one. The running counters are threaded through.
   */
  method ReadBatch(batchFiles: seq<InputFile>, processed0: nat, errors0: nat, rows0: nat)
    returns (batchData: seq<seq<Point>>, processedCount: nat, errorsCount: nat, totalRows: nat)
    ensures Flatten(batchData) == Rows(batchFiles)
    ensures forall t :: t in batchData ==> t != []
    ensures processedCount == processed0 + ProcessedCount(batchFiles)
    ensures errorsCount == errors0 + ErrorCount(batchFiles)
    ensures totalRows == rows0 + |Rows(batchFiles)|
  {
    batchData := [];
    processedCount, errorsCount, totalRows := processed0, errors0, rows0;
    for j := 0 to |batchFiles|
      invariant Flatten(batchData) == Rows(batchFiles[..j])
      invariant forall t :: t in batchData ==> t != []
      invariant processedCount == processed0 + ProcessedCount(batchFiles[..j])
      invariant errorsCount == errors0 + ErrorCount(batchFiles[..j])
      invariant totalRows == rows0 + |Flatten(batchData)|
    {
      var filePath := batchFiles[j];
      AccumulateOne(batchFiles, j);
      match filePath
      case ReadError =>
        errorsCount := errorsCount + 1;
      case Table(ncols, rows) =>
        if ncols >= 4 {
          var table := DropMissing(rows);
          if |table| > 0 {
            FlattenAppend(batchData, [table]);
            assert Flatten([table]) == table by { assert [table][..0] == []; }
            batchData := batchData + [table];
            processedCount := processedCount + 1;
            totalRows := totalRows + |table|;
          }
        }
    }
    assert batchFiles[..|batchFiles|] == batchFiles;
  }

  /**
   * The outer loop: `range(0, n, batch_size)` cut into consecutive batches,
   * each read by `ReadBatch`; a batch that yielded rows is concatenated into
   * one table and appended to `dataList`, and the progress mark
   * `min(batch_start + batch_size, n)` is logged after every batch.
   */
  method AccumulateBatches(dataFiles: seq<InputFile>, batchSize: nat)
    returns (dataList: seq<seq<Point>>, processedCount: nat, errorsCount: nat, totalRows: nat,
             progressLog: seq<nat>)
    requires batchSize > 0
    ensures Flatten(dataList) == Rows(dataFiles)
    ensures dataList == [] <==> Rows(dataFiles) == []
    ensures processedCount == ProcessedCount(dataFiles)
    ensures errorsCount == ErrorCount(dataFiles)
    ensures totalRows == |Rows(dataFiles)|
    ensures progressLog == ProgressFrom(0, |dataFiles|, batchSize)
  {
    var n := |dataFiles|;
    dataList := [];
    processedCount, errorsCount, totalRows := 0, 0, 0;
    progressLog := [];

    var batchStart := 0;
    ghost var done: seq<InputFile> := [];
    while batchStart < n
      invariant done == dataFiles[..Min(batchStart, n)]
      invariant Flatten(dataList) == Rows(done)
      invariant forall t :: t in dataList ==> t != []
      invariant processedCount == ProcessedCount(done)
      invariant errorsCount == ErrorCount(done)
      invariant totalRows == |Flatten(dataList)|
      invariant progressLog + ProgressFrom(batchStart, n, batchSize) == ProgressFrom(0, n, batchSize)
      decreases n - batchStart
    {
      var batchEnd := Min(batchStart + batchSize, n);
      var batchFiles := dataFiles[batchStart..batchEnd];
      PrefixExtend(dataFiles, batchStart, batchEnd);
      RowsAppend(done, batchFiles);
      CountsAppend(done, batchFiles);
      var batchData;
      batchData, processedCount, errorsCount, totalRows := ReadBatch(batchFiles, processedCount, errorsCount, totalRows);

      AppendBatchTable(dataList, batchData);
      if batchData != [] {
        dataList := dataList + [Flatten(batchData)];
      }

      var progress := Min(batchStart + batchSize, n);
      ProgressStep(progressLog, batchStart, n, batchSize);
      progressLog := progressLog + [progress];
      batchStart := batchStart + batchSize;
      done := done + batchFiles;
    }
    assert done == dataFiles;
    assert progressLog + [] == progressLog;
    FlattenEmpty(dataList);
  }

  /**
   * The whole run. `files` is the sorted list of matching files; the result
   * is the run's summary or the exception it raises.
   */
  method UnifyDataset(folderExists: bool, files: seq<InputFile>, maxFiles: Option<nat>, batchSize: nat)
    returns (r: Result<Summary, UnifyError>)
    requires batchSize > 0
    ensures r == Unified(folderExists, files, maxFiles, batchSize)
  {
    if !folderExists {
      return Err(FolderNotFound);
    }
    var dataFiles := files;
    var totalFiles := |dataFiles|;
    if totalFiles == 0 {
      return Err(NoFilesFound);
    }
    if maxFiles.Some? && maxFiles.value < totalFiles {
      dataFiles := dataFiles[..maxFiles.value];
    }
    assert dataFiles == Truncate(files, maxFiles);

    r := CombineFiles(dataFiles, batchSize);
  }

  /**
   * The accumulation over the used files followed by the final
   * concatenation and the cleaning, or the "no data" error.
   */
  method CombineFiles(dataFiles: seq<InputFile>, batchSize: nat) returns (r: Result<Summary, UnifyError>)
    requires batchSize > 0
    ensures r == Combined(dataFiles, batchSize)
  {
    var dataList, processedCount, errorsCount, totalRows, progressLog :=
      AccumulateBatches(dataFiles, batchSize);
    if |dataList| == 0 {
      return Err(NoData);
    }

    var data := Flatten(dataList);
    var initialCount := |data|;
    var cleaned := Clean(data);
    var removedCount := initialCount - |cleaned|;
    return Ok(Summary(cleaned, processedCount, errorsCount, totalRows, initialCount, removedCount, progressLog));
  }
}
