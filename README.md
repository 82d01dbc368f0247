# Taxi dataset unification, modelled in Dafny

This project models `unificar_dataset`, the function that merges a folder of
Shanghai taxi GPS files into one table. The function works in these steps:

1. It checks that the input folder exists.
2. It takes the sorted list of `Taxi_*` files and fails when that list is
   empty.
3. When `max_files` is given and smaller than the file count, it keeps only
   the first `max_files` files.
4. It reads the files in consecutive batches of `batch_size`. For each file:
   - a read that raises is counted in `errors_count`;
   - a table with fewer than four columns is skipped silently;
   - otherwise columns 2 and 3 become `(lon, lat)`, rows with a
     non-numeric cell are dropped, and a non-empty result is kept. This
     raises `processed_count` by one and `total_rows` by the table's length.
5. After each batch, the batch's tables are concatenated into one batch
   table, and the progress mark `min(batch_start + batch_size, n)` is
   reported.
6. When no batch table exists, the run fails with the "no data" error.
   Otherwise all batch tables are concatenated.
7. Every row outside the inclusive box `120 <= lon <= 122`,
   `30 <= lat <= 32` is dropped, and the number of removed rows is reported.

The files:

- `outcomes.dfy` holds `Option` and `Result`.
- `extraction.dfy` is the per-file step. A file is given as the outcome of
  reading it: `ReadError`, or `Table(ncols, rows)`. Each row carries its
  column-2 and column-3 cells as `Option<real>`, with `None` where numeric
  coercion fails.
- `batching.dfy` has three parts:
  - the specification functions of the accumulation: the rows of a file
    list, the two file counters, the batches of a list and the progress
    marks;
  - the partition of a list into `range(0, n, batch_size)` slices;
  - the lemmas that relate these.
- `cleaning.dfy` holds the bounding-box filter.
- `unification.dfy` holds the whole run:
  - the error type;
  - the `Summary` of a successful run (cleaned rows, counters,
    `initial_count`, `removed_count`, progress marks);
  - the specification function `Unified`;
  - the imperative methods. `ReadBatch` is the inner loop over a batch's
    files. `AccumulateBatches` is the outer loop over batches. `UnifyDataset`
    is the whole function. Each method is proved equal to its specification
    function.

A 0-byte file makes the CSV reader raise, so in the code it is counted as
an error and is not skipped silently. The model leaves this choice to the
reader's outcome that is passed in.

## Model

| member | source | states |
|---|---|---|
| Extraction.DropMissingPoints | unificar_dataset.py:90-98 | A file's kept rows are exactly the pairs `(col2, col3)` of rows whose two cells are both numeric. They are never more than the file's rows. Nothing is dropped iff every row is complete. |
| Extraction.DropMissingAppend | unificar_dataset.py:90-98 | Dropping incomplete rows works row by row and keeps file order: the kept rows of `a + b` are those of `a` followed by those of `b`. |
| Extraction.ExtractedPoints | unificar_dataset.py:79-98 | A failed read or a table with fewer than 4 columns contributes no row. A point is contributed iff the table has at least 4 columns and holds it as a complete row. |
| Batching.RowsMembership | unificar_dataset.py:78-103 | A point is among the accumulated rows iff some file of the list contributed it. |
| Batching.AccumulateOne | unificar_dataset.py:78-109 | Handling one more file appends exactly its extracted rows. `processed_count` rises by one iff the file yields a row, and `errors_count` rises by one iff its read raises. |
| Batching.RowsAppend | unificar_dataset.py:112-114 | The rows of a concatenated file list are the rows of the first part followed by those of the second, so per-batch concatenation preserves order. |
| Batching.CountsAppend | unificar_dataset.py:100-109 | `processed_count` and `errors_count` are additive over consecutive parts of the file list. |
| Batching.SilentFileChangesNothing | unificar_dataset.py:89-109 | Inserting a file that yields no rows anywhere in the list leaves the rows and `processed_count` unchanged. `errors_count` rises by one exactly when that file's read raised. |
| Batching.CountsBounded | unificar_dataset.py:100-109 | `processed_count + errors_count` never exceeds the number of files, and `processed_count` never exceeds the number of rows. |
| Batching.NoRowsIffNoneProcessed | unificar_dataset.py:100-126 | The combined rows are empty iff `processed_count` is 0, iff no file yields a row. |
| Batching.FlattenAppend | unificar_dataset.py:132 | Concatenating a list of tables distributes over appending lists of tables. |
| Batching.FlattenEmpty | unificar_dataset.py:112-126 | A list of non-empty tables concatenates to no rows iff the list is empty, so an empty `data_list` means no data. |
| Batching.AppendBatchTable | unificar_dataset.py:112-114 | A batch table is appended iff the batch produced a table. Appending it extends the concatenation of `data_list` by the batch's rows and keeps every table in `data_list` non-empty. |
| Batching.BatchesCover | unificar_dataset.py:74-75 | The batches starting at `start` concatenate back to exactly the files from `start` on. |
| Batching.BatchAt | unificar_dataset.py:74-75 | Batch `k` is the slice `files[start + k*b : min(start + k*b + b, n)]`, and its start is below `n`. It holds between 1 and `b` files. |
| Batching.BatchTablesFlatten | unificar_dataset.py:112-114 | Concatenating the per-batch tables gives the rows of the concatenated batches. |
| Batching.BatchingTransparent | unificar_dataset.py:74-132 | For every `batch_size > 0`, concatenating the per-batch tables gives the per-file rows in sorted file order. The batch size does not change the data. |
| Batching.ProgressMarks | unificar_dataset.py:117 | Every progress mark lies in `(start, n]`. The marks rise strictly, there is at least one iff a file remains, and the last one is `n`. |
| Batching.ProgressPerBatch | unificar_dataset.py:74-117 | There is exactly one progress mark per batch. |
| Cleaning.Filter | unificar_dataset.py:145-146 | An order-preserving filter: the result is never longer than its input and holds exactly the input's elements that pass the test. |
| Cleaning.FilterAppend | unificar_dataset.py:145-146 | Filtering works element by element in order: filtering `a + b` gives filtered `a` followed by filtered `b`. |
| Cleaning.FilterKeepsAll | unificar_dataset.py:145-146 | A filter returns its input unchanged iff every element passes. |
| Cleaning.FilterFilter | unificar_dataset.py:145-146 | Two filters in a row equal one filter on the conjunction, so the longitude filter followed by the latitude filter is the box filter. |
| Cleaning.Clean | unificar_dataset.py:142-146 | Every cleaned row satisfies `120 <= lon <= 122` and `30 <= lat <= 32`. Every input row inside the box is kept, and cleaning never adds rows. |
| Cleaning.CleanIsBoxFilter | unificar_dataset.py:145-146 | Cleaning is the single order-preserving filter by the inclusive box. |
| Cleaning.CleanAppend | unificar_dataset.py:145-146 | Cleaning the concatenation equals concatenating the cleaned parts. |
| Cleaning.CleanIdempotent | unificar_dataset.py:142-146 | Cleaning changes nothing iff every row is inside the box, and cleaning twice is cleaning once. |
| Cleaning.BoundsInclusive | unificar_dataset.py:145-146 | The bounds are inclusive: the box corners are kept, and points just outside are dropped. |
| Unification.Truncate | unificar_dataset.py:57-58 | The used files are a prefix of the sorted list. There are exactly `max_files` of them when `max_files` is given and smaller than the count. Otherwise the list is unchanged. |
| Unification.RunOutcome | unificar_dataset.py:44-148 | Four statements about a run. (1) The folder error is raised iff the folder is missing. (2) The no-files error is raised iff it exists but nothing matched. (3) The no-data error is raised iff the used files yield no row. (4) On success, every output row is in the box, `total_rows == initial_count`, `removed_count = initial_count - len(output) >= 0`, and `0 < processed_count` with `processed_count + errors_count <= len(files)`. |
| Unification.MaxFilesZeroIsNoData | unificar_dataset.py:57-126 | With `max_files = 0`, no file is used and the run ends in the no-data error. |
| Unification.TruncationIgnoresTail | unificar_dataset.py:57-58 | Files after the first `max_files` are never read: appending more files leaves the run's result unchanged. |
| Unification.OutputIsBoxFilterOfRows | unificar_dataset.py:132-146 | The output rows are exactly the in-box rows of the used files, in sorted-file order. |
| Unification.ReadErrorIsContained | unificar_dataset.py:105-109 | A file whose read raises, anywhere in the list, leaves the output and `processed_count` unchanged and adds one to `errors_count`. |
| Unification.NarrowTableIsSkipped | unificar_dataset.py:89-109 | A file read with fewer than 4 columns, anywhere in the list, changes neither the output nor any of the three counters. |
| Unification.ReadBatch | unificar_dataset.py:78-109 | The inner loop appends exactly the batch's rows as non-empty per-file tables. It advances the three counters by the batch's processed count, error count and row count. |
| Unification.AccumulateBatches | unificar_dataset.py:69-120 | The outer loop gives these results. The concatenation of `data_list` is the per-file rows of all used files, and `data_list` is empty iff there are none. The counters equal the processed count, the error count and the row count. The logged progress marks are `min(batch_start + batch_size, n)`, one per batch. |
| Unification.CombineFiles | unificar_dataset.py:69-148 | Accumulation, the no-data check, the concatenation and the cleaning together compute the post-truncation part of `Unified`. |
| Unification.UnifyDataset | unificar_dataset.py:22-175 | The whole run returns exactly `Unified` of its inputs, so every property of `RunOutcome` and the lemmas above holds of it. |

## Left out

- Reading a file (`pd.read_csv`) and numeric coercion (`pd.to_numeric`) are library calls. Each file is given as the outcome of its read: `ReadError`, or a table with its column count and its two coerced cells per row.
- Floating point: coordinates are `real`, and a non-numeric cell is `None`. NaN and infinity are not modelled.
- Finding and sorting the `Taxi_*` files is file-system work. The sorted list is a parameter. Whether the folder exists is a boolean parameter.
- Writing the CSV, the output path, the file size and the returned path string are output I/O. The model returns a `Summary` of the run instead.
- Console output is not modelled: banners, timestamps, the progress percentage, the messages for the first five errors, the coordinate-range line. Only the integer progress mark is kept.
- The command-line wrapper (argument parsing, exit codes) is not part of this model.
- `batch_size <= 0` is excluded by a precondition. `max_files` is an `Option<nat>`, so a negative value cannot be written.
- Unification.Combined: the final `dropna` before filtering is the identity here. A `Point` always has both coordinates, because incomplete rows were already dropped per file.
- Unification.ReadBatch: the source's nested loop is split into two methods, `ReadBatch` and `AccumulateBatches`, which pass the three counters between them. The post-truncation part is split off in the same way into `CombineFiles`. The order of operations is unchanged.
