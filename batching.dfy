/**
 * The accumulation loop's vocabulary: per-file tables concatenated in file
 * order, the running counters, and the batches the file list is cut into.
 */
module Batching {
  import opened Extraction

  function Min(a: nat, b: nat): nat { if a <= b then a else b }

  /** Concatenation of a list of tables, in order (pandas `concat`). */
  function Flatten<T>(ts: seq<seq<T>>): seq<T>
  {
    if ts == [] then [] else Flatten(ts[..|ts| - 1]) + ts[|ts| - 1]
  }

  lemma {:induction false} FlattenAppend<T>(a: seq<seq<T>>, b: seq<seq<T>>)
    ensures Flatten(a + b) == Flatten(a) + Flatten(b)
    decreases |b|
  {
    if b == [] {
      assert a + b == a;
    } else {
      var init, last := b[..|b| - 1], b[|b| - 1];
      var ab := a + b;
      assert ab[..|ab| - 1] == a + init;
      assert ab[|ab| - 1] == last;
      FlattenAppend(a, init);
      AppendAssoc(Flatten(a), Flatten(init), last);
    }
  }

  lemma AppendAssoc<T>(a: seq<T>, b: seq<T>, c: seq<T>)
    ensures (a + b) + c == a + (b + c)
  {
  }

  lemma PrefixExtend<T>(s: seq<T>, i: nat, j: nat)
    requires i <= j <= |s|
    ensures s[..i] + s[i..j] == s[..j]
  {
  }

  /** With no empty table in the list, the concatenation is empty exactly when the list is. */
  lemma {:induction false} FlattenEmpty<T>(ts: seq<seq<T>>)
    requires forall t :: t in ts ==> t != []
    ensures Flatten(ts) == [] <==> ts == []
  {
    if ts != [] {
      assert ts[|ts| - 1] in ts;
    }
  }

  /**
   * Appending one batch's combined table to the list of batch tables, which
   * happens only when the batch yielded a table: the list's concatenation
   * grows by exactly the batch's rows, and no table in it is empty.
   */
  lemma AppendBatchTable(dataList: seq<seq<Point>>, batchData: seq<seq<Point>>)
    requires forall t :: t in dataList ==> t != []
    requires forall t :: t in batchData ==> t != []
    ensures batchData == [] <==> Flatten(batchData) == []
    ensures batchData != [] ==>
      var next := dataList + [Flatten(batchData)];
      Flatten(next) == Flatten(dataList) + Flatten(batchData) && forall t :: t in next ==> t != []
  {
    FlattenEmpty(batchData);
    if batchData != [] {
      var table := Flatten(batchData);
      FlattenAppend(dataList, [table]);
      assert Flatten([table]) == table by { assert [table][..0] == []; }
    }
  }

  /** All rows the files yield, concatenated in file order. */
  function Rows(fs: seq<InputFile>): seq<Point>
  {
    if fs == [] then [] else Rows(fs[..|fs| - 1]) + Extracted(fs[|fs| - 1])
  }

  /** A point is in the combined rows exactly when some file yielded it. */
  lemma {:induction false} RowsMembership(fs: seq<InputFile>, p: Point)
    ensures p in Rows(fs) <==> exists i :: 0 <= i < |fs| && p in Extracted(fs[i])
  {
    if fs != [] {
      var n := |fs| - 1;
      var init := fs[..n];
      RowsMembership(init, p);
      if p in Rows(fs) {
        if p in Rows(init) {
          var i :| 0 <= i < |init| && p in Extracted(init[i]);
          assert init[i] == fs[i];
        } else {
          assert p in Extracted(fs[n]);
        }
      }
      if exists i :: 0 <= i < |fs| && p in Extracted(fs[i]) {
        var i :| 0 <= i < |fs| && p in Extracted(fs[i]);
        if i < n {
          assert init[i] == fs[i];
        }
      }
    }
  }

  /** Number of files that yielded at least one row (`processed_count`). */
  function ProcessedCount(fs: seq<InputFile>): nat
  {
    if fs == [] then 0
    else ProcessedCount(fs[..|fs| - 1]) + (if Processed(fs[|fs| - 1]) then 1 else 0)
  }

  /** Number of files whose read raised (`errors_count`). */
  function ErrorCount(fs: seq<InputFile>): nat
  {
    if fs == [] then 0
    else ErrorCount(fs[..|fs| - 1]) + (if Errored(fs[|fs| - 1]) then 1 else 0)
  }

  /** One more file: its rows are appended and each counter moves by at most one. */
  lemma AccumulateOne(fs: seq<InputFile>, i: nat)
    requires i < |fs|
    ensures Rows(fs[..i + 1]) == Rows(fs[..i]) + Extracted(fs[i])
    ensures ProcessedCount(fs[..i + 1]) == ProcessedCount(fs[..i]) + (if Processed(fs[i]) then 1 else 0)
    ensures ErrorCount(fs[..i + 1]) == ErrorCount(fs[..i]) + (if Errored(fs[i]) then 1 else 0)
  {
    assert fs[..i + 1][..i] == fs[..i];
  }

  /** Rows are additive over consecutive runs of files. */
  lemma {:induction false} RowsAppend(a: seq<InputFile>, b: seq<InputFile>)
    ensures Rows(a + b) == Rows(a) + Rows(b)
    decreases |b|
  {
    if b == [] {
      assert a + b == a;
    } else {
      var init, last := b[..|b| - 1], b[|b| - 1];
      var ab := a + b;
      assert ab[..|ab| - 1] == a + init;
      assert ab[|ab| - 1] == last;
      RowsAppend(a, init);
      AppendAssoc(Rows(a), Rows(init), Extracted(last));
    }
  }

  /** Both counters are additive over consecutive runs of files. */
  lemma {:induction false} CountsAppend(a: seq<InputFile>, b: seq<InputFile>)
    ensures ProcessedCount(a + b) == ProcessedCount(a) + ProcessedCount(b)
    ensures ErrorCount(a + b) == ErrorCount(a) + ErrorCount(b)
    decreases |b|
  {
    if b == [] {
      assert a + b == a;
    } else {
      var init, last := b[..|b| - 1], b[|b| - 1];
      var ab := a + b;
      assert ab[..|ab| - 1] == a + init;
      assert ab[|ab| - 1] == last;
      CountsAppend(a, init);
    }
  }

  /**
   * A file that yields no rows (a failed read, a table with fewer than four
   * columns, or one whose rows all have a missing cell) leaves the rows and
   * `processed_count` unchanged wherever it stands; a failed read adds
   * exactly one to `errors_count`.
   */
  lemma SilentFileChangesNothing(a: seq<InputFile>, f: InputFile, b: seq<InputFile>)
    requires Extracted(f) == []
    ensures Rows(a + [f] + b) == Rows(a + b)
    ensures ProcessedCount(a + [f] + b) == ProcessedCount(a + b)
    ensures ErrorCount(a + [f] + b) == ErrorCount(a + b) + (if f.ReadError? then 1 else 0)
  {
    var af := a + [f];
    SingleFile(f);
    assert Rows(af + b) == Rows(a + b) by {
      RowsAppend(a, [f]);
      RowsAppend(af, b);
      RowsAppend(a, b);
    }
    CountsAppend(a, [f]);
    CountsAppend(af, b);
    CountsAppend(a, b);
  }

  /** The accumulation over a single file. */
  lemma SingleFile(f: InputFile)
    ensures Rows([f]) == Extracted(f)
    ensures ProcessedCount([f]) == (if Processed(f) then 1 else 0)
    ensures ErrorCount([f]) == (if Errored(f) then 1 else 0)
  {
    assert [f][..0] == [];
  }

  /** No file is counted twice: processed and errored files together never outnumber the files. */
  lemma {:induction false} CountsBounded(fs: seq<InputFile>)
    ensures ProcessedCount(fs) + ErrorCount(fs) <= |fs|
    ensures ProcessedCount(fs) <= |Rows(fs)|
  {
    if fs != [] {
      CountsBounded(fs[..|fs| - 1]);
    }
  }

  /** No rows at all exactly when no file was processed. */
  lemma {:induction false} NoRowsIffNoneProcessed(fs: seq<InputFile>)
    ensures Rows(fs) == [] <==> ProcessedCount(fs) == 0
    ensures Rows(fs) == [] <==> forall i :: 0 <= i < |fs| ==> !Processed(fs[i])
  {
    if fs != [] {
      var n := |fs| - 1;
      var init := fs[..n];
      NoRowsIffNoneProcessed(init);
      assert Rows(fs) == Rows(init) + Extracted(fs[n]);
      assert Rows(fs) == [] <==> Rows(init) == [] && !Processed(fs[n]);
      if Rows(fs) == [] {
        forall i | 0 <= i < |fs| ensures !Processed(fs[i]) {
          if i < n { assert init[i] == fs[i]; }
        }
      }
      if forall i :: 0 <= i < |fs| ==> !Processed(fs[i]) {
        forall i | 0 <= i < |init| ensures !Processed(init[i]) {
          assert init[i] == fs[i];
        }
      }
    }
  }

  /**
   * The batches `range(start, |fs|, b)` cuts the list into: consecutive
   * slices `fs[k..k + b]`, the last one possibly shorter.
   */
  function BatchesFrom<T>(fs: seq<T>, start: nat, b: nat): seq<seq<T>>
    requires b > 0
    decreases |fs| - start
  {
    if start >= |fs| then []
    else [fs[start..Min(start + b, |fs|)]] + BatchesFrom(fs, start + b, b)
  }

  /** The batches cover the list from `start` on, in order, with nothing left out or repeated. */
  lemma {:induction false} BatchesCover<T>(fs: seq<T>, start: nat, b: nat)
    requires b > 0
    ensures Flatten(BatchesFrom(fs, start, b)) == fs[Min(start, |fs|)..]
    decreases |fs| - start
  {
    if start < |fs| {
      var first := fs[start..Min(start + b, |fs|)];
      var rest := BatchesFrom(fs, start + b, b);
      BatchesCover(fs, start + b, b);
      FlattenAppend([first], rest);
      assert Flatten([first]) == first by { assert [first][..0] == []; }
      assert fs[start..] == first + fs[Min(start + b, |fs|)..];
    }
  }

  /**
   * Batch `k` is the slice `fs[k*b .. k*b + b]`, clipped to the list: never
   * empty and never longer than `b`.
   */
  lemma {:induction false} BatchAt<T>(fs: seq<T>, start: nat, b: nat, k: nat)
    requires b > 0
    requires k < |BatchesFrom(fs, start, b)|
    ensures start + k * b < |fs|
    ensures BatchesFrom(fs, start, b)[k] == fs[start + k * b..Min(start + k * b + b, |fs|)]
    ensures 0 < |BatchesFrom(fs, start, b)[k]| <= b
    decreases k
  {
    var bs := BatchesFrom(fs, start, b);
    var rest := BatchesFrom(fs, start + b, b);
    assert start < |fs| && bs == [fs[start..Min(start + b, |fs|)]] + rest;
    if k > 0 {
      BatchAt(fs, start + b, b, k - 1);
      assert start + k * b == start + b + (k - 1) * b by { MulStep(k, b); }
      assert bs[k] == rest[k - 1];
    }
  }

  lemma MulStep(k: nat, b: nat)
    requires k > 0
    ensures b + (k - 1) * b == k * b
  {
  }

  /** The per-batch tables, one per batch, in batch order. */
  function BatchTables(bs: seq<seq<InputFile>>): (ts: seq<seq<Point>>)
    ensures |ts| == |bs|
  {
    seq(|bs|, k requires 0 <= k < |bs| => Rows(bs[k]))
  }

  /** Concatenating the per-batch tables gives the rows of all the batches' files. */
  lemma {:induction false} BatchTablesFlatten(bs: seq<seq<InputFile>>)
    ensures Flatten(BatchTables(bs)) == Rows(Flatten(bs))
    decreases |bs|
  {
    if bs != [] {
      var init := bs[..|bs| - 1];
      BatchTablesFlatten(init);
      assert BatchTables(bs)[..|bs| - 1] == BatchTables(init);
      RowsAppend(Flatten(init), bs[|bs| - 1]);
    }
  }

  /**
   * Batching transparency: for every batch size, concatenating the per-batch
   * tables gives the rows of all files in file order.
   */
  lemma BatchingTransparent(fs: seq<InputFile>, b: nat)
    requires b > 0
    ensures Flatten(BatchTables(BatchesFrom(fs, 0, b))) == Rows(fs)
  {
    BatchTablesFlatten(BatchesFrom(fs, 0, b));
    BatchesCover(fs, 0, b);
    assert fs[Min(0, |fs|)..] == fs;
  }

  /**
   * The progress marks printed after each batch started at `start`, `start + b`, ...:
   * `min(batch_start + b, n)`.
   */
  function ProgressFrom(start: nat, n: nat, b: nat): seq<nat>
    requires b > 0
    decreases n - start
  {
    if start >= n then [] else [Min(start + b, n)] + ProgressFrom(start + b, n, b)
  }

  /**
   * The progress marks rise strictly, never pass the file count, and the
   * last one is the file count.
   */
  lemma {:induction false} ProgressMarks(start: nat, n: nat, b: nat)
    requires b > 0
    ensures var r := ProgressFrom(start, n, b);
      (forall k :: 0 <= k < |r| ==> start < r[k] <= n)
      && (forall j, k :: 0 <= j < k < |r| ==> r[j] < r[k])
      && (start < n <==> r != [])
      && (r != [] ==> r[|r| - 1] == n)
    decreases n - start
  {
    if start < n {
      ProgressMarks(start + b, n, b);
    }
  }

  /**
   * Logging the mark of the batch at `start` keeps the log a prefix of all
   * the marks, followed by those of the batches still to come.
   */
  lemma ProgressStep(log: seq<nat>, start: nat, n: nat, b: nat)
    requires b > 0 && start < n
    requires log + ProgressFrom(start, n, b) == ProgressFrom(0, n, b)
    ensures (log + [Min(start + b, n)]) + ProgressFrom(start + b, n, b) == ProgressFrom(0, n, b)
  {
    assert ProgressFrom(start, n, b) == [Min(start + b, n)] + ProgressFrom(start + b, n, b);
    AppendAssoc(log, [Min(start + b, n)], ProgressFrom(start + b, n, b));
  }

  /** One progress mark per batch. */
  lemma {:induction false} ProgressPerBatch<T>(fs: seq<T>, start: nat, b: nat)
    requires b > 0
    ensures |ProgressFrom(start, |fs|, b)| == |BatchesFrom(fs, start, b)|
    decreases |fs| - start
  {
    if start < |fs| {
      ProgressPerBatch(fs, start + b, b);
    }
  }
}
