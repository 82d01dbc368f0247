/**
 * Per-file extraction: what one input file contributes to the unified dataset.
 *
 * Reading the file as headerless delimited text and coercing its third and
 * fourth columns to numbers are done by a CSV library; the model receives
 * their outcome as an `InputFile`.
 */
module Extraction {
  import opened Outcomes

  /** A positional fix: longitude and latitude. */
  datatype Point = Point(lon: real, lat: real)

  /** The cells at column index 2 and 3 of one row, after numeric coercion. */
  datatype Cells = Cells(col2: Option<real>, col3: Option<real>)
  {
    /** Both cells coerced to a number. */
    predicate Complete() { col2.Some? && col3.Some? }
  }

  /**
   * One input file as the CSV reader returns it: the read raised, or it
   * produced a table with `ncols` columns whose rows carry the coerced cells
   * of columns 2 and 3 (meaningless when `ncols < 4`).
   */
  datatype InputFile = ReadError | Table(ncols: nat, rows: seq<Cells>)

  /** The point a complete row stands for. */
  function ToPoint(c: Cells): Point
    requires c.Complete()
  {
    Point(c.col2.value, c.col3.value)
  }

  /**
   * Drops the rows with a missing cell and keeps the others as points, in
   * file order.
   */
  function DropMissing(rows: seq<Cells>): (r: seq<Point>)
  {
    if rows == [] then []
    else
      var rest := DropMissing(rows[1..]);
      if rows[0].Complete() then [ToPoint(rows[0])] + rest else rest
  }

  /**
   * A point is kept exactly when some row has both cells coerced to its
   * coordinates; nothing is dropped exactly when every row is complete.
   */
  lemma {:induction false} DropMissingPoints(rows: seq<Cells>)
    ensures |DropMissing(rows)| <= |rows|
    ensures forall p :: p in DropMissing(rows) <==> Cells(Some(p.lon), Some(p.lat)) in rows
    ensures |DropMissing(rows)| == |rows| <==> forall i :: 0 <= i < |rows| ==> rows[i].Complete()
  {
    if rows != [] {
      DropMissingPoints(rows[1..]);
      assert rows == [rows[0]] + rows[1..];
    }
  }

  /** Dropping missing rows distributes over concatenation. */
  lemma {:induction false} DropMissingAppend(a: seq<Cells>, b: seq<Cells>)
    ensures DropMissing(a + b) == DropMissing(a) + DropMissing(b)
  {
    if a == [] {
      assert a + b == b;
    } else {
      assert (a + b)[0] == a[0];
      assert (a + b)[1..] == a[1..] + b;
      DropMissingAppend(a[1..], b);

    }
  }

  /**
   * The rows a file contributes: none for a failed read or a table with
   * fewer than four columns, otherwise its complete rows as points.
   */
  function Extracted(f: InputFile): seq<Point>
  {
    match f
    case ReadError => []
    case Table(ncols, rows) => if ncols >= 4 then DropMissing(rows) else []
  }

  /**
   * A file contributes nothing unless it was read and has at least four
   * columns; then it contributes exactly the points of its complete rows.
   */
  lemma ExtractedPoints(f: InputFile)
    ensures f.ReadError? || f.ncols < 4 ==> Extracted(f) == []
    ensures f.Table? ==> |Extracted(f)| <= |f.rows|
    ensures forall p :: p in Extracted(f) <==>
      f.Table? && f.ncols >= 4 && Cells(Some(p.lon), Some(p.lat)) in f.rows
  {
    if f.Table? {
      DropMissingPoints(f.rows);
    }
  }

  /** The file counts as processed: it yielded at least one row. */
  predicate Processed(f: InputFile) { |Extracted(f)| > 0 }

  /** The file counts as an error: its read raised. */
  predicate Errored(f: InputFile) { f.ReadError? }
}
