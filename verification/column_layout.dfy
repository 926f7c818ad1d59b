/**
 * `calculateColumnsWidth`: every column starts at the measured width of its
 * title; each row then widens the column it is matched with, by position,
 * up to a cap; the table width is the sum of the column widths.
 *
 * The canvas text measurer (`getTextWidth`, which already adds 80 and rounds)
 * is a parameter `measure` from text to a natural number.
 */
module ColumnLayout {
  import opened Wrappers
  import opened Records

  /** The data a column keeps through the JSON deep copy. */
  datatype Column = Column(dataIndex: string, title: string, search: bool, width: Option<int>)

  /** The result object `{columns, source, tableWidth}`. */
  datatype Layout = Layout(columns: seq<Column>, source: seq<Row>, tableWidth: int)

  /** `reduce` without an initial value on an empty list throws a TypeError. */
  datatype LayoutError = EmptyReduce

  /**
   * The text measured for the cell of `row` in column `i`: the `i`-th of the
   * row's values, or "undefined" when the row has fewer values.
   */
  function CellText(row: Row, i: nat): (text: string)
  {
    if i < |row.cells| then row.cells[i].text else "undefined"
  }

  /** One row step: the larger of the cell and the current width, never above the cap. */
  function StepWidth(cellWidth: int, columnWidth: int, maxWidthPerCell: int): (w: int)
  {
    var w := if cellWidth < columnWidth then columnWidth else cellWidth;
    if w > maxWidthPerCell then maxWidthPerCell else w
  }

  /** A row step is `min(max(cell, current), cap)`: it never narrows below the cap, never exceeds it. */
  lemma StepWidthMinMax(cellWidth: int, columnWidth: int, maxWidthPerCell: int)
    ensures StepWidth(cellWidth, columnWidth, maxWidthPerCell) == Min(Max(cellWidth, columnWidth), maxWidthPerCell)
  {
  }

  /** The width of column `i` after the title pass and the given rows, in order. */
  function ColumnWidth(measure: string -> nat, title: string, rows: seq<Row>, i: nat, maxWidthPerCell: int): (w: int)
    ensures rows == [] ==> w == measure(title)
    ensures rows != [] ==> w <= maxWidthPerCell
    decreases |rows|
  {
    if rows == [] then measure(title)
    else
      var last := rows[|rows| - 1];
      StepWidth(measure(CellText(last, i)), ColumnWidth(measure, title, rows[..|rows| - 1], i, maxWidthPerCell), maxWidthPerCell)
  }

  /** The widest cell of column `i` over the given rows. */
  function WidestCell(measure: string -> nat, rows: seq<Row>, i: nat): (w: nat)
    requires rows != []
    decreases |rows|
  {
    if |rows| == 1 then measure(CellText(rows[0], i))
    else
      var w := WidestCell(measure, rows[..|rows| - 1], i);
      var c := measure(CellText(rows[|rows| - 1], i));
      if c > w then c else w
  }

  function Min(a: int, b: int): (m: int) { if a < b then a else b }
  function Max(a: int, b: int): (m: int) { if a < b then b else a }

  /**
   * Closed form of the row passes: with at least one row, a column is as
   * wide as the widest of its title and its cells, capped.
   */
  lemma {:induction false} ColumnWidthClosedForm(measure: string -> nat, title: string, rows: seq<Row>, i: nat, maxWidthPerCell: int)
    requires rows != []
    ensures ColumnWidth(measure, title, rows, i, maxWidthPerCell)
      == Min(Max(measure(title), WidestCell(measure, rows, i)), maxWidthPerCell)
  {
    var init := rows[..|rows| - 1];
    if |rows| > 1 {
      ColumnWidthClosedForm(measure, title, init, i, maxWidthPerCell);
    }
  }

  /** Every column ends at least as wide as its title, unless the title exceeds the cap. */
  lemma {:induction false} ColumnWidthAtLeastTitle(measure: string -> nat, title: string, rows: seq<Row>, i: nat, maxWidthPerCell: int)
    requires measure(title) <= maxWidthPerCell
    ensures measure(title) <= ColumnWidth(measure, title, rows, i, maxWidthPerCell)
  {
    if rows != [] {
      ColumnWidthClosedForm(measure, title, rows, i, maxWidthPerCell);
    }
  }

  /** The final widths of all columns, in column order. */
  function Widths(measure: string -> nat, columns: seq<Column>, rows: seq<Row>, maxWidthPerCell: int): (ws: seq<int>)
    ensures |ws| == |columns|
  {
    seq(|columns|, i requires 0 <= i < |columns| => ColumnWidth(measure, columns[i].title, rows, i, maxWidthPerCell))
  }

  /** `a + b` folded from the left, as `reduce` does. */
  function Sum(ws: seq<int>): (s: int)
    ensures ws == [] ==> s == 0
    ensures |ws| == 1 ==> s == ws[0]
  {
    if ws == [] then 0 else Sum(ws[..|ws| - 1]) + ws[|ws| - 1]
  }

  /** With at least one row, the table is never wider than one cap per column. */
  lemma TableWidthCapped(measure: string -> nat, columns: seq<Column>, rows: seq<Row>, maxWidthPerCell: int)
    requires rows != []
    ensures Sum(Widths(measure, columns, rows, maxWidthPerCell)) <= |columns| * maxWidthPerCell
  {
    var ws := Widths(measure, columns, rows, maxWidthPerCell);
    assert forall k :: 0 <= k < |ws| ==> ws[k] <= maxWidthPerCell;
    SumBounded(ws, maxWidthPerCell);
  }

  lemma {:induction false} SumBounded(ws: seq<int>, bound: int)
    requires forall k :: 0 <= k < |ws| ==> ws[k] <= bound
    ensures Sum(ws) <= |ws| * bound
  {
    if ws != [] {
      SumBounded(ws[..|ws| - 1], bound);
    }
  }

  /** The inner loop of one row: each column is widened by its cell, by position. */
  method WidenByRow(widths: array<int>, columns: seq<Column>, before: seq<Row>, entry: Row,
                    measure: string -> nat, maxWidthPerCell: int)
    requires widths.Length == |columns|
    requires forall k :: 0 <= k < |columns| ==>
      widths[k] == ColumnWidth(measure, columns[k].title, before, k, maxWidthPerCell)
    modifies widths
    ensures forall k :: 0 <= k < |columns| ==>
      widths[k] == ColumnWidth(measure, columns[k].title, before + [entry], k, maxWidthPerCell)
  {
    var rows := before + [entry];
    assert rows[..|rows| - 1] == before;
    var c := 0;
    while c < |columns|
      invariant 0 <= c <= |columns|
      invariant forall k :: 0 <= k < c ==>
        widths[k] == ColumnWidth(measure, columns[k].title, rows, k, maxWidthPerCell)
      invariant forall k :: c <= k < |columns| ==>
        widths[k] == ColumnWidth(measure, columns[k].title, before, k, maxWidthPerCell)
    {
      var columnWidth := widths[c];
      var cellWidth := measure(CellText(entry, c));
      if cellWidth < columnWidth { cellWidth := columnWidth; }
      if cellWidth > maxWidthPerCell { cellWidth := maxWidthPerCell; }
      widths[c] := cellWidth;
      c := c + 1;
    }
  }

  /**
   * `calculateColumnsWidth(columns, source, maxWidthPerCell = 500)`: the
   * title pass, the row passes over a private copy of the widths, and the
   * `reduce` that sums them, which throws when there is no column.
   */
  method CalculateColumnsWidth(columns: seq<Column>, source: seq<Row>, measure: string -> nat, maxWidthPerCell: int := 500)
    returns (r: Result<Layout, LayoutError>)
    ensures columns == [] <==> r.Failure?
    ensures r.Success? ==>
      var ws := Widths(measure, columns, source, maxWidthPerCell);
      && |r.value.columns| == |columns|
      && (forall i :: 0 <= i < |columns| ==> r.value.columns[i] == columns[i].(width := Some(ws[i])))
      && r.value.source == source
      && r.value.tableWidth == Sum(ws)
  {
    // the deep copy: `widths` is private to this call; `columns` is a value
    var widths := new int[|columns|];
    for c := 0 to |columns|
      invariant forall k :: 0 <= k < c ==> widths[k] == ColumnWidth(measure, columns[k].title, [], k, maxWidthPerCell)
    {
      widths[c] := measure(columns[c].title);
    }

    var row := 0;
    while row < |source|
      invariant 0 <= row <= |source|
      invariant forall k :: 0 <= k < |columns| ==>
        widths[k] == ColumnWidth(measure, columns[k].title, source[..row], k, maxWidthPerCell)
    {
      assert source[..row + 1] == source[..row] + [source[row]];
      WidenByRow(widths, columns, source[..row], source[row], measure, maxWidthPerCell);
      row := row + 1;
    }
    assert source[..row] == source;

    if |columns| == 0 {
      return Failure(EmptyReduce);
    }
    var tableWidth := 0;
    for c := 0 to |columns|
      invariant tableWidth == Sum(widths[..c])
    {
      assert widths[..c + 1][..c] == widths[..c];
      tableWidth := tableWidth + widths[c];
    }
    assert widths[..|columns|] == widths[..];
    assert widths[..] == Widths(measure, columns, source, maxWidthPerCell);
    var laidOut := seq(|columns|, i requires 0 <= i < |columns| reads widths => columns[i].(width := Some(widths[i])));
    r := Success(Layout(laidOut, source, tableWidth));
  }
}
