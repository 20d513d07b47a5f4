/**
 * pkg/ui/table.go: a termui table with a header line, fixed column widths, a
 * selectable row drawn highlighted, and a first visible row (topRow) that
 * follows the selection when the table is drawn.
 */
module TableWidget {
  import opened Util

  /** A string set at column x of line y of the table's inner rectangle. */
  datatype Label = Label(x: int, y: int, text: string)

  /**
   * One drawn row: which row of the table it is, the line it goes on, whether
   * it is drawn as the cursor, and its cells, cell i drawn at the i-th column
   * position trimmed to the i-th column width.
   */
  datatype DrawnRow = DrawnRow(index: int, y: int, highlighted: bool, cells: seq<string>)

  /** What one Draw puts on the screen. */
  datatype TablePlan = TablePlan(columnX: seq<int>, headerCells: seq<Label>, drawnRows: seq<DrawnRow>)

  /** The sum of the widths, for column positions. */
  function Sum(s: seq<int>): int
  {
    if |s| == 0 then 0 else Sum(s[..|s| - 1]) + s[|s| - 1]
  }

  /**
   * scroll: the selection moved by i, clamped to 0 when negative and
   * otherwise to the last row, so that with no rows a move down gives -1.
   */
  function Scrolled(selected: int, i: int, rowCount: nat): (r: int)
    ensures rowCount > 0 ==> 0 <= r < rowCount
    ensures 0 <= selected + i < rowCount ==> r == selected + i
    ensures selected + i < 0 ==> r == 0
    ensures rowCount > 0 && selected + i >= rowCount ==> r == rowCount - 1
    ensures rowCount == 0 ==> r == (if selected + i < 0 then 0 else -1)
  {
    var s := selected + i;
    var maxRow := rowCount - 1;
    if s < 0 then 0 else if s > maxRow then maxRow else s
  }

  /**
   * The first visible row after Draw: up to the selection when it is above,
   * one page on (to the old last visible row) when it is below.
   */
  function Followed(top: int, selected: int, dy: int): int
  {
    if selected < top then selected
    else if selected > top + dy - 2 then top + dy - 2
    else top
  }

  /** How many rows Draw shows from top: none when top is negative. */
  function DrawnCount(top: int, rowCount: nat, dy: int): (n: nat)
    ensures top >= 0 && n > 0 ==> top + n <= rowCount && top + n <= top + dy - 1
    ensures top < 0 ==> n == 0
    ensures top >= 0 && n > 0 ==> top + n == rowCount || n == dy - 1
    ensures top >= 0 && n == 0 ==> top >= rowCount || dy <= 1
  {
    if top < 0 then 0
    else IntMax(0, IntMin(rowCount, top + dy - 1) - top)
  }

  /** Rows from through from + count - 1 have at least width cells each. */
  predicate RowsHaveCells(rows: seq<seq<string>>, from: int, count: int, width: int)
  {
    forall j :: 0 <= j < |rows| && from <= j < from + count ==> |rows[j]| >= width
  }

  /** A table's whole state. */
  datatype TableView = TableView(
    title: string, header: seq<string>, columnWidths: seq<int>, rows: seq<seq<string>>,
    cursor: bool, cursorColor: int, topRow: int, selectedRow: int, innerDx: int, innerDy: int)

  /** Reset on a view: the new title, header and widths, no rows, the first row on top and selected. */
  function ResetView(v: TableView, title: string, header: seq<string>, widths: seq<int>): (r: TableView)
    ensures r.rows == [] && r.topRow == 0 && r.selectedRow == 0
    ensures r.(title := v.title, header := v.header, columnWidths := v.columnWidths, rows := v.rows,
               topRow := v.topRow, selectedRow := v.selectedRow) == v
  {
    v.(title := title, header := header, columnWidths := widths, rows := [], topRow := 0, selectedRow := 0)
  }

  class Table {
    var title: string
    var header: seq<string>
    var columnWidths: seq<int>
    var rows: seq<seq<string>>
    var cursor: bool
    var cursorColor: int
    var topRow: int
    var selectedRow: int
    /** Width and height of the inner rectangle, set by the layout. */
    var innerDx: int
    var innerDy: int

    constructor ()
      ensures title == "" && header == [] && columnWidths == [] && rows == []
      ensures cursor && cursorColor == 0 && topRow == 0 && selectedRow == 0
      ensures innerDx == 0 && innerDy == 0
    {
      title, header, columnWidths, rows := "", [], [], [];
      cursor, cursorColor := true, 0;
      topRow, selectedRow := 0, 0;
      innerDx, innerDy := 0, 0;
    }

    function View(): TableView
      reads this
    {
      TableView(title, header, columnWidths, rows, cursor, cursorColor, topRow, selectedRow, innerDx, innerDy)
    }

    method Reset(title': string, header': seq<string>, widths: seq<int>)
      modifies this`title, this`header, this`columnWidths, this`rows, this`topRow, this`selectedRow
      ensures title == title' && header == header' && columnWidths == widths
      ensures View() == ResetView(old(View()), title', header', widths)
    {
      title, header, columnWidths := title', header', widths;
      rows := [];
      topRow, selectedRow := 0, 0;
    }

    function CursorBottom(): int
      reads this
    {
      topRow + innerDy - 2
    }

    function Bottom(): int
      reads this
    {
      topRow + innerDy - 1
    }

    method Scroll(i: int)
      modifies this`selectedRow
      ensures selectedRow == Scrolled(old(selectedRow), i, |rows|)
      ensures View() == old(View()).(selectedRow := selectedRow)
    {
      selectedRow := selectedRow + i;
      var maxRow := |rows| - 1;
      if selectedRow < 0 {
        selectedRow := 0;
      } else if selectedRow > maxRow {
        selectedRow := maxRow;
      }
    }

    method ScrollUp()
      modifies this`selectedRow
      ensures View() == old(View()).(selectedRow := Scrolled(old(selectedRow), -1, |rows|))
    {
      Scroll(-1);
    }

    method ScrollDown()
      modifies this`selectedRow
      ensures View() == old(View()).(selectedRow := Scrolled(old(selectedRow), 1, |rows|))
    {
      Scroll(1);
    }

    /**
     * Draw does not go out of bounds: every header entry has a column, and
     * every row it will show has a cell per column.
     */
    predicate Drawable()
      reads this
    {
      innerDy <= 2 ||
        (|header| <= |columnWidths| &&
         var top := Followed(topRow, selectedRow, innerDy);
         RowsHaveCells(rows, top, DrawnCount(top, |rows|, innerDy), |columnWidths|))
    }

    /**
     * Draw: with more than two lines inside, the header on line 0 at the column
     * positions, topRow moved to follow the selection, and then the rows from
     * topRow on lines 1, 2, ... while they exist and fit, the selected one
     * highlighted when the cursor is on. With two lines or fewer, nothing.
     */
    method Draw() returns (plan: TablePlan)
      requires Drawable()
      modifies this`topRow
      ensures innerDy <= 2 ==> topRow == old(topRow) && plan == TablePlan([], [], [])
      ensures innerDy > 2 ==> topRow == Followed(old(topRow), selectedRow, innerDy)
      ensures innerDy > 2 ==>
        && |plan.columnX| == |columnWidths|
        && (forall i :: 0 <= i < |columnWidths| ==> plan.columnX[i] == Sum(columnWidths[..i]))
        && |plan.headerCells| == |header|
        && (forall i :: 0 <= i < |header| ==> plan.headerCells[i] == Label(plan.columnX[i], 0, header[i]))
        && |plan.drawnRows| == DrawnCount(topRow, |rows|, innerDy)
        && forall k :: 0 <= k < |plan.drawnRows| ==>
             plan.drawnRows[k] == DrawnRow(topRow + k, 1 + k, cursor && topRow + k == selectedRow,
                                           rows[topRow + k][..|columnWidths|])
    {
      if innerDy <= 2 {
        return TablePlan([], [], []);
      }
      var columnX := ColumnPositions(columnWidths);
      var headerCells := HeaderLabels(header, columnX);

      if selectedRow < topRow {
        topRow := selectedRow;
      } else if selectedRow > CursorBottom() {
        topRow := CursorBottom();
      }

      var drawn := DrawRows(rows, topRow, DrawnCount(topRow, |rows|, innerDy), cursor, selectedRow, |columnWidths|);
      plan := TablePlan(columnX, headerCells, drawn);
    }
  }

  /** Draw's first loop: each column starts where the widths before it add up to. */
  method ColumnPositions(widths: seq<int>) returns (columnX: seq<int>)
    ensures |columnX| == |widths|
    ensures forall i :: 0 <= i < |widths| ==> columnX[i] == Sum(widths[..i])
  {
    columnX := [];
    var cur := 0;
    for i := 0 to |widths|
      invariant |columnX| == i && cur == Sum(widths[..i])
      invariant forall j :: 0 <= j < i ==> columnX[j] == Sum(widths[..j])
    {
      columnX := columnX + [cur];
      assert widths[..i + 1][..i] == widths[..i];
      cur := cur + widths[i];
    }
  }

  /** Draw's header loop: each header text on line 0, at its column's position. */
  method HeaderLabels(header: seq<string>, columnX: seq<int>) returns (cells: seq<Label>)
    requires |header| <= |columnX|
    ensures |cells| == |header|
    ensures forall i :: 0 <= i < |header| ==> cells[i] == Label(columnX[i], 0, header[i])
  {
    cells := [];
    for i := 0 to |header|
      invariant |cells| == i
      invariant forall j :: 0 <= j < i ==> cells[j] == Label(columnX[j], 0, header[j])
    {
      cells := cells + [Label(columnX[i], 0, header[i])];
    }
  }

  /**
   * Draw's row loop: count rows from top, each on the line below the one
   * before, highlighted when the cursor is on and it is the selected row,
   * cut to width cells.
   */
  method DrawRows(rows: seq<seq<string>>, top: int, count: nat, cursor: bool, selected: int, width: nat)
    returns (drawn: seq<DrawnRow>)
    requires count > 0 ==> 0 <= top && top + count <= |rows|
    requires RowsHaveCells(rows, top, count, width)
    ensures |drawn| == count
    ensures forall k :: 0 <= k < count ==>
      drawn[k] == DrawnRow(top + k, 1 + k, cursor && top + k == selected, rows[top + k][..width])
  {
    drawn := [];
    for n := 0 to count
      invariant |drawn| == n
      invariant forall k :: 0 <= k < n ==>
        drawn[k] == DrawnRow(top + k, 1 + k, cursor && top + k == selected, rows[top + k][..width])
    {
      var idx := top + n;
      var row := rows[idx];
      assert |row| >= width;
      var cells: seq<string> := [];
      for i := 0 to width
        invariant cells == row[..i]
      {
        cells := cells + [row[i]];
      }
      drawn := drawn + [DrawnRow(idx, 1 + n, cursor && idx == selected, cells)];
    }
  }

  /** After a scroll of a table with rows, the selection is one of them. */
  lemma ScrollStaysInRange(selected: int, i: int, rowCount: nat)
    requires rowCount > 0
    ensures 0 <= Scrolled(selected, i, rowCount) < rowCount
    ensures Scrolled(Scrolled(selected, i, rowCount), 0, rowCount) == Scrolled(selected, i, rowCount)
  {
  }

  /** A selection on the visible page is still visible after one step and a Draw. */
  lemma StepKeepsSelectionVisible(top: int, selected: int, i: int, rowCount: nat, dy: int)
    requires dy > 2 && rowCount > 0 && (i == 1 || i == -1)
    requires 0 <= top <= selected <= top + dy - 2
    ensures var s := Scrolled(selected, i, rowCount);
      var t := Followed(top, s, dy);
      && 0 <= t <= s && s - t < DrawnCount(t, rowCount, dy)
  {
  }

  /** Whatever the old first row, after a Draw the selection is on the page unless it ran past it. */
  lemma FollowedShowsSelection(top: int, selected: int, dy: int)
    requires dy > 2 && 0 <= top && 0 <= selected <= top + 2 * (dy - 2)
    ensures Followed(top, selected, dy) <= selected <= Followed(top, selected, dy) + dy - 2
  {
  }

  /** The first visible row jumps a whole page, not to just above the selection. */
  lemma FollowJumpsAPage()
    ensures Followed(0, 4, 5) == 3
    ensures Followed(0, 10, 5) == 3 && !(3 <= 10 <= 3 + 5 - 2)
  {
  }

  /**
   * A table just reset has no rows; a move down then selects -1, and the Draw
   * after it moves topRow to -1 and shows no row at all, for any rows set later.
   */
  lemma EmptyScrollDownHidesRows(dy: int, rowCount: nat)
    requires dy > 2
    ensures Scrolled(0, 1, 0) == -1
    ensures Followed(0, -1, dy) == -1
    ensures DrawnCount(-1, rowCount, dy) == 0
  {
  }

  /** When every row has a cell per column, whatever Draw shows has its cells. */
  lemma ShapedRowsDrawable(widths: seq<int>, rows: seq<seq<string>>, top: int, sel: int, dy: int)
    requires forall r :: r in rows ==> |r| == |widths|
    ensures var t := Followed(top, sel, dy);
      RowsHaveCells(rows, t, DrawnCount(t, |rows|, dy), |widths|)
  {
    forall j | 0 <= j < |rows|
      ensures |rows[j]| >= |widths|
    {
      assert rows[j] in rows;
    }
  }
}
