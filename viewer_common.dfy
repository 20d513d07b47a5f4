/**
 * What the three viewers of pkg/resource share: the table shape they produce,
 * the "no data" placeholder, the indent added to a name column, and the
 * running maximum of a column's length.
 */
module ViewerCommon {
  import opened Text
  import opened Util

  /** GetTableShape's four results: title, header, column widths and rows. */
  datatype TableShape = TableShape(title: string, header: seq<string>, widths: seq<int>, rows: seq<seq<string>>)

  const IndentSize: int := 4

  const EmptyHeader: seq<string> := ["Message"]

  const EmptyRows: seq<seq<string>> := [["No data points"]]

  function EmptyWidths(dx: int): seq<int>
  {
    [dx - 1]
  }

  /** Header, widths and every row have one entry per column. */
  ghost predicate WellShaped(shape: TableShape)
  {
    |shape.header| == |shape.widths| && forall r :: r in shape.rows ==> |r| == |shape.widths|
  }

  /**
   * A name column's width: at least minWidth; otherwise as wide as the longest
   * name plus the indent, but no wider than what the other columns leave.
   */
  function NameWidth(dx: int, maxLen: int, minWidth: int, reserved: int): (w: int)
    ensures w >= minWidth
    ensures w == minWidth || w <= dx - reserved
    ensures w == minWidth || w <= maxLen + IndentSize
    ensures w >= maxLen + IndentSize || w >= dx - reserved
  {
    IntMax(minWidth, IntMin(dx - reserved, maxLen + IndentSize))
  }

  /** The largest byte length in column col, 0 for no rows. */
  function MaxLen(rows: seq<seq<string>>, col: nat): nat
    requires forall r :: r in rows ==> |r| > col
  {
    if |rows| == 0 then 0
    else IntMax(MaxLen(rows[..|rows| - 1], col), Utf8Len(rows[|rows| - 1][col]))
  }

  /** MaxLen bounds every entry of the column and, for some rows, is the length of one of them. */
  lemma {:induction false} MaxLenIsMaximum(rows: seq<seq<string>>, col: nat)
    requires forall r :: r in rows ==> |r| > col
    ensures forall i :: 0 <= i < |rows| ==> Utf8Len(rows[i][col]) <= MaxLen(rows, col)
    ensures |rows| > 0 ==> exists i :: 0 <= i < |rows| && Utf8Len(rows[i][col]) == MaxLen(rows, col)
  {
    if |rows| > 0 {
      var init := rows[..|rows| - 1];
      assert forall r :: r in init ==> r in rows;
      MaxLenIsMaximum(init, col);
      if |init| > 0 && MaxLen(init, col) > Utf8Len(rows[|rows| - 1][col]) {
        var i :| 0 <= i < |init| && Utf8Len(init[i][col]) == MaxLen(init, col);
        assert rows[i] == init[i];
      }
      forall i | 0 <= i < |rows| - 1 ensures Utf8Len(rows[i][col]) <= MaxLen(rows, col) {
        assert rows[i] == init[i];
      }
    }
  }

  /** One more row: MaxLen takes the larger of the old maximum and the new entry. */
  lemma MaxLenAppend(rows: seq<seq<string>>, row: seq<string>, col: nat)
    requires forall r :: r in rows ==> |r| > col
    requires |row| > col
    ensures forall r :: r in rows + [row] ==> |r| > col
    ensures MaxLen(rows + [row], col) == IntMax(MaxLen(rows, col), Utf8Len(row[col]))
  {
    assert (rows + [row])[..|rows|] == rows;
  }

  /** A name column sized by NameWidth for the column's longest entry fits every entry, unless the room runs out. */
  lemma NameWidthFitsAll(rows: seq<seq<string>>, col: nat, dx: int, minWidth: int, reserved: int)
    requires forall r :: r in rows ==> |r| > col
    ensures var w := NameWidth(dx, MaxLen(rows, col), minWidth, reserved);
      forall i :: 0 <= i < |rows| ==> Utf8Len(rows[i][col]) + IndentSize <= w || w >= dx - reserved
  {
    MaxLenIsMaximum(rows, col);
  }

  /** Growing a prefix of the rows by the next row. */
  lemma PrefixGrows(all: seq<seq<string>>, i: nat)
    requires i < |all|
    ensures all[..i + 1] == all[..i] + [all[i]]
  {
  }
}
