/** pkg/resource/node_viewer.go: the Node view, one row per node, sorted by node name. */
module NodeViewer {
  import opened Text
  import opened Util
  import opened Sorting
  import opened ViewerCommon
  import opened NodeResources

  const Title: string := "\U{2388} Node \U{2388}"

  const Header: seq<string> := ["NODE", "CPU(A)", "CPU(U)", "%CPU", "Memory(A)", "Memory(U)", "%Memory"]

  /** nodeWidthFn: a node column of at least 50, then six columns of 10. */
  function Widths(dx: int, maxLen: int): (w: seq<int>)
    ensures |w| == |Header| && w[0] >= 50 && forall i :: 1 <= i < |w| ==> w[i] == 10
    ensures w[0] == NameWidth(dx, maxLen, 50, 20)
  {
    [NameWidth(dx, maxLen, 50, 20), 10, 10, 10, 10, 10, 10]
  }

  function Rows(s: seq<NodeResource>, pct: Percentages): seq<seq<string>>
  {
    seq(|s|, i requires 0 <= i < |s| => s[i].ToRow(pct))
  }

  function Shape(s: seq<NodeResource>, dx: int, pct: Percentages): TableShape
  {
    var rows := Rows(s, pct);
    if |s| == 0 then TableShape(Title, EmptyHeader, EmptyWidths(dx), EmptyRows)
    else TableShape(Title, Header, Widths(dx, MaxLen(rows, 0)), rows)
  }

  /**
   * A non-empty slice gives one row per node, in slice order, under the
   * seven-column header, with a node column wide enough for every name unless
   * the room runs out; an empty one gives the placeholder.
   */
  lemma ShapeFacts(s: seq<NodeResource>, dx: int, pct: Percentages)
    ensures WellShaped(Shape(s, dx, pct)) && Shape(s, dx, pct).title == Title
    ensures |s| == 0 ==>
      Shape(s, dx, pct).header == EmptyHeader && Shape(s, dx, pct).widths == [dx - 1]
      && Shape(s, dx, pct).rows == EmptyRows
    ensures |s| > 0 ==> var shape := Shape(s, dx, pct);
      && shape.header == Header && |shape.rows| == |s|
      && (forall i :: 0 <= i < |s| ==> shape.rows[i] == s[i].ToRow(pct))
      && shape.widths[0] >= 50
      && forall i :: 0 <= i < |s| ==>
           Utf8Len(s[i].nodeName) + IndentSize <= shape.widths[0] || shape.widths[0] >= dx - 20
  {
    if |s| > 0 {
      MaxLenIsMaximum(Rows(s, pct), 0);
    }
  }

  method GetTableShape(s: seq<NodeResource>, dx: int, pct: Percentages) returns (shape: TableShape)
    ensures shape == Shape(s, dx, pct)
  {
    var rows: seq<seq<string>> := [];
    var maxLen := 0;
    for i := 0 to |s|
      invariant rows == Rows(s, pct)[..i]
      invariant forall r :: r in rows ==> |r| > 0
      invariant maxLen == MaxLen(rows, 0)
    {
      var row := s[i].ToRow(pct);
      MaxLenAppend(rows, row, 0);
      PrefixGrows(Rows(s, pct), i);
      rows := rows + [row];
      maxLen := IntMax(maxLen, Utf8Len(row[0]));
    }
    assert rows == Rows(s, pct);
    shape := TableShape(Title, Header, Widths(dx, maxLen), rows);
    if |s| == 0 {
      shape := shape.(header := EmptyHeader, widths := EmptyWidths(dx), rows := EmptyRows);
    }
  }

  /** GetRows: the rows of GetTableShape, whatever the width, placeholder included. */
  method GetRows(s: seq<NodeResource>, pct: Percentages) returns (rows: seq<seq<string>>)
    ensures forall dx :: rows == Shape(s, dx, pct).rows
  {
    if |s| == 0 {
      return EmptyRows;
    }
    rows := [];
    for i := 0 to |s|
      invariant |rows| == i && forall k :: 0 <= k < i ==> rows[k] == s[k].ToRow(pct)
    {
      rows := rows + [s[i].ToRow(pct)];
    }
    assert rows == Rows(s, pct);
  }

  function Key(r: NodeResource): SortKey
  {
    SortKey(r.nodeName, "")
  }

  /** Sorted by Key is exactly "node names ascending". */
  lemma SortedMeansByNodeName(s: seq<NodeResource>)
    ensures SortedBy(s, Key) <==> forall i, j :: 0 <= i < j < |s| ==> !LexLess(s[j].nodeName, s[i].nodeName)
  {
    assert !LexLess("", "");
  }

  method SortRows(a: array<NodeResource>)
    modifies a
    ensures SortedPermutation(a[..], old(a[..]), Key)
  {
    SortByKey(a, Key);
  }
}
