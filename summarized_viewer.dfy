/** pkg/resource/summarized_viewer.go: the Summarized view, one row per pod, sorted by pod name. */
module SummarizedViewer {
  import opened Text
  import opened Util
  import opened Sorting
  import opened ViewerCommon
  import opened Summarized

  const Title: string := "\U{2388}  Pod \U{2388} "

  const Header: seq<string> := ["POD", "CPU(U)", "Memory(U)"]

  /** summarizedWidthFn: a pod column of at least 50, then two columns of 10. */
  function Widths(dx: int, maxLen: int): (w: seq<int>)
    ensures |w| == |Header| && w[0] >= 50 && w[1] == 10 && w[2] == 10
    ensures w[0] == NameWidth(dx, maxLen, 50, 20)
  {
    [NameWidth(dx, maxLen, 50, 20), 10, 10]
  }

  function Rows(s: seq<SummarizedResource>): seq<seq<string>>
  {
    seq(|s|, i requires 0 <= i < |s| => s[i].ToRow())
  }

  function Shape(s: seq<SummarizedResource>, dx: int): TableShape
  {
    var rows := Rows(s);
    if |s| == 0 then TableShape(Title, EmptyHeader, EmptyWidths(dx), EmptyRows)
    else TableShape(Title, Header, Widths(dx, MaxLen(rows, 0)), rows)
  }

  /**
   * A non-empty slice gives one row per resource, in slice order, under the
   * three-column header, with a pod column wide enough for every pod name
   * unless the room runs out; an empty one gives the placeholder.
   */
  lemma ShapeFacts(s: seq<SummarizedResource>, dx: int)
    ensures WellShaped(Shape(s, dx)) && Shape(s, dx).title == Title
    ensures |s| == 0 ==>
      Shape(s, dx).header == EmptyHeader && Shape(s, dx).widths == [dx - 1] && Shape(s, dx).rows == EmptyRows
    ensures |s| > 0 ==> var shape := Shape(s, dx);
      && shape.header == Header && |shape.rows| == |s|
      && (forall i :: 0 <= i < |s| ==> shape.rows[i] == s[i].ToRow())
      && shape.widths[0] >= 50
      && forall i :: 0 <= i < |s| ==>
           Utf8Len(s[i].podName) + IndentSize <= shape.widths[0] || shape.widths[0] >= dx - 20
  {
    if |s| > 0 {
      MaxLenIsMaximum(Rows(s), 0);
    }
  }

  method GetTableShape(s: seq<SummarizedResource>, dx: int) returns (shape: TableShape)
    ensures shape == Shape(s, dx)
  {
    var rows: seq<seq<string>> := [];
    var maxLen := 0;
    for i := 0 to |s|
      invariant rows == Rows(s)[..i]
      invariant forall r :: r in rows ==> |r| > 0
      invariant maxLen == MaxLen(rows, 0)
    {
      var row := s[i].ToRow();
      MaxLenAppend(rows, row, 0);
      PrefixGrows(Rows(s), i);
      rows := rows + [row];
      maxLen := IntMax(maxLen, Utf8Len(row[0]));
    }
    assert rows == Rows(s);
    shape := TableShape(Title, Header, Widths(dx, maxLen), rows);
    if |s| == 0 {
      shape := shape.(header := EmptyHeader, widths := EmptyWidths(dx), rows := EmptyRows);
    }
  }

  function Key(r: SummarizedResource): SortKey
  {
    SortKey(r.podName, "")
  }

  /** Sorted by Key is exactly "pod names ascending". */
  lemma SortedMeansByPodName(s: seq<SummarizedResource>)
    ensures SortedBy(s, Key) <==> forall i, j :: 0 <= i < j < |s| ==> !LexLess(s[j].podName, s[i].podName)
  {
    assert !LexLess("", "");
  }

  method SortRows(a: array<SummarizedResource>)
    modifies a
    ensures SortedPermutation(a[..], old(a[..]), Key)
  {
    SortByKey(a, Key);
  }
}
