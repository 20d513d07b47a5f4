/**
 * pkg/resource/resource_viewer.go: the three table types and the ring that
 * cycles through them, the shape a table is reset to when the type changes,
 * and the All view, one row per container, sorted by pod and then container.
 */
module ResourceViewer {
  import opened Text
  import opened Util
  import opened Sorting
  import opened ViewerCommon
  import opened Resource
  import SummarizedViewer
  import NodeViewer
  import Summarized
  import NodeResources

  const SummarizedType: string := "Summarized"
  const AllType: string := "All"
  const NodeType: string := "Node"

  /** The types in the order the ring visits them. */
  const Types: seq<string> := [SummarizedType, AllType, NodeType]

  const AllTitle: string := "\U{2388}  Pod/Container \U{2388} "

  const AllHeader: seq<string> :=
    ["POD", "CONTAINER", "CPU(U)", "CPU(L)", "CPU(R)", "Memory(U)", "Memory(L)", "Memory(R)"]

  /** allWidthFn: a pod column of at least 40, a container column of at least 30, then six of 10. */
  function AllWidths(dx: int, maxLen0: int, maxLen1: int): (w: seq<int>)
    ensures |w| == |AllHeader| && w[0] >= 40 && w[1] >= 30
    ensures forall i :: 2 <= i < |w| ==> w[i] == 10
    ensures w[0] == NameWidth(dx, maxLen0, 40, 60) && w[1] == NameWidth(dx, maxLen1, 30, 60)
  {
    [NameWidth(dx, maxLen0, 40, 60), NameWidth(dx, maxLen1, 30, 60), 10, 10, 10, 10, 10, 10]
  }

  // ---------------------------------------------------------------- the ring

  /** A container/ring of strings: its slots in Next order and the current one. */
  datatype Ring = Ring(slots: seq<string>, pos: int)
  {
    ghost predicate Valid()
    {
      0 <= pos < |slots|
    }

    function Value(): string
      requires Valid()
    {
      slots[pos]
    }

    /** Move(n): n steps forward, or -n steps back when n is negative. */
    function Move(n: int): (r: Ring)
      requires Valid()
      ensures r.Valid() && r.slots == slots
      ensures r.pos == (pos + n) % |slots|
    {
      Ring(slots, (pos + n) % |slots|)
    }
  }

  /** Moving around the whole ring comes back to the same slot. */
  lemma MoveFullCircle(r: Ring)
    requires r.Valid()
    ensures r.Move(|r.slots|) == r && r.Move(-|r.slots|) == r
  {
    ModMultiple(r.pos, 1, |r.slots|);
    ModMultiple(r.pos, -1, |r.slots|);
  }

  /** One step back undoes one step forward, and the other way round. */
  lemma MoveInverse(r: Ring, n: int)
    requires r.Valid()
    ensures r.Move(n).Move(-n) == r
    ensures r.Move(-n).Move(n) == r
  {
    MoveBack(r, n);
    MoveBack(r, -n);
  }

  lemma MoveBack(r: Ring, n: int)
    requires r.Valid()
    ensures r.Move(n).Move(-n) == r
  {
    var m := r.Move(n);
    ModAddCancel(r.pos, n, |r.slots|);
    assert m.Move(-n).pos == r.pos;
  }

  lemma ModAddCancel(p: int, n: int, k: int)
    requires 0 <= p < k
    ensures ((p + n) % k + -n) % k == p
  {
    var q := (p + n) / k;
    assert (p + n) % k + -n == p + (-q) * k;
    ModMultiple(p, -q, k);
  }

  /** Adding a multiple of k does not change a remainder already below k. */
  lemma ModMultiple(p: int, q: int, k: int)
    requires 0 <= p < k
    ensures (p + q * k) % k == p
  {
    var x := p + q * k;
    var d, r := x / k, x % k;
    assert (d - q) * k == p - r;
    if d - q >= 1 {
      MulAtLeast(d - q, k);
    } else if q - d >= 1 {
      MulAtLeast(q - d, k);
    }
  }

  lemma MulAtLeast(a: int, k: int)
    requires a >= 1 && k > 0
    ensures a * k >= k
  {
  }

  /**
   * TableTypeCircle: a three-slot ring filled by storing each type and
   * moving on, so it ends on the slot holding Summarized again.
   */
  method TableTypeCircle() returns (circle: Ring)
    ensures circle.Valid() && circle.slots == Types && circle.Value() == SummarizedType
  {
    circle := Ring(["", "", ""], 0);
    for i := 0 to |Types|
      invariant |circle.slots| == |Types| && circle.pos == i % |Types|
      invariant circle.slots[..i] == Types[..i]
    {
      circle := circle.(slots := circle.slots[circle.pos := Types[i]]);
      circle := circle.Move(1);
    }
    assert circle.slots == circle.slots[..3];
  }

  /** Moving forward visits Summarized, All, Node and returns to Summarized. */
  lemma RotationOrder(circle: Ring)
    requires circle.Valid() && circle.slots == Types && circle.Value() == SummarizedType
    ensures circle.Move(1).Value() == AllType
    ensures circle.Move(1).Move(1).Value() == NodeType
    ensures circle.Move(1).Move(1).Move(1) == circle
    ensures circle.Move(-1).Value() == NodeType
  {
  }

  /** On the type ring, from any slot, a step forward goes to the next type, and three steps come back. */
  lemma TypeRingSteps(r: Ring)
    requires r.Valid() && r.slots == Types
    ensures r.Value() == SummarizedType ==> r.Move(1).Value() == AllType
    ensures r.Value() == AllType ==> r.Move(1).Value() == NodeType
    ensures r.Value() == NodeType ==> r.Move(1).Value() == SummarizedType
    ensures r.Move(1).Move(1).Move(1) == r
  {
    assert r.pos == 0 || r.pos == 1 || r.pos == 2;
  }

  // ---------------------------------------------------------------- reset shape

  /**
   * ResetTableShapeFrom: the title, header and widths of an empty table of the
   * given type; a type that is none of the three falls back to Summarized.
   */
  function ResetTableShapeFrom(typ: string, dx: int): (string, seq<string>, seq<int>)
  {
    if typ == SummarizedType then (SummarizedViewer.Title, SummarizedViewer.Header, SummarizedViewer.Widths(dx, 0))
    else if typ == AllType then (AllTitle, AllHeader, AllWidths(dx, 0, 0))
    else if typ == NodeType then (NodeViewer.Title, NodeViewer.Header, NodeViewer.Widths(dx, 0))
    else (SummarizedViewer.Title, SummarizedViewer.Header, SummarizedViewer.Widths(dx, 0))
  }

  /**
   * With no names to fit, every column gets its minimum width whatever the
   * width of the screen, and the header has one entry per column.
   */
  lemma ResetShapeIsMinimal(typ: string, dx: int)
    ensures var (title, header, widths) := ResetTableShapeFrom(typ, dx);
      && |header| == |widths|
      && (typ == AllType ==> title == AllTitle && widths == [40, 30, 10, 10, 10, 10, 10, 10])
      && (typ == NodeType ==> title == NodeViewer.Title && widths == [50, 10, 10, 10, 10, 10, 10])
      && (typ != AllType && typ != NodeType ==>
            title == SummarizedViewer.Title && header == SummarizedViewer.Header && widths == [50, 10, 10])
  {
  }

  /** A reset table carries the title and header its viewer later fills in for a non-empty slice. */
  lemma ResetAgreesWithViewers(dx: int, sumS: seq<Summarized.SummarizedResource>, allS: seq<Resource>,
                               nodeS: seq<NodeResources.NodeResource>, pct: NodeResources.Percentages)
    ensures |sumS| > 0 ==>
      && ResetTableShapeFrom(SummarizedType, dx).0 == SummarizedViewer.Shape(sumS, dx).title
      && ResetTableShapeFrom(SummarizedType, dx).1 == SummarizedViewer.Shape(sumS, dx).header
    ensures |allS| > 0 ==>
      && ResetTableShapeFrom(AllType, dx).0 == Shape(allS, dx).title
      && ResetTableShapeFrom(AllType, dx).1 == Shape(allS, dx).header
    ensures |nodeS| > 0 ==>
      && ResetTableShapeFrom(NodeType, dx).0 == NodeViewer.Shape(nodeS, dx, pct).title
      && ResetTableShapeFrom(NodeType, dx).1 == NodeViewer.Shape(nodeS, dx, pct).header
  {
  }

  // ---------------------------------------------------------------- the All view

  function Rows(s: seq<Resource>): seq<seq<string>>
  {
    seq(|s|, i requires 0 <= i < |s| => s[i].ToRow())
  }

  function Shape(s: seq<Resource>, dx: int): TableShape
  {
    var rows := Rows(s);
    if |s| == 0 then TableShape(AllTitle, EmptyHeader, EmptyWidths(dx), EmptyRows)
    else TableShape(AllTitle, AllHeader, AllWidths(dx, MaxLen(rows, 0), MaxLen(rows, 1)), rows)
  }

  /** Each row has the eight columns, led by the pod and container names. */
  lemma RowsFacts(s: seq<Resource>)
    ensures |Rows(s)| == |s|
    ensures forall i :: 0 <= i < |s| ==> Rows(s)[i][0] == s[i].podName && Rows(s)[i][1] == s[i].containerName
    ensures forall r :: r in Rows(s) ==> |r| == |AllHeader|
  {
    var rows := Rows(s);
    forall r | r in rows
      ensures |r| == |AllHeader|
    {
      var i :| 0 <= i < |rows| && rows[i] == r;
      assert r == s[i].ToRow();
    }
  }

  /**
   * A non-empty slice gives one row per container, in slice order, under the
   * eight-column header, with pod and container columns wide enough for every
   * name unless the room runs out; an empty one gives the placeholder.
   */
  lemma ShapeFacts(s: seq<Resource>, dx: int)
    ensures WellShaped(Shape(s, dx)) && Shape(s, dx).title == AllTitle
    ensures |s| == 0 ==>
      Shape(s, dx).header == EmptyHeader && Shape(s, dx).widths == [dx - 1] && Shape(s, dx).rows == EmptyRows
    ensures |s| > 0 ==> var shape := Shape(s, dx);
      && shape.header == AllHeader && |shape.rows| == |s|
      && (forall i :: 0 <= i < |s| ==> shape.rows[i] == s[i].ToRow())
      && shape.widths[0] >= 40 && shape.widths[1] >= 30
      && (forall i :: 0 <= i < |s| ==>
            Utf8Len(s[i].podName) + IndentSize <= shape.widths[0] || shape.widths[0] >= dx - 60)
      && forall i :: 0 <= i < |s| ==>
           Utf8Len(s[i].containerName) + IndentSize <= shape.widths[1] || shape.widths[1] >= dx - 60
  {
    var rows := Rows(s);
    RowsFacts(s);
    if |s| > 0 {
      NameWidthFitsAll(rows, 0, dx, 40, 60);
      NameWidthFitsAll(rows, 1, dx, 30, 60);
    }
  }

  method GetTableShape(s: seq<Resource>, dx: int) returns (shape: TableShape)
    ensures shape == Shape(s, dx)
  {
    var rows: seq<seq<string>> := [];
    var maxLen0, maxLen1 := 0, 0;
    for i := 0 to |s|
      invariant rows == Rows(s)[..i]
      invariant forall r :: r in rows ==> |r| > 1
      invariant maxLen0 == MaxLen(rows, 0) && maxLen1 == MaxLen(rows, 1)
    {
      var row := s[i].ToRow();
      MaxLenAppend(rows, row, 0);
      MaxLenAppend(rows, row, 1);
      PrefixGrows(Rows(s), i);
      rows := rows + [row];
      maxLen0 := IntMax(maxLen0, Utf8Len(row[0]));
      maxLen1 := IntMax(maxLen1, Utf8Len(row[1]));
    }
    assert rows == Rows(s);
    shape := TableShape(AllTitle, AllHeader, AllWidths(dx, maxLen0, maxLen1), rows);
    if |s| == 0 {
      shape := shape.(header := EmptyHeader, widths := EmptyWidths(dx), rows := EmptyRows);
    }
  }

  function Key(r: Resource): SortKey
  {
    SortKey(r.podName, r.containerName)
  }

  /** Sorted by Key is exactly "pod names ascending, container names ascending within a pod". */
  lemma SortedMeansByPodThenContainer(s: seq<Resource>)
    ensures SortedBy(s, Key) <==> forall i, j :: 0 <= i < j < |s| ==>
      !LexLess(s[j].podName, s[i].podName)
      && (s[j].podName == s[i].podName ==> !LexLess(s[j].containerName, s[i].containerName))
  {
    forall a, b {
      KeyLessLexicographic(a, b);
    }
  }

  method SortRows(a: array<Resource>)
    modifies a
    ensures SortedPermutation(a[..], old(a[..]), Key)
  {
    SortByKey(a, Key);
  }
}
