/**
 * pkg/ui/graph.go: a line graph of the samples that fit the inner width, an
 * optional upper-limit line, and up to three labels on consecutive lines.
 */
module GraphWidget {
  import opened Wrappers

  /**
   * One stroke of the data line, from column x0 at sample value v0 to column
   * x1 at v1 (the screen heights, value / limit * (height - 5), are left out).
   */
  datatype Segment = Segment(x0: int, v0: real, x1: int, v1: real)

  /** A label at column x of line y in the given color. */
  datatype GraphLabel = GraphLabel(x: int, y: int, text: string, color: int)

  /** What one Draw puts on the screen. */
  datatype GraphPlan = GraphPlan(limitLine: bool, limit: real, segments: seq<Segment>, labels: seq<GraphLabel>)

  /**
   * The samples drawn for an inner width of dx: all of them when they fit,
   * otherwise the dx samples before the newest one.
   */
  function Window(data: seq<real>, dx: int): (w: seq<real>)
    requires dx >= 0
    ensures |w| == if |data| > dx then dx else |data|
  {
    if |data| > dx then data[|data| - 1 - dx .. |data| - 1] else data
  }

  /** Once the samples overflow the width, the newest one is not drawn: the window and it make up the last dx + 1. */
  lemma WindowDropsNewest(data: seq<real>, dx: int)
    requires dx >= 0
    ensures |data| <= dx ==> Window(data, dx) == data
    ensures |data| > dx ==> Window(data, dx) + [data[|data| - 1]] == data[|data| - 1 - dx..]
  {
  }

  /** A concrete case: three samples on a width of two show the first two, not the newest. */
  lemma WindowExample()
    ensures Window([1.0, 2.0, 3.0], 2) == [1.0, 2.0]
  {
  }

  /**
   * The strokes Draw makes for a window w, walking from the newest sample
   * back: stroke i runs from column i at the value of sample i + 1 (the newest
   * sample itself for the last stroke) to column i + 1 at the value of sample i.
   */
  function Segments(w: seq<real>): (segs: seq<Segment>)
    ensures |segs| == |w|
    ensures forall i :: 0 <= i < |w| ==> segs[i].x0 == i && segs[i].x1 == i + 1 && segs[i].v1 == w[i]
  {
    seq(|w|, i requires 0 <= i < |w| => Segment(i, if i + 1 < |w| then w[i + 1] else w[i], i + 1, w[i]))
  }

  /**
   * Sample i + 1 starts stroke i and ends stroke i + 1, so two neighbouring
   * strokes meet at a column only when the samples on both sides of it agree.
   */
  lemma SegmentsMeetOnlyOnEqualNeighbours(w: seq<real>, i: int)
    requires 0 <= i && i + 2 < |w|
    ensures Segments(w)[i].v0 == w[i + 1] && Segments(w)[i + 1].v1 == w[i + 1]
    ensures Segments(w)[i].x1 == Segments(w)[i + 1].x0
    ensures Segments(w)[i].v1 == Segments(w)[i + 1].v0 <==> w[i] == w[i + 2]
  {
  }

  /** A concrete case: for samples 0, 10, 0 the strokes at column 2 are at 10 and 0. */
  lemma SegmentsGapExample()
    ensures Segments([0.0, 10.0, 0.0]) ==
      [Segment(0, 10.0, 1, 0.0), Segment(1, 0.0, 2, 10.0), Segment(2, 0.0, 3, 0.0)]
    ensures Segments([0.0, 10.0, 0.0])[1].x1 == Segments([0.0, 10.0, 0.0])[2].x0
    ensures Segments([0.0, 10.0, 0.0])[1].v1 != Segments([0.0, 10.0, 0.0])[2].v0
  {
  }

  /** Draw's backward loop over the window, carrying the previous sample's value. */
  method DrawSegments(w: seq<real>) returns (segments: seq<Segment>)
    requires |w| > 0
    ensures segments == Segments(w)
  {
    var previous := w[|w| - 1];
    var i := |w| - 1;
    var tail: seq<Segment> := [];
    while i >= 0
      invariant -1 <= i < |w|
      invariant previous == if i + 1 < |w| then w[i + 1] else w[|w| - 1]
      invariant tail == Segments(w)[i + 1..]
    {
      tail := [Segment(i, previous, i + 1, w[i])] + tail;
      previous := w[i];
      i := i - 1;
    }
    segments := tail;
  }

  /** The strokes of a connected line: stroke i joins sample i to sample i + 1. */
  function JoinedSegments(w: seq<real>): (segs: seq<Segment>)
    ensures |segs| == if |w| == 0 then 0 else |w| - 1
  {
    if |w| == 0 then [] else seq(|w| - 1, i requires 0 <= i < |w| - 1 => Segment(i, w[i], i + 1, w[i + 1]))
  }

  /** Every sample is a point of the joined line, and neighbouring strokes meet. */
  lemma JoinedSegmentsConnect(w: seq<real>)
    ensures var segs := JoinedSegments(w);
      && (forall i :: 0 <= i < |segs| ==> segs[i].v0 == w[i] && segs[i].v1 == w[i + 1])
      && forall i :: 0 <= i && i + 1 < |segs| ==>
           segs[i].x1 == segs[i + 1].x0 && segs[i].v1 == segs[i + 1].v0
  {
  }

  /** The corrected loop: walking back from the newest sample, each stroke ends at the sample after it. */
  method DrawJoinedSegments(w: seq<real>) returns (segments: seq<Segment>)
    ensures segments == JoinedSegments(w)
  {
    if |w| == 0 {
      return [];
    }
    var all := JoinedSegments(w);
    var previous := w[|w| - 1];
    var i := |w| - 2;
    var tail: seq<Segment> := [];
    while i >= 0
      invariant -1 <= i <= |w| - 2
      invariant previous == w[i + 1]
      invariant tail == all[i + 1..]
    {
      assert all[i] == Segment(i, w[i], i + 1, previous);
      assert all[i..] == [all[i]] + all[i + 1..];
      tail := [Segment(i, w[i], i + 1, previous)] + tail;
      previous := w[i];
      i := i - 1;
    }
    segments := tail;
  }

  /** The last dx samples, newest included. */
  function LatestWindow(data: seq<real>, dx: int): (w: seq<real>)
    requires dx >= 0
    ensures |w| == if |data| > dx then dx else |data|
  {
    if |data| > dx then data[|data| - dx..] else data
  }

  /** The corrected window always ends with the newest sample and is a suffix of the samples. */
  lemma LatestWindowKeepsNewest(data: seq<real>, dx: int)
    requires dx >= 1 && |data| > 0
    ensures var w := LatestWindow(data, dx);
      && w[|w| - 1] == data[|data| - 1]
      && w == data[|data| - |w|..]
  {
  }

  /**
   * The labels: the header at column 1, then the limit and the data label at
   * column 2, each only when non-empty, on consecutive lines from line 1; none
   * when the inner height is below 3.
   */
  function Labels(dy: int, header: string, limit: string, data: string,
                  nameColor: int, limitColor: int, dataColor: int): seq<GraphLabel>
  {
    if dy < 3 then []
    else
      var l0 := if header != "" then [GraphLabel(1, 1, header, nameColor)] else [];
      var l1 := if limit != "" then [GraphLabel(2, 1 + |l0|, limit, limitColor)] else [];
      var l2 := if data != "" then [GraphLabel(2, 1 + |l0| + |l1|, data, dataColor)] else [];
      l0 + l1 + l2
  }

  /** The non-empty labels in order header, limit, data, one per line from line 1. */
  lemma LabelsFacts(dy: int, header: string, limit: string, data: string, c0: int, c1: int, c2: int)
    ensures var ls := Labels(dy, header, limit, data, c0, c1, c2);
      && (dy < 3 ==> ls == [])
      && (forall k :: 0 <= k < |ls| ==> ls[k].y == 1 + k && ls[k].text != "")
      && (dy >= 3 ==> |ls| == (if header != "" then 1 else 0) + (if limit != "" then 1 else 0) + (if data != "" then 1 else 0))
      && (dy >= 3 && header != "" ==> ls[0] == GraphLabel(1, 1, header, c0))
      && (dy >= 3 && data != "" ==> ls[|ls| - 1] == GraphLabel(2, |ls|, data, c2))
  {
  }

  /** A graph's whole state. */
  datatype GraphView = GraphView(
    title: string, data: seq<real>, upperLimit: real, drawUpperLimit: bool,
    labelHeader: string, labelData: string, labelUpperLimit: string,
    dataColor: int, limitColor: int, labelNameColor: int, innerDx: int, innerDy: int)

  /** Reset on a view: samples, limit and labels cleared, the rest kept. */
  function ResetView(v: GraphView): (r: GraphView)
    ensures r.data == [] && r.upperLimit == 0.0 && r.labelHeader == "" && r.labelData == "" && r.labelUpperLimit == ""
    ensures r.(data := v.data, upperLimit := v.upperLimit, labelHeader := v.labelHeader,
               labelData := v.labelData, labelUpperLimit := v.labelUpperLimit) == v
  {
    v.(data := [], upperLimit := 0.0, labelHeader := "", labelData := "", labelUpperLimit := "")
  }

  /**
   * What an update of the monitor does to a graph: a new name label, one more
   * sample, its usage label, the new limit with the limit line off, and the
   * limit label when one is given.
   */
  function Plot(v: GraphView, header: string, sample: real, dataLabel: string,
                limit: real, limitLabel: Option<string>): (r: GraphView)
    ensures r.data == v.data + [sample] && r.labelHeader == header && r.labelData == dataLabel
    ensures r.upperLimit == limit && !r.drawUpperLimit
    ensures r.labelUpperLimit == if limitLabel.Some? then limitLabel.value else v.labelUpperLimit
    ensures r.title == v.title && r.dataColor == v.dataColor && r.limitColor == v.limitColor
    ensures r.labelNameColor == v.labelNameColor && r.innerDx == v.innerDx && r.innerDy == v.innerDy
  {
    var w := v.(labelHeader := header, data := v.data + [sample], labelData := dataLabel,
                upperLimit := limit, drawUpperLimit := false);
    if limitLabel.Some? then w.(labelUpperLimit := limitLabel.value) else w
  }

  class Graph {
    var title: string
    var data: seq<real>
    var upperLimit: real
    var drawUpperLimit: bool
    var labelHeader: string
    var labelData: string
    var labelUpperLimit: string
    var dataColor: int
    var limitColor: int
    var labelNameColor: int
    /** Width and height of the inner rectangle, set by the layout. */
    var innerDx: int
    var innerDy: int

    constructor ()
      ensures title == "" && data == [] && upperLimit == 0.0 && !drawUpperLimit
      ensures labelHeader == "" && labelData == "" && labelUpperLimit == ""
      ensures dataColor == 0 && limitColor == 0 && labelNameColor == 0
      ensures innerDx == 0 && innerDy == 0
    {
      title, data, upperLimit, drawUpperLimit := "", [], 0.0, false;
      labelHeader, labelData, labelUpperLimit := "", "", "";
      dataColor, limitColor, labelNameColor := 0, 0, 0;
      innerDx, innerDy := 0, 0;
    }

    function View(): GraphView
      reads this
    {
      GraphView(title, data, upperLimit, drawUpperLimit, labelHeader, labelData, labelUpperLimit,
                dataColor, limitColor, labelNameColor, innerDx, innerDy)
    }

    /** Reset: no samples, no limit, no labels; colors and the limit-line switch stay. */
    method Reset()
      modifies this`data, this`upperLimit, this`labelHeader, this`labelData, this`labelUpperLimit
      ensures View() == ResetView(old(View()))
    {
      data := [];
      upperLimit := 0.0;
      labelHeader, labelData, labelUpperLimit := "", "", "";
    }

    /** The assignments the monitor makes to a graph on an update (Plot on the view). */
    method Push(header: string, sample: real, dataLabel: string, limit: real, limitLabel: Option<string>)
      modifies this`labelHeader, this`data, this`labelData, this`upperLimit, this`drawUpperLimit, this`labelUpperLimit
      ensures View() == Plot(old(View()), header, sample, dataLabel, limit, limitLabel)
    {
      labelHeader := header;
      data := data + [sample];
      labelData := dataLabel;
      upperLimit := limit;
      drawUpperLimit := false;
      if limitLabel.Some? {
        labelUpperLimit := limitLabel.value;
      }
    }

    /**
     * Draw, with the window and the strokes corrected: with samples, the limit
     * line when it is switched on and the joined line through the latest
     * samples that fit the width; then the labels.
     */
    method Draw() returns (plan: GraphPlan)
      requires innerDx >= 0
      ensures plan.limitLine <==> data != [] && drawUpperLimit
      ensures plan.limit == upperLimit
      ensures plan.segments == JoinedSegments(LatestWindow(data, innerDx))
      ensures plan.labels == Labels(innerDy, labelHeader, labelUpperLimit, labelData,
                                    labelNameColor, limitColor, dataColor)
    {
      var segments: seq<Segment> := [];
      var limitLine := false;
      if |data| != 0 {
        limitLine := drawUpperLimit;
        segments := DrawJoinedSegments(LatestWindow(data, innerDx));
      } else {
        assert LatestWindow(data, innerDx) == [];
      }
      var labels: seq<GraphLabel> := [];
      var stage := 1;
      if innerDy >= 3 {
        if labelHeader != "" {
          labels := labels + [GraphLabel(1, stage, labelHeader, labelNameColor)];
          stage := stage + 1;
        }
        if labelUpperLimit != "" {
          labels := labels + [GraphLabel(2, stage, labelUpperLimit, limitColor)];
          stage := stage + 1;
        }
        if labelData != "" {
          labels := labels + [GraphLabel(2, stage, labelData, dataColor)];
        }
      }
      plan := GraphPlan(limitLine, upperLimit, segments, labels);
    }
  }
}
