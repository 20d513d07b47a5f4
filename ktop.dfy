/**
 * pkg/ktop/ktop.go: the monitor behind the terminal UI. It owns one table and
 * two graphs, cycles the table through the Summarized, All and Node views,
 * and on every update fetches pods, nodes and their metrics, filters them by
 * the three name queries, joins metrics to specs by name, shows the rows of
 * the current view sorted by name and plots the selected row's usage.
 */
module Ktop {
  import opened Wrappers
  import opened Api
  import opened Util
  import opened Text
  import opened Sorting
  import opened ViewerCommon
  import opened Resource
  import opened Summarized
  import opened NodeResources
  import SummarizedViewer
  import NodeViewer
  import ResourceViewer
  import TableWidget
  import GraphWidget

  const ContainerLimitLabel: string := "ContainerLimits"
  const NodeAllocatableLabel: string := "NodeAllocatable"

  /** termui's colors. */
  const ColorGreen: int := 2
  const ColorYellow: int := 3
  const ColorWhite: int := 7

  const SelectedTableColor: int := ColorYellow
  const GraphLabelNameColor: int := ColorWhite
  const GraphLimitColor: int := ColorWhite
  const GraphDataColor: int := ColorGreen

  const CpuGraphTitle: string := "\U{2388} CPU Usage \U{2388}"
  const MemGraphTitle: string := "\U{2388} Memory Usage \U{2388}"

  // ---------------------------------------------------------------- fetchPodResources

  /** One resource per container metric whose container is in the pod's spec, in metrics order. */
  function ContainerResources(pod: Pod, cms: seq<ContainerMetrics>): seq<Resource>
  {
    if |cms| == 0 then []
    else
      var init := ContainerResources(pod, cms[..|cms| - 1]);
      var cm := cms[|cms| - 1];
      match Find(pod.containers, ContainerName, cm.name)
      case None => init
      case Some(c) => init + [NewResource(pod, c, cm)]
  }

  /** The usage of one resource type added up over the container metrics whose container is in the spec. */
  function UsageSum(pod: Pod, cms: seq<ContainerMetrics>, typ: ResourceName): int
  {
    if |cms| == 0 then 0
    else
      var cm := cms[|cms| - 1];
      UsageSum(pod, cms[..|cms| - 1], typ)
        + if Find(pod.containers, ContainerName, cm.name).Some? then QuantityOf(cm.usage, typ) else 0
  }

  /** The pod's summed usage, as the aggregation builds it: a cpu and a memory entry. */
  function SumUsageList(pod: Pod, cms: seq<ContainerMetrics>): ResourceList
  {
    map[ResourceCPU := UsageSum(pod, cms, ResourceCPU), ResourceMemory := UsageSum(pod, cms, ResourceMemory)]
  }

  /** The All view's resources for pod metrics that passed the pod query. */
  function AllResources(pms: seq<PodMetrics>, pods: seq<Pod>, containerQuery: string -> bool): seq<Resource>
  {
    if |pms| == 0 then []
    else
      var init := AllResources(pms[..|pms| - 1], pods, containerQuery);
      var pm := pms[|pms| - 1];
      match Find(pods, PodName, pm.name)
      case None => init
      case Some(p) => init + ContainerResources(p, Filtered(pm.containers, ContainerMetricsName, containerQuery))
  }

  /** The Summarized view's resources: one per pod metric whose pod exists. */
  function SummarizedResources(pms: seq<PodMetrics>, pods: seq<Pod>, containerQuery: string -> bool)
    : seq<SummarizedResource>
  {
    if |pms| == 0 then []
    else
      var init := SummarizedResources(pms[..|pms| - 1], pods, containerQuery);
      var pm := pms[|pms| - 1];
      match Find(pods, PodName, pm.name)
      case None => init
      case Some(p) =>
        init + [NewSummarizedResource(p, SumUsageList(p, Filtered(pm.containers, ContainerMetricsName, containerQuery)))]
  }

  /** The pod metrics whose pod exists, in order. */
  function KnownPods(pms: seq<PodMetrics>, pods: seq<Pod>): seq<PodMetrics>
  {
    if |pms| == 0 then []
    else KnownPods(pms[..|pms| - 1], pods) + if Find(pods, PodName, pms[|pms| - 1].name).Some? then [pms[|pms| - 1]] else []
  }

  /** Sum of one usage type over some resources. */
  function ResourceUsageSum(rs: seq<Resource>, typ: ResourceName): int
  {
    if |rs| == 0 then 0 else ResourceUsageSum(rs[..|rs| - 1], typ) + QuantityOf(rs[|rs| - 1].usage, typ)
  }

  /** Sum of one usage type over some summarized resources. */
  function SummarizedUsageSum(ss: seq<SummarizedResource>, typ: ResourceName): int
  {
    if |ss| == 0 then 0 else SummarizedUsageSum(ss[..|ss| - 1], typ) + QuantityOf(ss[|ss| - 1].usage, typ)
  }

  lemma {:induction false} ResourceUsageSumAppend(a: seq<Resource>, b: seq<Resource>, typ: ResourceName)
    ensures ResourceUsageSum(a + b, typ) == ResourceUsageSum(a, typ) + ResourceUsageSum(b, typ)
    decreases |b|
  {
    if |b| == 0 {
      assert a + b == a;
    } else {
      assert (a + b)[..|a + b| - 1] == a + b[..|b| - 1];
      ResourceUsageSumAppend(a, b[..|b| - 1], typ);
    }
  }

  /** A pod's summed usage is the sum of the usage its resources in the All view report. */
  lemma {:induction false} UsageSumIsResourceSum(pod: Pod, cms: seq<ContainerMetrics>, typ: ResourceName)
    ensures UsageSum(pod, cms, typ) == ResourceUsageSum(ContainerResources(pod, cms), typ)
  {
    if |cms| > 0 {
      var init := cms[..|cms| - 1];
      UsageSumIsResourceSum(pod, init, typ);
      var cm := cms[|cms| - 1];
      match Find(pod.containers, ContainerName, cm.name)
      case None =>
      case Some(c) =>
        ResourceUsageSumAppend(ContainerResources(pod, init), [NewResource(pod, c, cm)], typ);
        assert [NewResource(pod, c, cm)][..0] == [];
    }
  }

  /**
   * The Summarized view adds up to the All view: over all pods, the cpu (and
   * the memory) the summaries carry is the cpu (memory) of all container resources.
   */
  lemma {:induction false} SummariesAddUpToResources(pms: seq<PodMetrics>, pods: seq<Pod>,
                                                      containerQuery: string -> bool, typ: ResourceName)
    requires typ == ResourceCPU || typ == ResourceMemory
    ensures SummarizedUsageSum(SummarizedResources(pms, pods, containerQuery), typ)
         == ResourceUsageSum(AllResources(pms, pods, containerQuery), typ)
  {
    if |pms| > 0 {
      var init := pms[..|pms| - 1];
      SummariesAddUpToResources(init, pods, containerQuery, typ);
      var pm := pms[|pms| - 1];
      match Find(pods, PodName, pm.name)
      case None =>
      case Some(p) =>
        var cms := Filtered(pm.containers, ContainerMetricsName, containerQuery);
        var ss := SummarizedResources(init, pods, containerQuery);
        var s := NewSummarizedResource(p, SumUsageList(p, cms));
        assert (ss + [s])[..|ss + [s]| - 1] == ss;
        assert QuantityOf(s.usage, typ) == UsageSum(p, cms, typ);
        UsageSumIsResourceSum(p, cms, typ);
        ResourceUsageSumAppend(AllResources(init, pods, containerQuery), ContainerResources(p, cms), typ);
    }
  }

  /** Exactly one summary per pod metric whose pod exists, carrying that pod's name and node. */
  lemma {:induction false} OneSummaryPerKnownPod(pms: seq<PodMetrics>, pods: seq<Pod>, containerQuery: string -> bool)
    ensures var ss, known := SummarizedResources(pms, pods, containerQuery), KnownPods(pms, pods);
      && |ss| == |known|
      && forall i :: 0 <= i < |ss| ==>
           ss[i].podName == known[i].name
           && Find(pods, PodName, known[i].name).Some?
           && ss[i].nodeName == Find(pods, PodName, known[i].name).value.nodeName
  {
    if |pms| > 0 {
      OneSummaryPerKnownPod(pms[..|pms| - 1], pods, containerQuery);
      var p := Find(pods, PodName, pms[|pms| - 1].name);
      if p.Some? {
        FindFirst(pods, PodName, pms[|pms| - 1].name);
      }
    }
  }

  /** Every resource of a pod comes from a container in its spec and keeps the pod's name and node. */
  lemma {:induction false} ContainerResourcesFromSpec(pod: Pod, cms: seq<ContainerMetrics>)
    ensures forall r :: r in ContainerResources(pod, cms) ==>
      && r.podName == pod.name && r.nodeName == pod.nodeName
      && (exists c :: c in pod.containers && c.name == r.containerName)
      && exists cm :: cm in cms && cm.name == r.containerName && cm.usage == r.usage
  {
    if |cms| > 0 {
      var init := cms[..|cms| - 1];
      ContainerResourcesFromSpec(pod, init);
      var cm := cms[|cms| - 1];
      assert forall x :: x in init ==> x in cms;
      match Find(pod.containers, ContainerName, cm.name)
      case None =>
      case Some(c) =>
        FindFirst(pod.containers, ContainerName, cm.name);
    }
  }

  /**
   * Every resource of the All view is a container of a pod whose metrics
   * passed the filter, whose container metric passed the container query, and
   * whose spec lists the container.
   */
  lemma {:induction false} AllResourcesFromMatches(pms: seq<PodMetrics>, pods: seq<Pod>, containerQuery: string -> bool)
    ensures forall r :: r in AllResources(pms, pods, containerQuery) ==>
      && containerQuery(r.containerName)
      && exists pm :: pm in pms && pm.name == r.podName
  {
    if |pms| > 0 {
      var init := pms[..|pms| - 1];
      AllResourcesFromMatches(init, pods, containerQuery);
      assert forall x :: x in init ==> x in pms;
      var pm := pms[|pms| - 1];
      match Find(pods, PodName, pm.name)
      case None =>
      case Some(p) =>
        var cms := Filtered(pm.containers, ContainerMetricsName, containerQuery);
        FindFirst(pods, PodName, pm.name);
        ContainerResourcesFromSpec(p, cms);
        FilteredMembers(pm.containers, ContainerMetricsName, containerQuery);
        forall r | r in ContainerResources(p, cms)
          ensures containerQuery(r.containerName) && r.podName == pm.name
        {
          var cm :| cm in cms && cm.name == r.containerName && cm.usage == r.usage;
        }
    }
  }

  // ---------------------------------------------------------------- fetchNodeResources

  /** Each node metric has its node in the list (otherwise fetchNodeResources dereferences nil). */
  predicate AllNodesKnown(nms: seq<NodeMetrics>, nodes: seq<Node>)
  {
    forall i :: 0 <= i < |nms| ==> Find(nodes, NodeName, nms[i].name).Some?
  }

  function NodeResourcesOf(nms: seq<NodeMetrics>, nodes: seq<Node>): seq<NodeResource>
    requires AllNodesKnown(nms, nodes)
  {
    seq(|nms|, i requires 0 <= i < |nms| => NewNodeResource(Find(nodes, NodeName, nms[i].name).value, nms[i]))
  }

  /** One node resource per filtered metric, in order, with the metric's usage and the node's allocatable. */
  lemma NodeResourcesFollowMetrics(nms: seq<NodeMetrics>, nodes: seq<Node>)
    requires AllNodesKnown(nms, nodes)
    ensures var rs := NodeResourcesOf(nms, nodes);
      && |rs| == |nms|
      && forall i :: 0 <= i < |rs| ==>
           && rs[i].nodeName == nms[i].name && rs[i].usage == nms[i].usage
           && exists k :: 0 <= k < |nodes| && nodes[k].name == nms[i].name && rs[i].allocatable == nodes[k].allocatable
  {
    forall i | 0 <= i < |nms|
      ensures exists k :: 0 <= k < |nodes| && nodes[k].name == nms[i].name &&
                NodeResourcesOf(nms, nodes)[i].allocatable == nodes[k].allocatable
    {
      FindFirst(nodes, NodeName, nms[i].name);
      var k :| 0 <= k < |nodes| && nodes[k] == Find(nodes, NodeName, nms[i].name).value
        && NodeName(nodes[k]) == nms[i].name;
    }
  }

  // ---------------------------------------------------------------- graph updates

  type GraphView = GraphWidget.GraphView

  /** updateSummarizedGraph: the pod's usage against its node's allocatable. */
  function SummarizedPlots(cpu: GraphView, mem: GraphView, s: SummarizedResource, node: Node): (GraphView, GraphView)
  {
    var name := "Name: " + s.GetPodName();
    (GraphWidget.Plot(cpu, name, s.GetCpuUsage().0 as real, "Usage: " + s.GetCpuUsage().1,
                      GetResourceValue(node.allocatable, ResourceCPU) as real,
                      Some(NodeAllocatableLabel + ": " + GetResourceValueString(node.allocatable, ResourceCPU))),
     GraphWidget.Plot(mem, name, s.GetMemoryUsage().0 as real, "Usage: " + s.GetMemoryUsage().1,
                      GetResourceValue(node.allocatable, ResourceMemory) as real,
                      Some(NodeAllocatableLabel + ": " + GetResourceValueString(node.allocatable, ResourceMemory))))
  }

  /** The All graph needs the node only for a limit the container does not set. */
  function NeedsNode(r: Resource): bool
  {
    !r.GetCpuLimits().2 || !r.GetMemoryLimits().2
  }

  /**
   * updateAllGraph: the container's usage against its own limit where it sets
   * one, and against its node's allocatable where it does not.
   */
  function AllPlots(cpu: GraphView, mem: GraphView, r: Resource, node: Option<Node>): (GraphView, GraphView)
    requires NeedsNode(r) ==> node.Some?
  {
    var name := "Name: " + r.GetContainerName();
    var (cpuLimit, cpuLabel) :=
      if r.GetCpuLimits().2 then (r.GetCpuLimits().0, ContainerLimitLabel + ": " + r.GetCpuLimits().1)
      else (GetResourceValue(node.value.allocatable, ResourceCPU),
            NodeAllocatableLabel + ": " + GetResourceValueString(node.value.allocatable, ResourceCPU));
    var (memLimit, memLabel) :=
      if r.GetMemoryLimits().2 then (r.GetMemoryLimits().0, ContainerLimitLabel + ": " + r.GetMemoryLimits().1)
      else (GetResourceValue(node.value.allocatable, ResourceMemory),
            NodeAllocatableLabel + ": " + GetResourceValueString(node.value.allocatable, ResourceMemory));
    (GraphWidget.Plot(cpu, name, r.GetCpuUsage().0 as real, "Usage: " + r.GetCpuUsage().1, cpuLimit as real, Some(cpuLabel)),
     GraphWidget.Plot(mem, name, r.GetMemoryUsage().0 as real, "Usage: " + r.GetMemoryUsage().1, memLimit as real, Some(memLabel)))
  }

  /** updateNodeGraph: percentages against 100, the limit label left as it was. */
  function NodePlots(cpu: GraphView, mem: GraphView, n: NodeResource, pct: Percentages): (GraphView, GraphView)
  {
    var name := "Name: " + n.GetNodeName();
    (GraphWidget.Plot(cpu, name, n.GetCpuUsagePercentage(pct).0, "%Usage: " + n.GetCpuUsagePercentage(pct).1, 100.0, None),
     GraphWidget.Plot(mem, name, n.GetMemoryUsagePercentage(pct).0, "%Usage: " + n.GetMemoryUsagePercentage(pct).1, 100.0, None))
  }

  /**
   * The limit label of the All graphs names where the limit comes from: the
   * container's own limit when set, else the node's allocatable.
   */
  lemma AllLimitLabelNamesItsSource(cpu: GraphView, mem: GraphView, r: Resource, node: Option<Node>)
    requires NeedsNode(r) ==> node.Some?
    ensures var (c, m) := AllPlots(cpu, mem, r, node);
      && (ResourceCPU in r.limits ==>
            c.labelUpperLimit == ContainerLimitLabel + ": " + IntString(r.limits[ResourceCPU]) + "m"
            && c.upperLimit == r.limits[ResourceCPU] as real)
      && (ResourceCPU !in r.limits ==>
            c.labelUpperLimit == NodeAllocatableLabel + ": " + GetResourceValueString(node.value.allocatable, ResourceCPU)
            && c.upperLimit == GetResourceValue(node.value.allocatable, ResourceCPU) as real)
      && (ResourceMemory in r.limits ==>
            m.labelUpperLimit == ContainerLimitLabel + ": " + IntString(TruncDiv(r.limits[ResourceMemory], MiB)) + "Mi")
      && (ResourceMemory !in r.limits ==>
            m.labelUpperLimit == NodeAllocatableLabel + ": " + GetResourceValueString(node.value.allocatable, ResourceMemory))
  {
  }

  /** Every plot adds exactly one sample to each graph and switches the limit line off. */
  lemma PlotsAddOneSample(cpu: GraphView, mem: GraphView, s: SummarizedResource, node: Node,
                          r: Resource, maybeNode: Option<Node>, n: NodeResource, pct: Percentages)
    requires NeedsNode(r) ==> maybeNode.Some?
    ensures var (c, m) := SummarizedPlots(cpu, mem, s, node);
      c.data == cpu.data + [QuantityOf(s.usage, ResourceCPU) as real] && !c.drawUpperLimit
      && m.data == mem.data + [TruncDiv(QuantityOf(s.usage, ResourceMemory), MiB) as real] && !m.drawUpperLimit
    ensures var (c, m) := AllPlots(cpu, mem, r, maybeNode);
      c.data == cpu.data + [QuantityOf(r.usage, ResourceCPU) as real] && !c.drawUpperLimit
      && m.data == mem.data + [TruncDiv(QuantityOf(r.usage, ResourceMemory), MiB) as real] && !m.drawUpperLimit
    ensures var (c, m) := NodePlots(cpu, mem, n, pct);
      && c.data == cpu.data + [n.GetCpuUsagePercentage(pct).0] && m.data == mem.data + [n.GetMemoryUsagePercentage(pct).0]
      && c.upperLimit == 100.0 && m.upperLimit == 100.0
      && c.labelUpperLimit == cpu.labelUpperLimit && m.labelUpperLimit == mem.labelUpperLimit
  {
  }

  // ---------------------------------------------------------------- the monitor's state

  type TableView = TableWidget.TableView
  type Ring = ResourceViewer.Ring

  /** The monitor's whole state: its table, its two graphs and its ring of view types. */
  datatype MonitorView = MonitorView(table: TableView, cpu: GraphView, mem: GraphView, ring: Ring)

  /** updatePodTable on a view: the viewer's title, header, widths and rows; selection and first row kept. */
  function WithShape(t: TableView, shape: TableShape): TableView
  {
    t.(title := shape.title, header := shape.header, columnWidths := shape.widths, rows := shape.rows)
  }

  /**
   * The Summarized branch of an update, once the table shows the sorted
   * resources: a selection outside the rows, or a pod whose node is not in
   * the list, panics, and the recovery selects row 0 and leaves the graphs.
   */
  function PlotSelectedSummarized(v: MonitorView, nodes: seq<Node>, sums: seq<SummarizedResource>): MonitorView
  {
    var sel := v.table.selectedRow;
    if |sums| == 0 then v
    else if !(0 <= sel < |sums|) then v.(table := v.table.(selectedRow := 0))
    else
      match Find(nodes, NodeName, sums[sel].nodeName)
      case None => v.(table := v.table.(selectedRow := 0))
      case Some(n) =>
        var (c, m) := SummarizedPlots(v.cpu, v.mem, sums[sel], n);
        v.(cpu := c, mem := m)
  }

  function UpdatedSummarized(v: MonitorView, nodes: seq<Node>, sums: seq<SummarizedResource>): MonitorView
  {
    PlotSelectedSummarized(v.(table := WithShape(v.table, SummarizedViewer.Shape(sums, v.table.innerDx))), nodes, sums)
  }

  /** The All branch: only a container without a limit of its own needs its node. */
  function PlotSelectedAll(v: MonitorView, nodes: seq<Node>, alls: seq<Resource>): MonitorView
  {
    var sel := v.table.selectedRow;
    if |alls| == 0 then v
    else if !(0 <= sel < |alls|) then v.(table := v.table.(selectedRow := 0))
    else
      var r := alls[sel];
      var node := if NeedsNode(r) then Find(nodes, NodeName, r.nodeName) else None;
      if NeedsNode(r) && node.None? then v.(table := v.table.(selectedRow := 0))
      else
        var (c, m) := AllPlots(v.cpu, v.mem, r, node);
        v.(cpu := c, mem := m)
  }

  function UpdatedAll(v: MonitorView, nodes: seq<Node>, alls: seq<Resource>): MonitorView
  {
    PlotSelectedAll(v.(table := WithShape(v.table, ResourceViewer.Shape(alls, v.table.innerDx))), nodes, alls)
  }

  /** The Node branch: only a selection outside the rows panics. */
  function PlotSelectedNode(v: MonitorView, nrs: seq<NodeResource>, pct: Percentages): MonitorView
  {
    var sel := v.table.selectedRow;
    if |nrs| == 0 then v
    else if !(0 <= sel < |nrs|) then v.(table := v.table.(selectedRow := 0))
    else
      var (c, m) := NodePlots(v.cpu, v.mem, nrs[sel], pct);
      v.(cpu := c, mem := m)
  }

  function UpdatedNode(v: MonitorView, nrs: seq<NodeResource>, pct: Percentages): MonitorView
  {
    PlotSelectedNode(v.(table := WithShape(v.table, NodeViewer.Shape(nrs, v.table.innerDx, pct))), nrs, pct)
  }

  /** An update that fetched everything, in the view the ring is on. */
  function Updated(v: MonitorView, nodes: seq<Node>, sums: seq<SummarizedResource>, alls: seq<Resource>,
                   nrs: seq<NodeResource>, pct: Percentages): MonitorView
    requires v.ring.Valid()
  {
    var typ := v.ring.Value();
    if typ == ResourceViewer.SummarizedType then UpdatedSummarized(v, nodes, sums)
    else if typ == ResourceViewer.AllType then UpdatedAll(v, nodes, alls)
    else if typ == ResourceViewer.NodeType then UpdatedNode(v, nrs, pct)
    else v
  }

  /** The table a view type starts from: Reset with ResetTableShapeFrom for the table's width. */
  function TableReset(v: MonitorView): MonitorView
    requires v.ring.Valid()
  {
    var (title, header, widths) := ResourceViewer.ResetTableShapeFrom(v.ring.Value(), v.table.innerDx);
    v.(table := TableWidget.ResetView(v.table, title, header, widths))
  }

  /** ScrollUp and ScrollDown: the selection moved, both graphs reset. */
  function ScrolledView(v: MonitorView, i: int): MonitorView
  {
    v.(table := v.table.(selectedRow := TableWidget.Scrolled(v.table.selectedRow, i, |v.table.rows|)),
       cpu := GraphWidget.ResetView(v.cpu), mem := GraphWidget.ResetView(v.mem))
  }

  /** Rotate and ReverseRotate: the ring moved, both graphs reset, the table reset for the new view. */
  function RotatedView(v: MonitorView, n: int): MonitorView
    requires v.ring.Valid()
  {
    TableReset(v.(ring := v.ring.Move(n), cpu := GraphWidget.ResetView(v.cpu), mem := GraphWidget.ResetView(v.mem)))
  }

  // ---------------------------------------------------------------- properties of the monitor's steps

  /**
   * What an update keeps: the ring, the cursor, the first row and the layout,
   * and the graphs' titles and colors; each graph gains at most one sample;
   * the selection stays or goes back to row 0.
   */
  ghost predicate LayoutKept(v: MonitorView, u: MonitorView)
  {
    && u.ring == v.ring
    && u.table.cursor == v.table.cursor && u.table.cursorColor == v.table.cursorColor
    && u.table.topRow == v.table.topRow
    && u.table.innerDx == v.table.innerDx && u.table.innerDy == v.table.innerDy
    && (u.table.selectedRow == v.table.selectedRow || u.table.selectedRow == 0)
    && u.cpu.title == v.cpu.title && u.mem.title == v.mem.title
    && u.cpu.dataColor == v.cpu.dataColor && u.cpu.limitColor == v.cpu.limitColor
    && u.mem.dataColor == v.mem.dataColor && u.mem.limitColor == v.mem.limitColor
    && v.cpu.data <= u.cpu.data && |u.cpu.data| <= |v.cpu.data| + 1
    && v.mem.data <= u.mem.data && |u.mem.data| <= |v.mem.data| + 1
  }

  /** Every update, in whichever view, keeps the layout. */
  lemma UpdateKeepsLayout(v: MonitorView, nodes: seq<Node>, sums: seq<SummarizedResource>, alls: seq<Resource>,
                          nrs: seq<NodeResource>, pct: Percentages)
    requires v.ring.Valid()
    ensures LayoutKept(v, Updated(v, nodes, sums, alls, nrs, pct))
  {
    var typ := v.ring.Value();
    if typ == ResourceViewer.SummarizedType {
      SummarizedUpdateKeepsLayout(v, nodes, sums);
    } else if typ == ResourceViewer.AllType {
      AllUpdateKeepsLayout(v, nodes, alls);
    } else if typ == ResourceViewer.NodeType {
      NodeUpdateKeepsLayout(v, nrs, pct);
    }
  }

  lemma SummarizedUpdateKeepsLayout(v: MonitorView, nodes: seq<Node>, sums: seq<SummarizedResource>)
    ensures LayoutKept(v, UpdatedSummarized(v, nodes, sums))
  {
  }

  lemma AllUpdateKeepsLayout(v: MonitorView, nodes: seq<Node>, alls: seq<Resource>)
    ensures LayoutKept(v, UpdatedAll(v, nodes, alls))
  {
  }

  lemma NodeUpdateKeepsLayout(v: MonitorView, nrs: seq<NodeResource>, pct: Percentages)
    ensures LayoutKept(v, UpdatedNode(v, nrs, pct))
  {
  }

  /** The table shows the current view's shape for the rows as sorted. */
  lemma UpdateShowsCurrentView(v: MonitorView, nodes: seq<Node>, sums: seq<SummarizedResource>, alls: seq<Resource>,
                               nrs: seq<NodeResource>, pct: Percentages)
    requires v.ring.Valid()
    ensures var u := Updated(v, nodes, sums, alls, nrs, pct);
      var dx := v.table.innerDx;
      var shown := TableShape(u.table.title, u.table.header, u.table.columnWidths, u.table.rows);
      && (v.ring.Value() == ResourceViewer.SummarizedType ==> shown == SummarizedViewer.Shape(sums, dx))
      && (v.ring.Value() == ResourceViewer.AllType ==> shown == ResourceViewer.Shape(alls, dx))
      && (v.ring.Value() == ResourceViewer.NodeType ==> shown == NodeViewer.Shape(nrs, dx, pct))
  {
  }

  /** With something to show, an update always leaves one of the shown rows selected. */
  lemma UpdateSelectsARow(v: MonitorView, nodes: seq<Node>, sums: seq<SummarizedResource>, alls: seq<Resource>,
                          nrs: seq<NodeResource>, pct: Percentages)
    requires v.ring.Valid() && v.ring.slots == ResourceViewer.Types
    requires v.ring.Value() == ResourceViewer.SummarizedType ==> |sums| > 0
    requires v.ring.Value() == ResourceViewer.AllType ==> |alls| > 0
    requires v.ring.Value() == ResourceViewer.NodeType ==> |nrs| > 0
    ensures var u := Updated(v, nodes, sums, alls, nrs, pct);
      0 <= u.table.selectedRow < |u.table.rows|
  {
    var dx := v.table.innerDx;
    var typ := v.ring.Value();
    if typ == ResourceViewer.SummarizedType {
      SummarizedViewer.ShapeFacts(sums, dx);
      PlotSelectedSummarizedSelects(v.(table := WithShape(v.table, SummarizedViewer.Shape(sums, dx))), nodes, sums);
    } else if typ == ResourceViewer.AllType {
      ResourceViewer.ShapeFacts(alls, dx);
      PlotSelectedAllSelects(v.(table := WithShape(v.table, ResourceViewer.Shape(alls, dx))), nodes, alls);
    } else {
      assert typ == ResourceViewer.NodeType;
      NodeViewer.ShapeFacts(nrs, dx, pct);
      PlotSelectedNodeSelects(v.(table := WithShape(v.table, NodeViewer.Shape(nrs, dx, pct))), nrs, pct);
    }
  }

  lemma PlotSelectedSummarizedSelects(w: MonitorView, nodes: seq<Node>, sums: seq<SummarizedResource>)
    requires |w.table.rows| == |sums| > 0
    ensures var u := PlotSelectedSummarized(w, nodes, sums);
      u.table.rows == w.table.rows && 0 <= u.table.selectedRow < |sums|
  {
  }

  lemma PlotSelectedAllSelects(w: MonitorView, nodes: seq<Node>, alls: seq<Resource>)
    requires |w.table.rows| == |alls| > 0
    ensures var u := PlotSelectedAll(w, nodes, alls);
      u.table.rows == w.table.rows && 0 <= u.table.selectedRow < |alls|
  {
  }

  lemma PlotSelectedNodeSelects(w: MonitorView, nrs: seq<NodeResource>, pct: Percentages)
    requires |w.table.rows| == |nrs| > 0
    ensures var u := PlotSelectedNode(w, nrs, pct);
      u.table.rows == w.table.rows && 0 <= u.table.selectedRow < |nrs|
  {
  }

  /**
   * In the Summarized view the graphs gain a sample exactly when the selection
   * is a shown pod whose node is known, and then it is that pod's usage,
   * under its name, with the selection and its row unchanged.
   */
  lemma SummarizedGraphFollowsSelection(v: MonitorView, nodes: seq<Node>, sums: seq<SummarizedResource>,
                                        alls: seq<Resource>, nrs: seq<NodeResource>, pct: Percentages)
    requires v.ring.Valid() && v.ring.Value() == ResourceViewer.SummarizedType
    ensures var u := Updated(v, nodes, sums, alls, nrs, pct);
      var sel := v.table.selectedRow;
      && (u.cpu.data != v.cpu.data <==> 0 <= sel < |sums| && Find(nodes, NodeName, sums[sel].nodeName).Some?)
      && (u.cpu.data != v.cpu.data ==>
            && u.table.selectedRow == sel && u.table.rows[sel] == sums[sel].ToRow()
            && u.cpu.data == v.cpu.data + [QuantityOf(sums[sel].usage, ResourceCPU) as real]
            && u.mem.data == v.mem.data + [TruncDiv(QuantityOf(sums[sel].usage, ResourceMemory), MiB) as real]
            && u.cpu.labelHeader == "Name: " + sums[sel].podName && u.mem.labelHeader == u.cpu.labelHeader)
      && (u.cpu.data == v.cpu.data ==> u.cpu == v.cpu && u.mem == v.mem)
  {
    var w := v.(table := WithShape(v.table, SummarizedViewer.Shape(sums, v.table.innerDx)));
    assert Updated(v, nodes, sums, alls, nrs, pct) == PlotSelectedSummarized(w, nodes, sums);
    SummarizedViewer.ShapeFacts(sums, v.table.innerDx);
  }

  /**
   * In the All view the graphs gain a sample exactly when the selection is a
   * shown container and, if it lacks a limit, its node is known; the sample
   * is that container's usage, under its name.
   */
  lemma AllGraphFollowsSelection(v: MonitorView, nodes: seq<Node>, sums: seq<SummarizedResource>,
                                 alls: seq<Resource>, nrs: seq<NodeResource>, pct: Percentages)
    requires v.ring.Valid() && v.ring.Value() == ResourceViewer.AllType
    ensures var u := Updated(v, nodes, sums, alls, nrs, pct);
      var sel := v.table.selectedRow;
      && (u.cpu.data != v.cpu.data <==>
            0 <= sel < |alls| && (!NeedsNode(alls[sel]) || Find(nodes, NodeName, alls[sel].nodeName).Some?))
      && (u.cpu.data != v.cpu.data ==>
            && u.table.selectedRow == sel && u.table.rows[sel] == alls[sel].ToRow()
            && u.cpu.data == v.cpu.data + [QuantityOf(alls[sel].usage, ResourceCPU) as real]
            && u.mem.data == v.mem.data + [TruncDiv(QuantityOf(alls[sel].usage, ResourceMemory), MiB) as real]
            && u.cpu.labelHeader == "Name: " + alls[sel].containerName)
      && (u.cpu.data == v.cpu.data ==> u.cpu == v.cpu && u.mem == v.mem)
  {
    var w := v.(table := WithShape(v.table, ResourceViewer.Shape(alls, v.table.innerDx)));
    assert Updated(v, nodes, sums, alls, nrs, pct) == PlotSelectedAll(w, nodes, alls);
    assert |alls| > 0 ==> w.table.rows == ResourceViewer.Rows(alls);
  }

  /** In the Node view the graphs gain the selected node's percentages exactly when the selection is shown. */
  lemma NodeGraphFollowsSelection(v: MonitorView, nodes: seq<Node>, sums: seq<SummarizedResource>,
                                  alls: seq<Resource>, nrs: seq<NodeResource>, pct: Percentages)
    requires v.ring.Valid() && v.ring.Value() == ResourceViewer.NodeType
    ensures var u := Updated(v, nodes, sums, alls, nrs, pct);
      var sel := v.table.selectedRow;
      && (u.cpu.data != v.cpu.data <==> 0 <= sel < |nrs|)
      && (u.cpu.data != v.cpu.data ==>
            && u.table.selectedRow == sel && u.table.rows[sel] == nrs[sel].ToRow(pct)
            && u.cpu.data == v.cpu.data + [nrs[sel].GetCpuUsagePercentage(pct).0]
            && u.cpu.labelData == "%Usage: " + u.table.rows[sel][3]
            && u.mem.labelData == "%Usage: " + u.table.rows[sel][6]
            && u.cpu.upperLimit == 100.0)
      && (u.cpu.data == v.cpu.data ==> u.cpu == v.cpu && u.mem == v.mem)
  {
    var w := v.(table := WithShape(v.table, NodeViewer.Shape(nrs, v.table.innerDx, pct)));
    assert Updated(v, nodes, sums, alls, nrs, pct) == PlotSelectedNode(w, nrs, pct);
    NodeViewer.ShapeFacts(nrs, v.table.innerDx, pct);
  }

  /**
   * Scrolling resets the graphs, so after a scroll and an update in the
   * Summarized view the cpu graph holds a single sample: the newly selected pod's.
   */
  lemma ScrollRestartsGraph(v: MonitorView, nodes: seq<Node>, sums: seq<SummarizedResource>, i: int,
                            alls: seq<Resource>, nrs: seq<NodeResource>, pct: Percentages)
    requires v.ring.Valid() && v.ring.Value() == ResourceViewer.SummarizedType
    requires |v.table.rows| == |sums| > 0
    requires Find(nodes, NodeName, sums[TableWidget.Scrolled(v.table.selectedRow, i, |sums|)].nodeName).Some?
    ensures var s := TableWidget.Scrolled(v.table.selectedRow, i, |sums|);
      var u := Updated(ScrolledView(v, i), nodes, sums, alls, nrs, pct);
      && u.table.selectedRow == s
      && u.cpu.data == [QuantityOf(sums[s].usage, ResourceCPU) as real]
      && u.mem.data == [TruncDiv(QuantityOf(sums[s].usage, ResourceMemory), MiB) as real]
  {
    var w := ScrolledView(v, i);
    SummarizedGraphFollowsSelection(w, nodes, sums, alls, nrs, pct);
  }

  /**
   * A table just rotated to has no rows, so a move down selects -1, and the
   * next update with rows to show panics on the index: the selection goes
   * to 0 and the graphs stay empty for that update.
   */
  lemma ScrollDownOnFreshTableSkipsPlot(v: MonitorView, nodes: seq<Node>, sums: seq<SummarizedResource>,
                                        alls: seq<Resource>, nrs: seq<NodeResource>, pct: Percentages)
    requires v.ring.Valid() && v.ring.slots == ResourceViewer.Types
    requires |sums| > 0 && |alls| > 0 && |nrs| > 0
    ensures var rotated := RotatedView(v, 1);
      var scrolled := ScrolledView(rotated, 1);
      var u := Updated(scrolled, nodes, sums, alls, nrs, pct);
      && scrolled.table.selectedRow == -1
      && u.table.selectedRow == 0 && u.cpu.data == [] && u.mem.data == []
  {
  }

  /**
   * Rotating forward visits Summarized, All and Node in turn and comes back
   * after three steps; one step back undoes one step forward.
   */
  lemma RotationCyclesViews(v: MonitorView)
    requires v.ring.Valid() && v.ring.slots == ResourceViewer.Types
    ensures var r1 := RotatedView(v, 1);
      && (v.ring.Value() == ResourceViewer.SummarizedType ==> r1.ring.Value() == ResourceViewer.AllType)
      && (v.ring.Value() == ResourceViewer.AllType ==> r1.ring.Value() == ResourceViewer.NodeType)
      && (v.ring.Value() == ResourceViewer.NodeType ==> r1.ring.Value() == ResourceViewer.SummarizedType)
      && RotatedView(RotatedView(r1, 1), 1).ring == v.ring
      && RotatedView(r1, -1).ring == v.ring
      && RotatedView(RotatedView(v, -1), 1).ring == v.ring
  {
    var r1 := RotatedView(v, 1);
    var r2 := RotatedView(r1, 1);
    var l1 := RotatedView(v, -1);
    RotatedRing(v, 1);
    RotatedRing(r1, 1);
    RotatedRing(r2, 1);
    RotatedRing(r1, -1);
    RotatedRing(v, -1);
    RotatedRing(l1, 1);
    ResourceViewer.TypeRingSteps(v.ring);
    ResourceViewer.MoveInverse(v.ring, 1);
  }

  lemma RotatedRing(v: MonitorView, n: int)
    requires v.ring.Valid()
    ensures RotatedView(v, n).ring == v.ring.Move(n)
  {
  }

  /**
   * After a rotation the table is empty and set up for the new view with
   * minimum widths, the first row selected, and both graphs empty.
   */
  lemma RotationStartsAfresh(v: MonitorView, n: int)
    requires v.ring.Valid()
    ensures var u := RotatedView(v, n);
      var (title, header, widths) := ResourceViewer.ResetTableShapeFrom(u.ring.Value(), v.table.innerDx);
      && u.table.rows == [] && u.table.selectedRow == 0 && u.table.topRow == 0
      && u.table.title == title && u.table.header == header && u.table.columnWidths == widths
      && |u.table.header| == |u.table.columnWidths|
      && u.cpu.data == [] && u.mem.data == [] && u.cpu.labelHeader == "" && u.mem.labelUpperLimit == ""
      && u.table.cursor == v.table.cursor && u.cpu.title == v.cpu.title
  {
    ResourceViewer.ResetShapeIsMinimal(v.ring.Move(n).Value(), v.table.innerDx);
  }

  /**
   * The inner loop of fetchPodResources: one resource per container metric
   * whose container is in the pod's spec, and the cpu and memory usage
   * added up over those same metrics.
   */
  method CollectContainers(p: Pod, cms: seq<ContainerMetrics>) returns (rs: seq<Resource>, cpu: int, mem: int)
    ensures rs == ContainerResources(p, cms)
    ensures cpu == UsageSum(p, cms, ResourceCPU) && mem == UsageSum(p, cms, ResourceMemory)
  {
    rs, cpu, mem := [], 0, 0;
    for j := 0 to |cms|
      invariant rs == ContainerResources(p, cms[..j])
      invariant cpu == UsageSum(p, cms[..j], ResourceCPU) && mem == UsageSum(p, cms[..j], ResourceMemory)
    {
      assert cms[..j + 1][..j] == cms[..j];
      var containerMetrics := cms[j];
      var container := FindContainer(containerMetrics.name, p.containers);
      if container.None? {
        continue;
      }
      rs := rs + [NewResource(p, container.value, containerMetrics)];
      cpu := cpu + QuantityOf(containerMetrics.usage, ResourceCPU);
      mem := mem + QuantityOf(containerMetrics.usage, ResourceMemory);
    }
    assert cms[..|cms|] == cms;
  }

  // ---------------------------------------------------------------- the Monitor class

  class Monitor {
    const table: TableWidget.Table
    const cpuGraph: GraphWidget.Graph
    const memGraph: GraphWidget.Graph
    const podQuery: string -> bool
    const containerQuery: string -> bool
    const nodeQuery: string -> bool
    /** How node usage percentages are computed and printed. */
    const percent: Percentages
    var tableTypeCircle: Ring

    ghost predicate Valid()
      reads this
    {
      cpuGraph != memGraph && tableTypeCircle.Valid() && tableTypeCircle.slots == ResourceViewer.Types
    }

    function View(): MonitorView
      reads this, table, cpuGraph, memGraph
    {
      MonitorView(table.View(), cpuGraph.View(), memGraph.View(), tableTypeCircle)
    }

    /** NewMonitor: the Summarized view, a cursor in the selected-row color, two titled graphs. */
    constructor (podQuery: string -> bool, containerQuery: string -> bool, nodeQuery: string -> bool,
                 percent: Percentages)
      ensures Valid() && fresh(table) && fresh(cpuGraph) && fresh(memGraph)
      ensures this.podQuery == podQuery && this.containerQuery == containerQuery && this.nodeQuery == nodeQuery
      ensures this.percent == percent
      ensures tableTypeCircle.Value() == ResourceViewer.SummarizedType
      ensures table.View() == TableWidget.TableView("", [], [], [], true, SelectedTableColor, 0, 0, 0, 0)
      ensures cpuGraph.View() == GraphWidget.GraphView(CpuGraphTitle, [], 0.0, false, "", "", "",
                                                       GraphDataColor, GraphLimitColor, GraphLabelNameColor, 0, 0)
      ensures memGraph.View() == GraphWidget.GraphView(MemGraphTitle, [], 0.0, false, "", "", "",
                                                       GraphDataColor, GraphLimitColor, GraphLabelNameColor, 0, 0)
    {
      var circle := ResourceViewer.TableTypeCircle();
      var t := new TableWidget.Table();
      t.cursor := true;
      t.cursorColor := SelectedTableColor;
      var cpu := new GraphWidget.Graph();
      cpu.title := CpuGraphTitle;
      cpu.labelNameColor, cpu.dataColor, cpu.limitColor := GraphLabelNameColor, GraphDataColor, GraphLimitColor;
      var mem := new GraphWidget.Graph();
      mem.title := MemGraphTitle;
      mem.labelNameColor, mem.dataColor, mem.limitColor := GraphLabelNameColor, GraphDataColor, GraphLimitColor;
      this.tableTypeCircle := circle;
      this.podQuery, this.containerQuery, this.nodeQuery := podQuery, containerQuery, nodeQuery;
      this.percent := percent;
      this.table, this.cpuGraph, this.memGraph := t, cpu, mem;
    }

    method ResetGraph()
      requires Valid()
      modifies cpuGraph, memGraph
      ensures View() == old(View()).(cpu := GraphWidget.ResetView(old(cpuGraph.View())),
                                     mem := GraphWidget.ResetView(old(memGraph.View())))
    {
      cpuGraph.Reset();
      memGraph.Reset();
    }

    method ResetTable()
      requires Valid()
      modifies table
      ensures View() == TableReset(old(View()))
    {
      var (title, header, widths) := ResourceViewer.ResetTableShapeFrom(tableTypeCircle.Value(), table.innerDx);
      table.Reset(title, header, widths);
    }

    method ScrollDown()
      requires Valid()
      modifies table, cpuGraph, memGraph
      ensures View() == ScrolledView(old(View()), 1)
    {
      table.ScrollDown();
      ResetGraph();
    }

    method ScrollUp()
      requires Valid()
      modifies table, cpuGraph, memGraph
      ensures View() == ScrolledView(old(View()), -1)
    {
      table.ScrollUp();
      ResetGraph();
    }

    method RotateBy(i: int)
      requires Valid()
      modifies this
      ensures Valid() && tableTypeCircle == old(tableTypeCircle).Move(i)
    {
      tableTypeCircle := tableTypeCircle.Move(i);
    }

    method Rotate()
      requires Valid()
      modifies this, table, cpuGraph, memGraph
      ensures Valid() && View() == RotatedView(old(View()), 1)
    {
      RotateBy(1);
      ResetGraph();
      ResetTable();
    }

    method ReverseRotate()
      requires Valid()
      modifies this, table, cpuGraph, memGraph
      ensures Valid() && View() == RotatedView(old(View()), -1)
    {
      RotateBy(-1);
      ResetGraph();
      ResetTable();
    }

    /** updatePodTable: the table takes the viewer's shape. */
    method UpdatePodTable(shape: TableShape)
      modifies table
      ensures table.View() == WithShape(old(table.View()), shape)
    {
      table.title, table.header, table.columnWidths, table.rows := shape.title, shape.header, shape.widths, shape.rows;
    }

    /**
     * updateSummarizedGraph; false when the pod's node is not in the list,
     * where the source dereferences nil before changing anything.
     */
    method UpdateSummarizedGraph(nodes: seq<Node>, s: SummarizedResource) returns (ok: bool)
      requires Valid()
      modifies cpuGraph, memGraph
      ensures ok <==> Find(nodes, NodeName, s.nodeName).Some?
      ensures ok ==>
        (cpuGraph.View(), memGraph.View()) == SummarizedPlots(old(cpuGraph.View()), old(memGraph.View()), s, Find(nodes, NodeName, s.nodeName).value)
      ensures !ok ==> cpuGraph.View() == old(cpuGraph.View()) && memGraph.View() == old(memGraph.View())
    {
      var cpuUsage, cpuUsageStr := s.GetCpuUsage().0, s.GetCpuUsage().1;
      var memUsage, memUsageStr := s.GetMemoryUsage().0, s.GetMemoryUsage().1;
      var node := FindNode(s.GetNodeName(), nodes);
      if node.None? {
        return false;
      }
      var allocatable := node.value.allocatable;
      var limitCpu := GetResourceValue(allocatable, ResourceCPU);
      var limitCpuStr := GetResourceValueString(allocatable, ResourceCPU);
      var limitMemory := GetResourceValue(allocatable, ResourceMemory);
      var limitMemoryStr := GetResourceValueString(allocatable, ResourceMemory);

      cpuGraph.Push("Name: " + s.GetPodName(), cpuUsage as real, "Usage: " + cpuUsageStr,
                    limitCpu as real, Some(NodeAllocatableLabel + ": " + limitCpuStr));
      memGraph.Push("Name: " + s.GetPodName(), memUsage as real, "Usage: " + memUsageStr,
                    limitMemory as real, Some(NodeAllocatableLabel + ": " + limitMemoryStr));
      ok := true;
    }

    /**
     * updateAllGraph; false when the container lacks a limit and its node is
     * not in the list, where the source dereferences nil before changing anything.
     */
    method UpdateAllGraph(nodes: seq<Node>, r: Resource) returns (ok: bool)
      requires Valid()
      modifies cpuGraph, memGraph
      ensures ok <==> !NeedsNode(r) || Find(nodes, NodeName, r.nodeName).Some?
      ensures ok ==>
        (cpuGraph.View(), memGraph.View()) == AllPlots(old(cpuGraph.View()), old(memGraph.View()), r,
                 if NeedsNode(r) then Find(nodes, NodeName, r.nodeName) else None)
      ensures !ok ==> cpuGraph.View() == old(cpuGraph.View()) && memGraph.View() == old(memGraph.View())
    {
      var cpuUsage, cpuUsageStr := r.GetCpuUsage().0, r.GetCpuUsage().1;
      var memUsage, memUsageStr := r.GetMemoryUsage().0, r.GetMemoryUsage().1;

      var limitCpuLabel := ContainerLimitLabel;
      var limitCpu, limitCpuStr, cok := r.GetCpuLimits().0, r.GetCpuLimits().1, r.GetCpuLimits().2;
      var limitMemoryLabel := ContainerLimitLabel;
      var limitMemory, limitMemoryStr, mok := r.GetMemoryLimits().0, r.GetMemoryLimits().1, r.GetMemoryLimits().2;

      var node: Option<Node> := None;
      if !cok || !mok {
        node := FindNode(r.GetNodeName(), nodes);
        if node.None? {
          return false;
        }
      }
      if !cok {
        limitCpuLabel := NodeAllocatableLabel;
        limitCpu := GetResourceValue(node.value.allocatable, ResourceCPU);
        limitCpuStr := GetResourceValueString(node.value.allocatable, ResourceCPU);
      }
      if !mok {
        limitMemoryLabel := NodeAllocatableLabel;
        limitMemory := GetResourceValue(node.value.allocatable, ResourceMemory);
        limitMemoryStr := GetResourceValueString(node.value.allocatable, ResourceMemory);
      }

      cpuGraph.Push("Name: " + r.GetContainerName(), cpuUsage as real, "Usage: " + cpuUsageStr,
                    limitCpu as real, Some(limitCpuLabel + ": " + limitCpuStr));
      memGraph.Push("Name: " + r.GetContainerName(), memUsage as real, "Usage: " + memUsageStr,
                    limitMemory as real, Some(limitMemoryLabel + ": " + limitMemoryStr));
      ok := true;
    }

    method UpdateNodeGraph(n: NodeResource)
      requires Valid()
      modifies cpuGraph, memGraph
      ensures (cpuGraph.View(), memGraph.View()) == NodePlots(old(cpuGraph.View()), old(memGraph.View()), n, percent)
    {
      var cpuUsage, cpuUsageStr := n.GetCpuUsagePercentage(percent).0, n.GetCpuUsagePercentage(percent).1;
      var memUsage, memUsageStr := n.GetMemoryUsagePercentage(percent).0, n.GetMemoryUsagePercentage(percent).1;

      cpuGraph.Push("Name: " + n.GetNodeName(), cpuUsage, "%Usage: " + cpuUsageStr, 100.0, None);
      memGraph.Push("Name: " + n.GetNodeName(), memUsage, "%Usage: " + memUsageStr, 100.0, None);
    }

    /**
     * fetchPodResources: None when either list could not be fetched;
     * otherwise the All view's resources and the Summarized view's, built in
     * one pass over the pod metrics that pass the pod query.
     */
    method FetchPodResources(podMetricsList: Option<seq<PodMetrics>>, podList: Option<seq<Pod>>)
      returns (result: Option<(seq<Resource>, seq<SummarizedResource>)>)
      ensures result.None? <==> podMetricsList.None? || podList.None?
      ensures result.Some? ==>
        var pms := Filtered(podMetricsList.value, PodMetricsName, podQuery);
        result.value == (AllResources(pms, podList.value, containerQuery),
                         SummarizedResources(pms, podList.value, containerQuery))
    {
      if podMetricsList.None? || podList.None? {
        return None;
      }
      var pods := podList.value;
      var resources: seq<Resource> := [];
      var summarized: seq<SummarizedResource> := [];
      var pms := FilterPodMetrics(podQuery, podMetricsList.value);
      for i := 0 to |pms|
        invariant resources == AllResources(pms[..i], pods, containerQuery)
        invariant summarized == SummarizedResources(pms[..i], pods, containerQuery)
      {
        assert pms[..i + 1][..i] == pms[..i];
        var podMetrics := pms[i];
        var pod := FindPod(podMetrics.name, pods);
        if pod.None? {
          continue;
        }
        var p := pod.value;
        var cms := FilterContainerMetrics(containerQuery, podMetrics.containers);
        var rs, cpu, mem := CollectContainers(p, cms);
        resources := resources + rs;
        summarized := summarized + [NewSummarizedResource(p, map[ResourceCPU := cpu, ResourceMemory := mem])];
      }
      assert pms[..|pms|] == pms;
      return Some((resources, summarized));
    }

    /**
     * fetchNodeResources: None when the node metrics could not be fetched;
     * otherwise one node resource per node metric that passes the node query.
     */
    method FetchNodeResources(nodeMetricsList: Option<seq<NodeMetrics>>, nodes: seq<Node>)
      returns (result: Option<seq<NodeResource>>)
      requires nodeMetricsList.Some? ==>
        AllNodesKnown(Filtered(nodeMetricsList.value, NodeMetricsName, nodeQuery), nodes)
      ensures result.None? <==> nodeMetricsList.None?
      ensures result.Some? ==>
        result.value == NodeResourcesOf(Filtered(nodeMetricsList.value, NodeMetricsName, nodeQuery), nodes)
    {
      if nodeMetricsList.None? {
        return None;
      }
      var resources: seq<NodeResource> := [];
      var nms := FilterNodeMetrics(nodeQuery, nodeMetricsList.value);
      for i := 0 to |nms|
        invariant |resources| == i
        invariant forall k :: 0 <= k < i ==> resources[k] == NodeResourcesOf(nms, nodes)[k]
      {
        var node := FindNode(nms[i].name, nodes);
        resources := resources + [NewNodeResource(node.value, nms[i])];
      }
      return Some(resources);
    }

    /** The Summarized case of Update, after the table is set: plot the selected pod or recover. */
    method PlotSummarized(nodes: seq<Node>, sums: seq<SummarizedResource>)
      requires Valid()
      modifies table, cpuGraph, memGraph
      ensures View() == PlotSelectedSummarized(old(View()), nodes, sums)
    {
      if |sums| > 0 {
        if 0 <= table.selectedRow < |sums| {
          var ok := UpdateSummarizedGraph(nodes, sums[table.selectedRow]);
          if !ok {
            table.selectedRow := 0;
          }
        } else {
          table.selectedRow := 0;
        }
      }
    }

    /** The Summarized case of Update: sort in place, show, plot the selected pod. */
    method ShowSummarized(nodes: seq<Node>, summarized: seq<SummarizedResource>)
      returns (ghost sorted: seq<SummarizedResource>)
      requires Valid()
      modifies table, cpuGraph, memGraph
      ensures SortedPermutation(sorted, summarized, SummarizedViewer.Key)
      ensures View() == UpdatedSummarized(old(View()), nodes, sorted)
    {
      var a := new SummarizedResource[|summarized|](i requires 0 <= i < |summarized| => summarized[i]);
      assert a[..] == summarized;
      SummarizedViewer.SortRows(a);
      var view := a[..];
      sorted := view;
      var shape := SummarizedViewer.GetTableShape(view, table.innerDx);
      UpdatePodTable(shape);
      PlotSummarized(nodes, view);
    }

    /** The All case of Update, after the table is set: plot the selected container or recover. */
    method PlotAll(nodes: seq<Node>, alls: seq<Resource>)
      requires Valid()
      modifies table, cpuGraph, memGraph
      ensures View() == PlotSelectedAll(old(View()), nodes, alls)
    {
      if |alls| > 0 {
        if 0 <= table.selectedRow < |alls| {
          var ok := UpdateAllGraph(nodes, alls[table.selectedRow]);
          if !ok {
            table.selectedRow := 0;
          }
        } else {
          table.selectedRow := 0;
        }
      }
    }

    /** The All case of Update: sort in place, show, plot the selected container. */
    method ShowAll(nodes: seq<Node>, resources: seq<Resource>) returns (ghost sorted: seq<Resource>)
      requires Valid()
      modifies table, cpuGraph, memGraph
      ensures SortedPermutation(sorted, resources, ResourceViewer.Key)
      ensures View() == UpdatedAll(old(View()), nodes, sorted)
    {
      var a := new Resource[|resources|](i requires 0 <= i < |resources| => resources[i]);
      assert a[..] == resources;
      ResourceViewer.SortRows(a);
      var view := a[..];
      sorted := view;
      var shape := ResourceViewer.GetTableShape(view, table.innerDx);
      UpdatePodTable(shape);
      PlotAll(nodes, view);
    }

    /** The Node case of Update, after the table is set: plot the selected node or recover. */
    method PlotNode(nrs: seq<NodeResource>)
      requires Valid()
      modifies table, cpuGraph, memGraph
      ensures View() == PlotSelectedNode(old(View()), nrs, percent)
    {
      if |nrs| > 0 {
        if 0 <= table.selectedRow < |nrs| {
          UpdateNodeGraph(nrs[table.selectedRow]);
        } else {
          table.selectedRow := 0;
        }
      }
    }

    /** The Node case of Update: sort in place, show, plot the selected node. */
    method ShowNodes(nodeResources: seq<NodeResource>) returns (ghost sorted: seq<NodeResource>)
      requires Valid()
      modifies table, cpuGraph, memGraph
      ensures SortedPermutation(sorted, nodeResources, NodeViewer.Key)
      ensures View() == UpdatedNode(old(View()), sorted, percent)
    {
      var a := new NodeResource[|nodeResources|](i requires 0 <= i < |nodeResources| => nodeResources[i]);
      assert a[..] == nodeResources;
      NodeViewer.SortRows(a);
      var view := a[..];
      sorted := view;
      var shape := NodeViewer.GetTableShape(view, table.innerDx, percent);
      UpdatePodTable(shape);
      PlotNode(view);
    }

    /**
     * Update: nothing happens, and no error is reported, when the node list
     * cannot be fetched; an error and no change when any other list cannot;
     * otherwise the current view shows its rows sorted by name and the graphs
     * plot the selected row, as Updated describes.
     */
    method Update(nodeList: Option<seq<Node>>, podMetricsList: Option<seq<PodMetrics>>,
                  podList: Option<seq<Pod>>, nodeMetricsList: Option<seq<NodeMetrics>>)
      returns (err: bool, ghost sums: seq<SummarizedResource>, ghost alls: seq<Resource>,
               ghost nrs: seq<NodeResource>)
      requires Valid()
      requires nodeList.Some? && nodeMetricsList.Some? ==>
        AllNodesKnown(Filtered(nodeMetricsList.value, NodeMetricsName, nodeQuery), nodeList.value)
      modifies table, cpuGraph, memGraph
      ensures nodeList.None? ==> !err && View() == old(View())
      ensures nodeList.Some? && (podMetricsList.None? || podList.None? || nodeMetricsList.None?) ==>
        err && View() == old(View())
      ensures nodeList.Some? && podMetricsList.Some? && podList.Some? && nodeMetricsList.Some? ==>
        var typ := tableTypeCircle.Value();
        var pms := Filtered(podMetricsList.value, PodMetricsName, podQuery);
        var nms := Filtered(nodeMetricsList.value, NodeMetricsName, nodeQuery);
        && !err
        && (typ == ResourceViewer.SummarizedType ==>
              SortedPermutation(sums, SummarizedResources(pms, podList.value, containerQuery), SummarizedViewer.Key))
        && (typ == ResourceViewer.AllType ==>
              SortedPermutation(alls, AllResources(pms, podList.value, containerQuery), ResourceViewer.Key))
        && (typ == ResourceViewer.NodeType ==>
              SortedPermutation(nrs, NodeResourcesOf(nms, nodeList.value), NodeViewer.Key))
        && View() == Updated(old(View()), nodeList.value, sums, alls, nrs, percent)
    {
      sums, alls, nrs := [], [], [];
      if nodeList.None? {
        return false, sums, alls, nrs;
      }
      var podResult := FetchPodResources(podMetricsList, podList);
      var nodeResult := FetchNodeResources(nodeMetricsList, nodeList.value);
      if podResult.None? || nodeResult.None? {
        return true, sums, alls, nrs;
      }
      var (resources, summarizedResources) := podResult.value;
      var nodeResources := nodeResult.value;
      var typ := tableTypeCircle.Value();
      if typ == ResourceViewer.SummarizedType {
        sums := ShowSummarized(nodeList.value, summarizedResources);
      } else if typ == ResourceViewer.AllType {
        alls := ShowAll(nodeList.value, resources);
      } else if typ == ResourceViewer.NodeType {
        nrs := ShowNodes(nodeResources);
      }
      err := false;
    }
  }
}
