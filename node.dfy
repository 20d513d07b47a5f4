/** pkg/resource/node.go: one node with its allocatable figures and current usage. */
module NodeResources {
  import opened Api
  import opened Util

  /**
   * GetResourcePercentage and GetResourcePercentageString, applied to the
   * usage's and the allocatable's milli values. They compute in floating point
   * and are kept abstract here.
   */
  datatype Percentages = Percentages(value: (int, int) -> real, text: (int, int) -> string)

  /** usage.Cpu().MilliValue() and its memory counterpart. */
  function Milli(list: ResourceList, typ: ResourceName): int
  {
    MilliValue(typ, QuantityOf(list, typ))
  }

  datatype NodeResource = NodeResource(
    nodeName: string,
    capacity: ResourceList,
    allocatable: ResourceList,
    usage: ResourceList)
  {
    function GetNodeName(): string { nodeName }

    function GetCpuUsagePercentage(pct: Percentages): (real, string)
    {
      var u, a := Milli(usage, ResourceCPU), Milli(allocatable, ResourceCPU);
      (pct.value(u, a), pct.text(u, a))
    }

    function GetMemoryUsagePercentage(pct: Percentages): (real, string)
    {
      var u, a := Milli(usage, ResourceMemory), Milli(allocatable, ResourceMemory);
      (pct.value(u, a), pct.text(u, a))
    }

    /**
     * The row under "NODE", "CPU(A)", "CPU(U)", "%CPU", "Memory(A)",
     * "Memory(U)", "%Memory"; the percentage cells are the texts the graphs show.
     */
    function ToRow(pct: Percentages): (row: seq<string>)
      ensures |row| == 7 && row[0] == nodeName
      ensures row[3] == GetCpuUsagePercentage(pct).1 && row[6] == GetMemoryUsagePercentage(pct).1
    {
      [
        nodeName,
        GetResourceValueString(allocatable, ResourceCPU),
        GetResourceValueString(usage, ResourceCPU),
        pct.text(Milli(usage, ResourceCPU), Milli(allocatable, ResourceCPU)),
        GetResourceValueString(allocatable, ResourceMemory),
        GetResourceValueString(usage, ResourceMemory),
        pct.text(Milli(usage, ResourceMemory), Milli(allocatable, ResourceMemory))
      ]
    }
  }

  /** The name comes from the metrics record; capacity and allocatable from the node's status. */
  function NewNodeResource(n: Node, nm: NodeMetrics): NodeResource
  {
    NodeResource(nm.name, n.capacity, n.allocatable, nm.usage)
  }

  lemma NewNodeResourceSources(n: Node, nm: NodeMetrics, pct: Percentages)
    ensures var r := NewNodeResource(n, nm);
      && r.GetNodeName() == nm.name
      && r.ToRow(pct)[1] == GetResourceValueString(n.allocatable, ResourceCPU)
      && r.ToRow(pct)[2] == GetResourceValueString(nm.usage, ResourceCPU)
      && r.ToRow(pct)[4] == GetResourceValueString(n.allocatable, ResourceMemory)
      && r.ToRow(pct)[5] == GetResourceValueString(nm.usage, ResourceMemory)
  {
  }

  /** Capacity is stored but never shown. */
  lemma RowIgnoresCapacity(r: NodeResource, capacity: ResourceList, pct: Percentages)
    ensures r.(capacity := capacity).ToRow(pct) == r.ToRow(pct)
  {
  }

  /** "%CPU" depends only on the cpu usage and allocatable, "%Memory" only on the memory ones. */
  lemma PercentCellsDependOnlyOnTheirResource(r1: NodeResource, r2: NodeResource, pct: Percentages)
    ensures QuantityOf(r1.usage, ResourceCPU) == QuantityOf(r2.usage, ResourceCPU)
      && QuantityOf(r1.allocatable, ResourceCPU) == QuantityOf(r2.allocatable, ResourceCPU)
      ==> r1.ToRow(pct)[3] == r2.ToRow(pct)[3]
    ensures QuantityOf(r1.usage, ResourceMemory) == QuantityOf(r2.usage, ResourceMemory)
      && QuantityOf(r1.allocatable, ResourceMemory) == QuantityOf(r2.allocatable, ResourceMemory)
      ==> r1.ToRow(pct)[6] == r2.ToRow(pct)[6]
  {
  }
}
