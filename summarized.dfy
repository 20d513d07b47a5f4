/** pkg/resource/summarized.go: one pod with its usage summed over its containers. */
module Summarized {
  import opened Api
  import opened Text
  import opened Util

  datatype SummarizedResource = SummarizedResource(podName: string, nodeName: string, usage: ResourceList)
  {
    function GetNodeName(): string { nodeName }

    function GetPodName(): string { podName }

    function GetCpuUsage(): (r: (int, string))
      ensures r.0 == QuantityOf(usage, ResourceCPU)
      ensures r.1 == if ResourceCPU in usage then IntString(r.0) + "m" else "-"
    {
      (GetResourceValue(usage, ResourceCPU), GetResourceValueString(usage, ResourceCPU))
    }

    function GetMemoryUsage(): (r: (int, string))
      ensures r.0 == TruncDiv(QuantityOf(usage, ResourceMemory), MiB)
      ensures r.1 == if ResourceMemory in usage then IntString(r.0) + "Mi" else "-"
    {
      (GetResourceValue(usage, ResourceMemory), GetResourceValueString(usage, ResourceMemory))
    }

    /** The row under "POD", "CPU(U)", "Memory(U)": the usage cells are the getters' texts. */
    function ToRow(): (row: seq<string>)
      ensures |row| == 3
      ensures row[0] == podName && row[1] == GetCpuUsage().1 && row[2] == GetMemoryUsage().1
    {
      [podName, GetResourceValueString(usage, ResourceCPU), GetResourceValueString(usage, ResourceMemory)]
    }
  }

  function NewSummarizedResource(p: Pod, sumUsage: ResourceList): SummarizedResource
  {
    SummarizedResource(p.name, p.nodeName, sumUsage)
  }

  /** The constructor keeps the pod's name, its node and the usage it is given. */
  lemma NewSummarizedResourceSources(p: Pod, sumUsage: ResourceList)
    ensures var s := NewSummarizedResource(p, sumUsage);
      s.GetPodName() == p.name && s.GetNodeName() == p.nodeName && s.usage == sumUsage
  {
  }

  /** A usage holding both a cpu and a memory entry (as the aggregation builds it) is never shown as "-". */
  lemma SummedUsageIsShown(p: Pod, cpu: Quantity, mem: Quantity)
    ensures var row := NewSummarizedResource(p, map[ResourceCPU := cpu, ResourceMemory := mem]).ToRow();
      row[1] == IntString(cpu) + "m" && row[2] == IntString(TruncDiv(mem, MiB)) + "Mi"
  {
  }
}
