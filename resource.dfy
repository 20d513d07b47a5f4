/** pkg/resource/resource.go: one container of one pod, as shown by the All view. */
module Resource {
  import opened Api
  import opened Text
  import opened Util

  datatype Resource = Resource(
    nodeName: string,
    podName: string,
    containerName: string,
    usage: ResourceList,
    limits: ResourceList,
    requests: ResourceList)
  {
    function GetNodeName(): string { nodeName }

    function GetContainerName(): string { containerName }

    /** The cpu limit: whether it is set, and its value and text (0 and "-" when it is not). */
    function GetCpuLimits(): (r: (int, string, bool))
      ensures r.2 <==> ResourceCPU in limits
      ensures !r.2 ==> r.0 == 0 && r.1 == "-"
      ensures r.2 ==> r.0 == limits[ResourceCPU] && r.1 == IntString(r.0) + "m"
    {
      var ok := ResourceCPU in limits;
      (GetResourceValue(limits, ResourceCPU), GetResourceValueString(limits, ResourceCPU), ok)
    }

    function GetCpuUsage(): (r: (int, string))
      ensures r.0 == QuantityOf(usage, ResourceCPU)
      ensures r.1 == if ResourceCPU in usage then IntString(r.0) + "m" else "-"
    {
      (GetResourceValue(usage, ResourceCPU), GetResourceValueString(usage, ResourceCPU))
    }

    /** The memory limit in whole mebibytes: whether it is set, its value and text. */
    function GetMemoryLimits(): (r: (int, string, bool))
      ensures r.2 <==> ResourceMemory in limits
      ensures !r.2 ==> r.0 == 0 && r.1 == "-"
      ensures r.2 ==> r.0 == TruncDiv(limits[ResourceMemory], MiB) && r.1 == IntString(r.0) + "Mi"
    {
      var ok := ResourceMemory in limits;
      (GetResourceValue(limits, ResourceMemory), GetResourceValueString(limits, ResourceMemory), ok)
    }

    function GetMemoryUsage(): (r: (int, string))
      ensures r.0 == TruncDiv(QuantityOf(usage, ResourceMemory), MiB)
      ensures r.1 == if ResourceMemory in usage then IntString(r.0) + "Mi" else "-"
    {
      (GetResourceValue(usage, ResourceMemory), GetResourceValueString(usage, ResourceMemory))
    }

    /**
     * The row under "POD", "CONTAINER", "CPU(U)", "CPU(L)", "CPU(R)",
     * "Memory(U)", "Memory(L)", "Memory(R)": the usage and limit cells show
     * the getters' texts.
     */
    function ToRow(): (row: seq<string>)
      ensures |row| == 8
      ensures row[0] == podName && row[1] == containerName
      ensures row[2] == GetCpuUsage().1 && row[3] == GetCpuLimits().1
      ensures row[5] == GetMemoryUsage().1 && row[6] == GetMemoryLimits().1
      ensures row[4] == GetResourceValueString(requests, ResourceCPU)
      ensures row[7] == GetResourceValueString(requests, ResourceMemory)
    {
      [
        podName,
        containerName,
        GetResourceValueString(usage, ResourceCPU),
        GetResourceValueString(limits, ResourceCPU),
        GetResourceValueString(requests, ResourceCPU),
        GetResourceValueString(usage, ResourceMemory),
        GetResourceValueString(limits, ResourceMemory),
        GetResourceValueString(requests, ResourceMemory)
      ]
    }
  }

  function NewResource(p: Pod, c: Container, cm: ContainerMetrics): Resource
  {
    Resource(p.nodeName, p.name, c.name, cm.usage, c.limits, c.requests)
  }

  /**
   * A new resource is placed on the pod's node and named after the pod and the
   * container spec; it reports the metrics' usage and the spec's limits and requests.
   */
  lemma NewResourceSources(p: Pod, c: Container, cm: ContainerMetrics)
    ensures var r := NewResource(p, c, cm);
      && r.GetNodeName() == p.nodeName && r.GetContainerName() == c.name
      && r.ToRow()[0] == p.name && r.ToRow()[1] == c.name
      && r.GetCpuUsage().0 == QuantityOf(cm.usage, ResourceCPU)
      && (r.GetCpuLimits().2 <==> ResourceCPU in c.limits)
      && (r.GetMemoryLimits().2 <==> ResourceMemory in c.limits)
      && r.ToRow()[4] == GetResourceValueString(c.requests, ResourceCPU)
  {
  }
}
