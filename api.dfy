/**
 * The slice of the Kubernetes API objects that ktop reads: pods, containers,
 * nodes and their metrics. A resource list maps a resource name to a
 * quantity; quantities are integers, in milli-units for "cpu" and in bytes
 * for "memory".
 */
module Api {
  type ResourceName = string

  const ResourceCPU: ResourceName := "cpu"
  const ResourceMemory: ResourceName := "memory"

  /** Milli-units for ResourceCPU, bytes for ResourceMemory. */
  type Quantity = int

  type ResourceList = map<ResourceName, Quantity>

  datatype Container = Container(name: string, limits: ResourceList, requests: ResourceList)

  /** A pod: its name, the node it is scheduled on (Spec.NodeName) and its container specs. */
  datatype Pod = Pod(name: string, nodeName: string, containers: seq<Container>)

  /** A node with Status.Capacity and Status.Allocatable. */
  datatype Node = Node(name: string, capacity: ResourceList, allocatable: ResourceList)

  datatype ContainerMetrics = ContainerMetrics(name: string, usage: ResourceList)

  datatype PodMetrics = PodMetrics(name: string, containers: seq<ContainerMetrics>)

  datatype NodeMetrics = NodeMetrics(name: string, usage: ResourceList)

  /** ResourceList.Cpu() / ResourceList.Memory(): the stored quantity, or a zero quantity. */
  function QuantityOf(list: ResourceList, name: ResourceName): Quantity
  {
    if name in list then list[name] else 0
  }

  /** Quantity.MilliValue(): a cpu quantity already is in millis, a memory quantity is bytes times 1000. */
  function MilliValue(name: ResourceName, q: Quantity): int
  {
    if name == ResourceMemory then q * 1000 else q
  }

  function NodeName(n: Node): string { n.name }
  function PodName(p: Pod): string { p.name }
  function ContainerName(c: Container): string { c.name }
  function NodeMetricsName(m: NodeMetrics): string { m.name }
  function PodMetricsName(m: PodMetrics): string { m.name }
  function ContainerMetricsName(m: ContainerMetrics): string { m.name }
}
