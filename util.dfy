/**
 * pkg/util: name filters and lookups over API lists, resource-list readers
 * and integer max/min. A compiled regular expression is modelled as a
 * predicate on names.
 */
module Util {
  import opened Wrappers
  import opened Api
  import opened Text

  /** The elements of xs whose name satisfies query, in their original order. */
  function Filtered<T>(xs: seq<T>, nameOf: T -> string, query: string -> bool): seq<T>
  {
    if |xs| == 0 then []
    else Filtered(xs[..|xs| - 1], nameOf, query)
         + (if query(nameOf(xs[|xs| - 1])) then [xs[|xs| - 1]] else [])
  }

  /** s keeps some of the elements of xs, in the same relative order. */
  ghost predicate IsSubsequence<T>(s: seq<T>, xs: seq<T>)
  {
    if |s| == 0 then true
    else if |xs| == 0 then false
    else if s[|s| - 1] == xs[|xs| - 1] then IsSubsequence(s[..|s| - 1], xs[..|xs| - 1])
    else IsSubsequence(s, xs[..|xs| - 1])
  }

  /** An element is kept exactly when it is in the input and its name matches. */
  lemma {:induction false} FilteredMembers<T>(xs: seq<T>, nameOf: T -> string, query: string -> bool)
    ensures forall x :: x in Filtered(xs, nameOf, query) <==> x in xs && query(nameOf(x))
  {
    if |xs| > 0 {
      FilteredMembers(xs[..|xs| - 1], nameOf, query);
      assert xs == xs[..|xs| - 1] + [xs[|xs| - 1]];
    }
  }

  /** The kept elements appear in the input order. */
  lemma {:induction false} FilteredKeepsOrder<T>(xs: seq<T>, nameOf: T -> string, query: string -> bool)
    ensures IsSubsequence(Filtered(xs, nameOf, query), xs)
  {
    if |xs| > 0 {
      var init := xs[..|xs| - 1];
      FilteredKeepsOrder(init, nameOf, query);
      if !query(nameOf(xs[|xs| - 1])) {
        assert Filtered(xs, nameOf, query) == Filtered(init, nameOf, query);
        SubsequenceOfPrefix(Filtered(init, nameOf, query), init, xs[|xs| - 1]);
      } else {
        var f := Filtered(xs, nameOf, query);
        assert f[..|f| - 1] == Filtered(init, nameOf, query);
      }
    }
  }

  /** Appending to the input keeps a subsequence a subsequence. */
  lemma {:induction false} SubsequenceOfPrefix<T>(s: seq<T>, xs: seq<T>, x: T)
    requires IsSubsequence(s, xs)
    ensures IsSubsequence(s, xs + [x])
    decreases |s| + |xs|, 1
  {
    var ys := xs + [x];
    assert ys[..|ys| - 1] == xs;
    if |s| > 0 && s[|s| - 1] == x {
      PrefixOfSubsequence(s, xs);
    }
  }

  /** Dropping the last element of a subsequence keeps it a subsequence. */
  lemma {:induction false} PrefixOfSubsequence<T>(s: seq<T>, xs: seq<T>)
    requires |s| > 0 && IsSubsequence(s, xs)
    ensures IsSubsequence(s[..|s| - 1], xs)
    decreases |s| + |xs|, 0
  {
    var init := xs[..|xs| - 1];
    assert init + [xs[|xs| - 1]] == xs;
    if s[|s| - 1] == xs[|xs| - 1] {
      SubsequenceOfPrefix(s[..|s| - 1], init, xs[|xs| - 1]);
    } else {
      PrefixOfSubsequence(s, init);
      SubsequenceOfPrefix(s[..|s| - 1], init, xs[|xs| - 1]);
    }
  }

  /** A match-all query (the ".*" default) keeps the list as it is. */
  lemma {:induction false} FilteredAllMatch<T>(xs: seq<T>, nameOf: T -> string, query: string -> bool)
    requires forall i :: 0 <= i < |xs| ==> query(nameOf(xs[i]))
    ensures Filtered(xs, nameOf, query) == xs
  {
    if |xs| > 0 {
      FilteredAllMatch(xs[..|xs| - 1], nameOf, query);
    }
  }

  method FilterNodeMetrics(query: string -> bool, nodes: seq<NodeMetrics>) returns (filtered: seq<NodeMetrics>)
    ensures filtered == Filtered(nodes, NodeMetricsName, query)
  {
    filtered := [];
    for i := 0 to |nodes|
      invariant filtered == Filtered(nodes[..i], NodeMetricsName, query)
    {
      if query(nodes[i].name) {
        filtered := filtered + [nodes[i]];
      }
      assert nodes[..i + 1][..i] == nodes[..i];
    }
    assert nodes[..|nodes|] == nodes;
  }

  method FilterPodMetrics(query: string -> bool, pods: seq<PodMetrics>) returns (filtered: seq<PodMetrics>)
    ensures filtered == Filtered(pods, PodMetricsName, query)
  {
    filtered := [];
    for i := 0 to |pods|
      invariant filtered == Filtered(pods[..i], PodMetricsName, query)
    {
      if query(pods[i].name) {
        filtered := filtered + [pods[i]];
      }
      assert pods[..i + 1][..i] == pods[..i];
    }
    assert pods[..|pods|] == pods;
  }

  method FilterContainerMetrics(query: string -> bool, containers: seq<ContainerMetrics>)
    returns (filtered: seq<ContainerMetrics>)
    ensures filtered == Filtered(containers, ContainerMetricsName, query)
  {
    filtered := [];
    for i := 0 to |containers|
      invariant filtered == Filtered(containers[..i], ContainerMetricsName, query)
    {
      if query(containers[i].name) {
        filtered := filtered + [containers[i]];
      }
      assert containers[..i + 1][..i] == containers[..i];
    }
    assert containers[..|containers|] == containers;
  }

  /** The first element of xs with the given name; None stands for Go's nil. */
  function Find<T>(xs: seq<T>, nameOf: T -> string, name: string): Option<T>
  {
    if |xs| == 0 then None
    else if nameOf(xs[0]) == name then Some(xs[0])
    else Find(xs[1..], nameOf, name)
  }

  /** Find answers nil exactly when no element has the name, and otherwise the first one that does. */
  lemma {:induction false} FindFirst<T>(xs: seq<T>, nameOf: T -> string, name: string)
    ensures Find(xs, nameOf, name).None? <==> forall i :: 0 <= i < |xs| ==> nameOf(xs[i]) != name
    ensures Find(xs, nameOf, name).Some? ==>
      exists i :: 0 <= i < |xs| && xs[i] == Find(xs, nameOf, name).value && nameOf(xs[i]) == name
        && forall j :: 0 <= j < i ==> nameOf(xs[j]) != name
  {
    if |xs| > 0 && nameOf(xs[0]) != name {
      var r := Find(xs[1..], nameOf, name);
      FindFirst(xs[1..], nameOf, name);
      if r.Some? {
        var i :| 0 <= i < |xs[1..]| && xs[1..][i] == r.value && nameOf(xs[1..][i]) == name
          && forall j :: 0 <= j < i ==> nameOf(xs[1..][j]) != name;
        assert xs[i + 1] == r.value && forall j :: 0 <= j < i + 1 ==> nameOf(xs[j]) != name by {
          forall j | 0 <= j < i + 1 ensures nameOf(xs[j]) != name {
            if j > 0 { assert xs[j] == xs[1..][j - 1]; }
          }
        }
      } else {
        forall i | 0 <= i < |xs| ensures nameOf(xs[i]) != name {
          if i > 0 { assert xs[i] == xs[1..][i - 1]; }
        }
      }
    }
  }

  /** Skipping a prefix that holds no element of that name does not change the answer. */
  lemma FindAfterMisses<T>(xs: seq<T>, nameOf: T -> string, name: string, i: nat)
    requires i < |xs| && nameOf(xs[i]) != name
    ensures Find(xs[i..], nameOf, name) == Find(xs[i + 1..], nameOf, name)
  {
    assert xs[i..][1..] == xs[i + 1..];
  }

  method FindNode(name: string, nodes: seq<Node>) returns (node: Option<Node>)
    ensures node == Find(nodes, NodeName, name)
  {
    for i := 0 to |nodes|
      invariant Find(nodes, NodeName, name) == Find(nodes[i..], NodeName, name)
    {
      if name == nodes[i].name {
        return Some(nodes[i]);
      }
      FindAfterMisses(nodes, NodeName, name, i);
    }
    return None;
  }

  method FindPod(name: string, pods: seq<Pod>) returns (pod: Option<Pod>)
    ensures pod == Find(pods, PodName, name)
  {
    for i := 0 to |pods|
      invariant Find(pods, PodName, name) == Find(pods[i..], PodName, name)
    {
      if name == pods[i].name {
        return Some(pods[i]);
      }
      FindAfterMisses(pods, PodName, name, i);
    }
    return None;
  }

  method FindContainer(name: string, containers: seq<Container>) returns (container: Option<Container>)
    ensures container == Find(containers, ContainerName, name)
  {
    for i := 0 to |containers|
      invariant Find(containers, ContainerName, name) == Find(containers[i..], ContainerName, name)
    {
      if name == containers[i].name {
        return Some(containers[i]);
      }
      FindAfterMisses(containers, ContainerName, name, i);
    }
    return None;
  }

  const MiB: int := 1024 * 1024

  /** Go's `/` on int64: the quotient truncated toward zero. */
  function TruncDiv(a: int, b: int): int
    requires b > 0
  {
    if a >= 0 then a / b else -((-a) / b)
  }

  /** Whole mebibytes round toward zero: the count never overstates the byte value. */
  lemma TruncMiBBounds(bytes: int)
    ensures var q := TruncDiv(bytes, MiB);
      (bytes >= 0 ==> 0 <= q * MiB <= bytes < q * MiB + MiB)
      && (bytes < 0 ==> q * MiB - MiB < bytes <= q * MiB <= 0)
  {
  }

  /**
   * GetResourceValue: the milli value of a cpu entry, the whole mebibytes of a
   * memory entry (truncating), and 0 for an absent key or any other resource.
   */
  function GetResourceValue(list: ResourceList, typ: ResourceName): (v: int)
    ensures typ == ResourceCPU && typ in list ==> v == list[typ]
    ensures typ == ResourceMemory && typ in list ==> v == TruncDiv(list[typ], MiB)
    ensures typ !in list || (typ != ResourceCPU && typ != ResourceMemory) ==> v == 0
  {
    if typ == ResourceCPU && typ in list then list[typ]
    else if typ == ResourceMemory && typ in list then TruncDiv(list[typ], MiB)
    else 0
  }

  /** The unit suffix GetResourceValueString puts after the number. */
  function UnitSuffix(typ: ResourceName): string
  {
    if typ == ResourceCPU then "m" else "Mi"
  }

  function GetResourceValueString(list: ResourceList, typ: ResourceName): string
  {
    if typ == ResourceCPU && typ in list then IntString(list[typ]) + "m"
    else if typ == ResourceMemory && typ in list then IntString(TruncDiv(list[typ], MiB)) + "Mi"
    else "-"
  }

  /**
   * The string shows the same number GetResourceValue returns, followed by its
   * unit, and reads back as that number; an absent key shows "-" and is worth 0.
   */
  lemma ResourceValueStringAgrees(list: ResourceList, typ: ResourceName)
    ensures var s := GetResourceValueString(list, typ);
      if (typ == ResourceCPU || typ == ResourceMemory) && typ in list then
        var u := UnitSuffix(typ);
        |s| > |u| && s[|s| - |u|..] == u && ParseInt(s[..|s| - |u|]) == Some(GetResourceValue(list, typ))
      else
        s == "-" && GetResourceValue(list, typ) == 0
  {
    var s := GetResourceValueString(list, typ);
    if (typ == ResourceCPU || typ == ResourceMemory) && typ in list {
      var n := GetResourceValue(list, typ);
      var u := UnitSuffix(typ);
      assert s == IntString(n) + u;
      assert s[..|s| - |u|] == IntString(n);
      IntStringParses(n);
    }
  }

  /** 2147483648 bytes of memory are shown as "2048Mi". */
  lemma MemoryStringExample()
    ensures GetResourceValueString(map[ResourceMemory := 2147483648], ResourceMemory) == "2048Mi"
  {
    assert TruncDiv(2147483648, MiB) == 2048;
    assert NatString(2048) == "2048" by {
      assert NatString(2) == "2";
      assert NatString(20) == "20";
      assert NatString(204) == "204";
    }
  }

  function IntMax(x: int, y: int): (r: int)
    ensures r >= x && r >= y && (r == x || r == y)
  {
    if x > y then x else y
  }

  function IntMin(x: int, y: int): (r: int)
    ensures r <= x && r <= y && (r == x || r == y)
  {
    if x < y then x else y
  }
}
