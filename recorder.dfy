/**
 * The collaborators the poll loops call: listing the pods, and collecting
 * the cpu and memory usage of every container with a given name from the
 * pod-metrics listing.
 */
module Recorder {
  import opened Wrappers
  import opened GoInt
  import opened Kube

  /** One container's usage as the metrics API reports it; `memory` is None when it is not an int64. */
  datatype ContainerMetrics = ContainerMetrics(name: string, cpu: real, memory: Option<Int64>)

  datatype PodMetrics = PodMetrics(containers: seq<ContainerMetrics>)

  /** The two parallel lists `FetchMetricsList` returns. */
  datatype MetricsList = MetricsList(cpu: seq<real>, memory: seq<Int64>)

  // ---------------------------------------------------------------------
  // Specification of the metrics filter

  /** Every container of `pods` in visiting order: pod by pod, each pod's containers in order. */
  function AllContainers(pods: seq<PodMetrics>): seq<ContainerMetrics> {
    if pods == [] then [] else AllContainers(pods[..|pods| - 1]) + pods[|pods| - 1].containers
  }

  /** The containers of `cs` called `name`, in the order of `cs`. */
  function Named(cs: seq<ContainerMetrics>, name: string): (r: seq<ContainerMetrics>)
    ensures |r| <= |cs|
    ensures forall i :: 0 <= i < |r| ==> r[i].name == name
  {
    if cs == [] then []
    else Named(cs[..|cs| - 1], name) + (if cs[|cs| - 1].name == name then [cs[|cs| - 1]] else [])
  }

  /** Whether every container's memory usage is representable as an int64. */
  predicate AllMemoryInt64(cs: seq<ContainerMetrics>) {
    forall i :: 0 <= i < |cs| ==> cs[i].memory.Some?
  }

  /** Entry k of both lists comes from container `cs[k]`. */
  predicate Aligned(m: MetricsList, cs: seq<ContainerMetrics>) {
    && |m.cpu| == |cs|
    && |m.memory| == |cs|
    && forall k :: 0 <= k < |cs| ==> m.cpu[k] == cs[k].cpu && cs[k].memory == Some(m.memory[k])
  }

  // ---------------------------------------------------------------------
  // FetchPodList

  /**
   * `FetchPodList`: an empty namespace is replaced by "default", but the pods
   * are then always listed in "default", so the argument makes no difference.
   * `listPods` is the cluster's answer to listing the pods of a namespace.
   */
  function FetchPodList(namespace: string, listPods: string -> Result<seq<Pod>>): (r: Result<seq<Pod>>)
    ensures r == listPods(DefaultNamespaceName)
  {
    listPods(DefaultNamespaceName)
  }

  // ---------------------------------------------------------------------
  // FetchMetricsList

  /**
   * `FetchMetricsList`: walks the listed pod metrics and each pod's containers
   * in order. A container whose memory is not an int64 aborts the whole call,
   * whether or not its name matches; otherwise the cpu and memory of every
   * container called `containerName` are appended to two parallel lists.
   * `listed` is the outcome of connecting to the metrics API and listing the
   * pod metrics of "default"; an error there is returned unchanged.
   */
  method FetchMetricsList(containerName: string, listed: Result<seq<PodMetrics>>) returns (r: Result<MetricsList>)
    ensures listed.Err? ==> r == Err(listed.error)
    ensures listed.Ok? && !AllMemoryInt64(AllContainers(listed.value)) ==> r == Err(CantFetchMemory)
    ensures listed.Ok? && AllMemoryInt64(AllContainers(listed.value)) ==>
              r.Ok? && Aligned(r.value, Named(AllContainers(listed.value), containerName))
  {
    if listed.Err? {
      return Err(listed.error);
    }
    var pods := listed.value;
    var cpuList: seq<real> := [];
    var memoryList: seq<Int64> := [];
    var i := 0;
    while i < |pods|
      invariant 0 <= i <= |pods|
      invariant AllMemoryInt64(AllContainers(pods[..i]))
      invariant Aligned(MetricsList(cpuList, memoryList), Named(AllContainers(pods[..i]), containerName))
    {
      var containers := pods[i].containers;
      ghost var visited := AllContainers(pods[..i]);
      var j := 0;
      assert visited + containers[..j] == visited;
      while j < |containers|
        invariant 0 <= j <= |containers|
        invariant AllMemoryInt64(visited + containers[..j])
        invariant Aligned(MetricsList(cpuList, memoryList), Named(visited + containers[..j], containerName))
      {
        var container := containers[j];
        if container.memory.None? {
          MissingMemoryAborts(pods, i, j);
          return Err(CantFetchMemory);
        }
        ghost var before := visited + containers[..j];
        assert visited + containers[..j + 1] == before + [container];
        NamedSnoc(before, container, containerName);
        AllMemorySnoc(before, container);
        if container.name == containerName {
          AlignedSnoc(MetricsList(cpuList, memoryList), Named(before, containerName), container);
          cpuList := cpuList + [container.cpu];
          memoryList := memoryList + [container.memory.value];
        }
        j := j + 1;
      }
      assert containers[..j] == containers;
      AllContainersStep(pods, i);
      i := i + 1;
    }
    assert pods[..i] == pods;
    return Ok(MetricsList(cpuList, memoryList));
  }

  // ---------------------------------------------------------------------
  // Lemmas

  /** One more pod visits that pod's containers after those already visited. */
  lemma AllContainersStep(pods: seq<PodMetrics>, i: nat)
    requires i < |pods|
    ensures AllContainers(pods[..i + 1]) == AllContainers(pods[..i]) + pods[i].containers
  {
    assert pods[..i + 1][..i] == pods[..i];
  }

  /** Selecting from a sequence extended by one container. */
  lemma NamedSnoc(cs: seq<ContainerMetrics>, c: ContainerMetrics, name: string)
    ensures Named(cs + [c], name) == Named(cs, name) + (if c.name == name then [c] else [])
  {
    assert (cs + [c])[..|cs + [c]| - 1] == cs;
  }

  /** Appending one container whose memory is an int64 keeps every memory an int64. */
  lemma AllMemorySnoc(cs: seq<ContainerMetrics>, c: ContainerMetrics)
    requires AllMemoryInt64(cs) && c.memory.Some?
    ensures AllMemoryInt64(cs + [c])
  {
  }

  /** Appending a container's usage to both lists keeps them aligned with the selection. */
  lemma AlignedSnoc(m: MetricsList, cs: seq<ContainerMetrics>, c: ContainerMetrics)
    requires Aligned(m, cs) && c.memory.Some?
    ensures Aligned(MetricsList(m.cpu + [c.cpu], m.memory + [c.memory.value]), cs + [c])
  {
  }

  /** A container anywhere in the listing whose memory is not an int64 makes the listing unusable. */
  lemma MissingMemoryAborts(pods: seq<PodMetrics>, i: nat, j: nat)
    requires i < |pods| && j < |pods[i].containers| && pods[i].containers[j].memory.None?
    ensures !AllMemoryInt64(AllContainers(pods))
  {
    AllContainersStep(pods, i);
    AllContainersPrefix(pods, i + 1);
    var k := |AllContainers(pods[..i])| + j;
    assert AllContainers(pods)[k] == AllContainers(pods[..i + 1])[k] == pods[i].containers[j];
  }

  /** Listing a prefix of the pods visits a prefix of the containers. */
  lemma {:induction false} AllContainersPrefix(pods: seq<PodMetrics>, n: nat)
    requires n <= |pods|
    ensures AllContainers(pods[..n]) <= AllContainers(pods)
  {
    if n < |pods| {
      var init := pods[..|pods| - 1];
      assert init[..n] == pods[..n];
      AllContainersPrefix(init, n);
    } else {
      assert pods[..n] == pods;
    }
  }

  /** A container is selected exactly when it is visited and carries the requested name. */
  lemma {:induction false} NamedMembers(cs: seq<ContainerMetrics>, name: string, c: ContainerMetrics)
    ensures c in Named(cs, name) <==> c in cs && c.name == name
  {
    if cs != [] {
      var init := cs[..|cs| - 1];
      assert cs == init + [cs[|cs| - 1]];
      NamedMembers(init, name, c);
    }
  }

  /** Selection keeps order: selecting from two consecutive stretches selects from each in turn. */
  lemma {:induction false} NamedAppend(a: seq<ContainerMetrics>, b: seq<ContainerMetrics>, name: string)
    ensures Named(a + b, name) == Named(a, name) + Named(b, name)
  {
    if b != [] {
      var init := b[..|b| - 1];
      assert (a + b)[..|a + b| - 1] == a + init;
      NamedAppend(a, init, name);
    } else {
      assert a + b == a;
    }
  }

  /** With no container of that name, the call returns two empty lists and no error. */
  lemma {:induction false} NoMatchIsEmpty(cs: seq<ContainerMetrics>, name: string)
    requires forall i :: 0 <= i < |cs| ==> cs[i].name != name
    ensures Named(cs, name) == []
  {
    if Named(cs, name) != [] {
      var c := Named(cs, name)[0];
      NamedMembers(cs, name, c);
    }
  }
}
