/**
 * The VPA check and the workload's creation and deletion.
 *
 * Both poll loops call a collaborator that is given here as its scripted
 * answers: `Run` sees the answers of successive metrics fetches as a
 * sequence, `CreatePod` sees the answer of the i-th pod-list fetch as
 * `fetchPodList(i)`. The REST calls that create and delete the deployment are
 * given by the error they answer with, and the methods report which request
 * they issued.
 */
module Request {
  import opened Wrappers
  import opened GoInt
  import opened Kube
  import opened Recorder
  import Converter

  // ---------------------------------------------------------------------
  // Run

  /**
   * One container policy of the VPA object. A memory bound is None when the
   * quantity cannot be represented as an int64 (`AsInt64` answers not ok); a
   * bound the policy leaves out is the zero quantity.
   */
  datatype ContainerPolicy = ContainerPolicy(
    containerName: string,
    minAllowedMemory: Option<Int64>,
    maxAllowedMemory: Option<Int64>)

  datatype VpaConfig = VpaConfig(containerPolicies: seq<ContainerPolicy>)

  /**
   * The states of the VPA check: polling for metrics, a memory sample
   * acquired, and the three ways it ends. `Pass` is Go's nil error, `Fail` the
   * "memory resources is out of range" error, `Aborted` any other error.
   */
  datatype RunState =
    | Polling
    | Acquired(observed: Int64)
    | Pass
    | Fail(observed: Int64)
    | Aborted(error: Error)

  /** The memory the stress command allocates: `(min + max) / 2` in int64 arithmetic. */
  function StressLoad(minMemory: Int64, maxMemory: Int64): (load: Int64)
    ensures var sum := minMemory + maxMemory;
      MinInt64 <= sum <= MaxInt64 ==>
        if sum >= 0 then 2 * load <= sum <= 2 * load + 1 else 2 * load - 1 <= sum <= 2 * load
  {
    HalfInt64(AddInt64(minMemory, maxMemory))
  }

  /** The bound check: inclusive at both ends. */
  function CheckRange(minMemory: Int64, maxMemory: Int64, observed: Int64): (s: RunState)
    ensures s == Pass <==> minMemory <= observed <= maxMemory
    ensures s != Pass ==> s == Fail(observed)
  {
    if minMemory > observed || observed > maxMemory then Fail(observed) else Pass
  }

  /** A metrics answer that ends the polling: an error, or a non-empty memory list. */
  predicate Settles(response: Result<MetricsList>) {
    response.Err? || |response.value.memory| > 0
  }

  /** The position of the first answer that ends the polling, or `|responses|` if none does. */
  function FirstSettled(responses: seq<Result<MetricsList>>): (k: nat)
    ensures k <= |responses|
    ensures k < |responses| ==> Settles(responses[k])
    ensures forall j :: 0 <= j < k ==> !Settles(responses[j])
  {
    if responses == [] then 0
    else if Settles(responses[0]) then 0
    else 1 + FirstSettled(responses[1..])
  }

  /**
   * The memory bounds `Run` reads from a policy, as (min, max): the
   * conversion error when either of them is not an int64.
   */
  function MemoryBounds(policy: ContainerPolicy): (r: Result<(Int64, Int64)>)
    ensures r.Err? <==> policy.minAllowedMemory.None? || policy.maxAllowedMemory.None?
    ensures r.Err? ==> r.error == MemoryNotInt64
    ensures r.Ok? ==> Some(r.value.0) == policy.minAllowedMemory && Some(r.value.1) == policy.maxAllowedMemory
  {
    match (policy.minAllowedMemory, policy.maxAllowedMemory)
    case (Some(lo), Some(hi)) => Ok((lo, hi))
    case _ => Err(MemoryNotInt64)
  }

  /**
   * `Run`: reads the memory bounds of the second container policy, computes
   * the stress load (returned in `stress`; the exec session that applies it is
   * not waited for), then fetches metrics until an answer is an error or has a
   * memory sample, and checks the first sample against the bounds. When every
   * scripted answer is empty the state stays `Polling`: the source keeps
   * polling without limit. `fetches` counts the metrics fetches made.
   */
  method Run(config: VpaConfig, responses: seq<Result<MetricsList>>)
    returns (state: RunState, stress: Option<Int64>, fetches: nat)
    requires |config.containerPolicies| > 1
    ensures state.Polling? || state.Pass? || state.Fail? || state.Aborted?
    ensures fetches <= |responses|
    ensures var bounds := MemoryBounds(config.containerPolicies[1]);
      bounds.Err? ==> state == Aborted(bounds.error) && stress == None && fetches == 0
    ensures var bounds := MemoryBounds(config.containerPolicies[1]);
      bounds.Ok? ==>
      var (lo, hi) := bounds.value;
      var k := FirstSettled(responses);
      && stress == Some(StressLoad(lo, hi))
      && fetches == (if k < |responses| then k + 1 else |responses|)
      && (if k == |responses| then state == Polling
          else if responses[k].Err? then state == Aborted(responses[k].error)
          else state == CheckRange(lo, hi, responses[k].value.memory[0]))
  {
    var policy := config.containerPolicies[1];
    if policy.maxAllowedMemory.None? {
      return Aborted(MemoryNotInt64), None, 0;
    }
    var maxMemory := policy.maxAllowedMemory.value;
    if policy.minAllowedMemory.None? {
      return Aborted(MemoryNotInt64), None, 0;
    }
    var minMemory := policy.minAllowedMemory.value;
    stress := Some(StressLoad(minMemory, maxMemory));
    state := Polling;
    fetches := 0;
    while state.Polling? && fetches < |responses|
      invariant fetches <= |responses|
      invariant state.Polling? || state.Acquired? || state.Aborted?
      invariant state.Polling? ==> forall j :: 0 <= j < fetches ==> !Settles(responses[j])
      invariant !state.Polling? ==> 0 < fetches && FirstSettled(responses) == fetches - 1
      invariant state.Aborted? ==> responses[fetches - 1] == Err(state.error)
      invariant state.Acquired? ==>
        responses[fetches - 1].Ok? && state.observed == responses[fetches - 1].value.memory[0]
    {
      var response := responses[fetches];
      fetches := fetches + 1;
      if response.Err? {
        state := Aborted(response.error);
      } else if |response.value.memory| != 0 {
        state := Acquired(response.value.memory[0]);
      }
    }
    if state.Acquired? {
      state := CheckRange(minMemory, maxMemory, state.observed);
    }
  }

  /** The midpoint lies between the bounds whenever their int64 sum does not wrap. */
  lemma StressLoadWithinBounds(minMemory: Int64, maxMemory: Int64)
    requires minMemory <= maxMemory
    requires MinInt64 <= minMemory + maxMemory <= MaxInt64
    ensures minMemory <= StressLoad(minMemory, maxMemory) <= maxMemory
  {
  }

  /** When the sum wraps the midpoint leaves the bounds: two MaxInt64 bounds give -1. */
  lemma StressLoadWraps()
    ensures StressLoad(MaxInt64, MaxInt64) == -1
  {
  }

  /** The fixtures: the sample policy's bounds with the fake metrics source's sample, and a sample above them. */
  method SampleRun() returns (inRange: RunState, tooLarge: RunState, fetches: nat)
    ensures inRange == Pass && fetches == 1
    ensures tooLarge == Fail(120_000_000)
  {
    var config := VpaConfig([
      ContainerPolicy("no-vpa-container", Some(0), Some(0)),
      ContainerPolicy("*", Some(31_457_280), Some(62_914_560))]);
    var sample := Ok(MetricsList([Converter.ConvertDec("30m")], [54_857_600]));
    var stress;
    inRange, stress, fetches := Run(config, [sample]);
    var empty := Ok(MetricsList([], []));
    var large := Ok(MetricsList([0.1], [120_000_000]));
    var script := [empty, empty, large];
    assert !Settles(script[0]) && !Settles(script[1]) && Settles(script[2]);
    var largeFetches;
    tooLarge, stress, largeFetches := Run(config, script);
  }

  // ---------------------------------------------------------------------
  // The deployment interface

  /** The deployment client of one namespace. */
  datatype DeploymentInterface = DeploymentInterface(namespace: string)

  /** The deployment loaded from its YAML file; only its identity matters here. */
  datatype Deployment = Deployment(name: string)

  /** A request sent to the cluster API. */
  datatype ApiRequest =
    | CreateRequest(namespace: string, deployment: Deployment)
    | DeleteRequest(namespace: string, deploymentName: string)

  /** `newDeploymentInterface`: nil when the clientset is nil, else the client of `namespace`. */
  function NewDeploymentInterface(cluster: Cluster, namespace: string): (d: Option<DeploymentInterface>)
    ensures d.None? <==> !cluster.clientsetPresent
    ensures d.Some? ==> d.value.namespace == namespace
  {
    if !cluster.clientsetPresent then None else Some(DeploymentInterface(namespace))
  }

  // ---------------------------------------------------------------------
  // CreatePod

  /** The last iteration of `CreatePod`'s loop that still fetches: i runs from 0 to 10000. */
  const PodPollCeiling: nat := 10000

  /** A pod-list answer that ends the polling: an error, or a non-empty list. */
  predicate PodsSettle(response: Result<seq<Pod>>) {
    response.Err? || |response.value| > 0
  }

  /** The first i in [from, bound) whose answer ends the polling, or `bound` if none does. */
  function FirstListed(fetchPodList: nat -> Result<seq<Pod>>, from: nat, bound: nat): (k: nat)
    requires from <= bound
    ensures from <= k <= bound
    ensures k < bound ==> PodsSettle(fetchPodList(k))
    ensures forall j :: from <= j < k ==> !PodsSettle(fetchPodList(j))
    decreases bound - from
  {
    if from == bound then bound
    else if PodsSettle(fetchPodList(from)) then from
    else FirstListed(fetchPodList, from + 1, bound)
  }

  datatype Created = Created(deployment: Deployment, pods: seq<Pod>)

  /**
   * `CreatePod`: defaults the namespace, refuses a nil clientset before any
   * request, creates the deployment (`createError` is the API's answer), then
   * lists pods until an answer is an error or non-empty, giving up with
   * "time limit exceed" after 10001 fetches.
   */
  method CreatePod(
    cluster: Cluster, deployment: Deployment, namespace: string,
    createError: Option<Error>, fetchPodList: nat -> Result<seq<Pod>>)
    returns (r: Result<Created>, request: Option<ApiRequest>, fetches: nat)
    ensures fetches <= PodPollCeiling + 1
    ensures r.Ok? ==> |r.value.pods| > 0
    ensures !cluster.clientsetPresent ==> r == Err(NilPointer) && request == None && fetches == 0
    ensures cluster.clientsetPresent ==> request == Some(CreateRequest(DefaultNamespace(namespace), deployment))
    ensures cluster.clientsetPresent && createError.Some? ==> r == Err(createError.value) && fetches == 0
    ensures cluster.clientsetPresent && createError.None? ==>
      var k := FirstListed(fetchPodList, 0, PodPollCeiling + 1);
      && fetches == (if k <= PodPollCeiling then k + 1 else PodPollCeiling + 1)
      && (if k > PodPollCeiling then r == Err(TimeLimitExceed)
          else if fetchPodList(k).Err? then r == Err(fetchPodList(k).error)
          else r == Ok(Created(deployment, fetchPodList(k).value)))
  {
    var ns := DefaultNamespace(namespace);
    var deployments := NewDeploymentInterface(cluster, ns);
    if deployments.None? {
      return Err(NilPointer), None, 0;
    }
    request := Some(CreateRequest(deployments.value.namespace, deployment));
    if createError.Some? {
      return Err(createError.value), request, 0;
    }
    fetches := 0;
    var i := 0;
    while true
      invariant i == fetches <= PodPollCeiling + 1
      invariant forall j :: 0 <= j < i ==> !PodsSettle(fetchPodList(j))
      decreases PodPollCeiling + 1 - i
    {
      if i > PodPollCeiling {
        return Err(TimeLimitExceed), request, fetches;
      }
      var listed := fetchPodList(i);
      fetches := fetches + 1;
      if listed.Err? {
        return Err(listed.error), request, fetches;
      }
      if |listed.value| != 0 {
        return Ok(Created(deployment, listed.value)), request, fetches;
      }
      i := i + 1;
    }
  }

  /** The fixtures: the fake clientset, a pod list that is there at once, and one that never appears. */
  method SampleCreatePod() returns (found: Result<Created>, foundFetches: nat, never: Result<Created>, neverFetches: nat)
    ensures found.Ok? && |found.value.pods| == 1 && foundFetches == 1
    ensures never == Err(TimeLimitExceed) && neverFetches == PodPollCeiling + 1
  {
    var pod := Pod("", "", ["container1", "container2"]);
    var deployment := Deployment("sample-vpa-deployment");
    var request;
    found, request, foundFetches := CreatePod(Cluster(true), deployment, "", None, _ => Ok([pod]));
    never, request, neverFetches := CreatePod(Cluster(true), deployment, "", None, _ => Ok([]));
  }

  // ---------------------------------------------------------------------
  // DeletePod

  /**
   * `DeletePod`: defaults the namespace, refuses a nil clientset before any
   * request, and returns the API's answer to the delete (`deleteError`).
   */
  method DeletePod(cluster: Cluster, namespace: string, deploymentName: string, deleteError: Option<Error>)
    returns (err: Option<Error>, request: Option<ApiRequest>)
    ensures !cluster.clientsetPresent ==> err == Some(NilPointer) && request == None
    ensures cluster.clientsetPresent ==>
      err == deleteError && request == Some(DeleteRequest(DefaultNamespace(namespace), deploymentName))
  {
    var ns := DefaultNamespace(namespace);
    var deployments := NewDeploymentInterface(cluster, ns);
    if deployments.None? {
      return Some(NilPointer), None;
    }
    request := Some(DeleteRequest(deployments.value.namespace, deploymentName));
    err := deleteError;
  }
}
