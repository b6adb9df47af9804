/**
 * The vocabulary shared by the harness's operations: the errors they
 * return, the cluster handle they consult and the namespace default.
 */
module Kube {

  /** The errors the harness returns; each constructor names one Go error value. */
  datatype Error =
    | NilPointer       // errors.New("nil pointer"): the clientset is missing
    | TimeLimitExceed  // "time limit exceed: couldn't fetch the pod information"
    | MemoryNotInt64   // "failed to convert memory resources into int64"
    | CantFetchMemory  // "error: Can't fetch memory resources"
    | ApiError(message: string)  // an error the cluster API returns, passed on unchanged

  /** Go's `(value, error)` pair: exactly one of the two is meaningful. */
  datatype Result<+T> = Ok(value: T) | Err(error: Error)

  /** The cluster handle as far as the guards in the harness see it: whether a clientset is set. */
  datatype Cluster = Cluster(clientsetPresent: bool)

  /** A pod as the pod-list call returns it. */
  datatype Pod = Pod(name: string, namespace: string, containers: seq<string>)

  const DefaultNamespaceName: string := "default"

  /** The namespace an operation works in: the given one, or "default" when it is empty. */
  function DefaultNamespace(namespace: string): (ns: string)
    ensures ns != ""
    ensures namespace != "" ==> ns == namespace
    ensures namespace == "" ==> ns == DefaultNamespaceName
  {
    if namespace == "" then DefaultNamespaceName else namespace
  }
}
