# VPA test harness: conversion, metrics filter and poll loops

This project models the three pieces of the Vertical Pod Autoscaler test
harness that have behaviour of their own, and proves what they do:

- **Resource-quantity conversion** (`test/converter.go`). `convertDec` turns a
  CPU quantity such as `"30m"` into an exact rational number of cores: with an
  `m` suffix every trailing `m` is stripped and the number is divided by 1000.
  The text is parsed as `strconv.ParseUint(s, 10, 64)` parses it and the parse
  error is thrown away. `Int64ToInt` keeps an int64 that fits in int32 and
  turns anything else into 0.
- **The metrics filter** (`vpatest/recorder.go`). `FetchMetricsList` walks the
  pod metrics and each pod's containers in order. It collects the cpu and
  memory of every container with the requested name into two parallel lists,
  and aborts the whole call on any container whose memory is not an int64.
  `FetchPodList` always lists the pods of `"default"`.
- **The VPA check and the workload's lifecycle** (`vpatest/request.go`). `Run`
  reads the memory bounds of the second container policy and computes the
  stress load `(min + max) / 2`. It polls the metrics source until an answer
  is an error or carries a memory sample, then checks the first sample against
  the inclusive bounds. `CreatePod` creates the deployment and polls the pod
  list at most 10001 times. `DeletePod` deletes it. Both refuse a nil
  clientset and default an empty namespace to `"default"`.

Go's integers are modelled exactly (`goint.dfy`). A uint64 read as int64
wraps, int64 addition wraps, and `/ 2` truncates toward zero. CPU quantities
are Dafny `real`s, so every division is exact.

The collaborators are given as data. `Run` receives the answers of its
successive metrics fetches as a sequence. `Run` never gives up in Go, so when
that sequence is used up without a sample the model reports the state
`Polling`. `CreatePod` receives the answer of the i-th pod-list fetch as
`fetchPodList(i)`. The create and delete REST calls are given by the error
they answer with. The methods return the request they send, so the contracts
can say which namespace was used and that nothing is sent on a nil clientset.

Some behaviour of the code is easy to miss, and the model keeps it:

- `convertDec` strips every trailing `m` (`test/converter.go:19`), so `"30mm"`
  is accepted and converts as `"30m"`.
- `Run` polls the metrics source without limit (`vpatest/request.go:42`).
- The out-of-range failure is one fixed message. The observed value and the
  two bounds are only printed (`vpatest/request.go:54-58`). The model's
  `Fail` carries the observed value.
- `SampleRun` uses the fixture policy `[31457280, 62914560]`
  (`vpatest/recorder_test.go:153-159`) and the fake source's sample
  `54857600` (`vpatest/recorder_test.go:43`).

Files: `wrappers.dfy` (Option), `goint.dfy` (Go integer arithmetic),
`kube.dfy` (errors, `Result`, cluster handle, namespace default),
`converter.dfy`, `recorder.dfy`, `request.dfy`.

## Model

| member | source | states |
|---|---|---|
| GoInt.Uint64ToInt64 | test/converter.go:22 | `int64(u)` keeps the same 64 bits: the result is congruent to u modulo 2^64, equals u below 2^63 and is negative from 2^63 on |
| GoInt.AddInt64 | vpatest/request.go:36 | int64 `+` is the exact sum modulo 2^64, and equals the exact sum when that fits |
| GoInt.HalfInt64 | vpatest/request.go:36 | int64 `/ 2` truncates toward zero: for a ≥ 0, 2r ≤ a ≤ 2r+1; for a < 0, 2r-1 ≤ a ≤ 2r |
| Kube.DefaultNamespace | vpatest/request.go:101-103 | the namespace used is never empty: an empty one becomes "default" and any other is kept |
| Converter.HasMilliSuffix | test/converter.go:17 | `strings.HasSuffix(s, "m")` holds exactly when s is some text followed by `m` |
| Converter.NumberText | test/converter.go:17-20 | the text handed to the parser is a prefix of the input: the input itself without the suffix, and with it the input stripped of all its trailing `m`s and no longer ending in `m` |
| Converter.ParseUint | test/converter.go:21 | `strconv.ParseUint(s, 10, 64)`: empty text is a syntax error with value 0; no error means s is a non-empty digit string and the value is exactly its decimal value; a syntax error has value 0 and s is not all digits; a range error has value MaxUint64 |
| Converter.ScanUint | test/converter.go:21 | the digit scan after a value n read so far: a clean scan means the rest is all digits and the value is n·10^len + its decimal value; a syntax error gives 0 and a range error MaxUint64 |
| Converter.ConvertDec | test/converter.go:15-24 | the result times the divisor (1000 with the suffix, else 1) is a whole int64, so no rounding happens, and text rejected as a syntax error gives exactly 0; its values are stated by ConvertDecWhole, ConvertDecMilli, ConvertDecManyMilli, ConvertDecMalformed, ConvertDecWraps and ConvertDecOverflow |
| Converter.TrimRightM | test/converter.go:19 | `strings.TrimRight(s, "m")` gives a prefix of s that does not end in `m`, and everything it removed is `m` |
| Converter.ScanUintDigits | test/converter.go:21 | a digit string whose value fits in a uint64 parses to exactly that value, with no error |
| Converter.ScanUintOverflow | test/converter.go:21 | a run of leading digits whose value passes MaxUint64 is a range error with value MaxUint64, whatever follows it |
| Converter.ScanUintSyntax | test/converter.go:21 | a non-digit reached before the value overflows is a syntax error with value 0 |
| Converter.FirstNonDigit | test/converter.go:21 | the position of the first non-digit: everything before it is a digit |
| Converter.ConvertDecWhole | test/converter.go:15-23 | a digit string without suffix converts to exactly its integer value, e.g. "100" to 100 |
| Converter.ConvertDecMilli | test/converter.go:15-23 | `n + "m"` converts to exactly value(n)/1000, with no rounding |
| Converter.ConvertDecManyMilli | test/converter.go:17-20 | any number of trailing `m`s is stripped and the value is divided by 1000 once: "30mm" converts as "30m" |
| Converter.ConvertDecMalformed | test/converter.go:21-23 | text that ParseUint rejects as a syntax error converts to 0: empty after stripping, or a sign, point or letter among its first 20 characters |
| Converter.ConvertDecWraps | test/converter.go:21-23 | a digit string from 2^63 up to MaxUint64 parses cleanly, but `int64(...)` makes the result negative: value − 2^64 |
| Converter.ConvertDecOverflow | test/converter.go:21-23 | a digit string past MaxUint64 converts to -1, or to -1/1000 with the suffix |
| Converter.ConvertDecSample | vpatest/recorder_test.go:41-44 | the fake metrics source's cpu quantity "30m" converts to exactly 0.03 cores |
| Converter.ConvertDecPolicyBounds | vpatest/recorder_test.go:153-159 | the fixture policy's cpu bounds convert exactly: "10m" to 0.01 and "100m" to 0.1 cores |
| Converter.Int64ToInt | test/converter.go:26-32 | the result always lies in the int32 range; it is the input inside that range and 0 outside it |
| Converter.DecimalValueBelowPow10 | test/converter.go:21 | k digits denote a value below 10^k |
| Recorder.Named | vpatest/recorder.go:60-63 | the selected containers all carry the requested name, and there are no more of them than visited containers |
| Recorder.NamedMembers | vpatest/recorder.go:60-63 | a container is selected if and only if it is visited and has the requested name |
| Recorder.NamedAppend | vpatest/recorder.go:52-66 | selection keeps visiting order: selecting from two consecutive stretches selects from each in turn |
| Recorder.NoMatchIsEmpty | vpatest/recorder.go:50-67 | with no container of the requested name, nothing is selected, so both lists are empty |
| Recorder.AllContainersPrefix | vpatest/recorder.go:52-54 | visiting the first n pods visits a prefix of all containers |
| Recorder.AllContainersStep | vpatest/recorder.go:52-54 | visiting one more pod visits that pod's containers after the earlier ones |
| Recorder.NamedSnoc | vpatest/recorder.go:60-63 | visiting one more container selects it exactly when its name matches |
| Recorder.MissingMemoryAborts | vpatest/recorder.go:56-59 | one container anywhere, matching or not, whose memory is not an int64 makes the listing unusable |
| Recorder.FetchMetricsList | vpatest/recorder.go:40-68 | a listing error is returned unchanged; any container with non-int64 memory gives "Can't fetch memory resources"; otherwise entry k of the cpu list and of the memory list both come from the k-th container named `containerName`, in pod-then-container order |
| Recorder.FetchPodList | vpatest/recorder.go:28-37 | the pods of "default" are listed whatever namespace is passed |
| Request.CheckRange | vpatest/request.go:54-60 | the check passes if and only if min ≤ observed ≤ max; otherwise it fails with the observed value |
| Request.FirstSettled | vpatest/request.go:42-51 | the first metrics answer that is an error or has a memory sample: every earlier answer is empty and error-free |
| Request.Run | vpatest/request.go:21-61 | a bound that is not an int64 aborts before any fetch or stress load; otherwise the stress load is the int64 midpoint, the loop stops at the first answer that is an error or non-empty (fetches = its position + 1), an error aborts with that error, and element 0 of the first memory list decides Pass/Fail by the inclusive bound check; with no such answer the check is still polling |
| Request.StressLoad | vpatest/request.go:36 | `(min + max) / 2` in int64: when the sum does not wrap, the load is half the exact sum truncated toward zero; StressLoadWithinBounds and StressLoadWraps state where it lies |
| Request.MemoryBounds | vpatest/request.go:27-34 | the policy's memory bounds as (min, max), or "failed to convert memory resources into int64" exactly when either is not an int64 |
| Request.StressLoadWithinBounds | vpatest/request.go:36 | for min ≤ max whose int64 sum does not wrap, the stress load lies in [min, max] |
| Request.StressLoadWraps | vpatest/request.go:36 | when both bounds are MaxInt64 the sum wraps and the stress load is -1 |
| Request.SampleRun | vpatest/request_test.go:67-97 | the fixture policy [31457280, 62914560] with the fake source's sample 54857600 passes after one fetch; a first sample of 120000000, after two empty answers, fails |
| Request.NewDeploymentInterface | vpatest/request.go:135-141 | there is a deployment client exactly when the clientset is set, and it is bound to the given namespace |
| Request.FirstListed | vpatest/request.go:118-130 | the first pod-list answer in the window that is an error or non-empty: every earlier one is an empty list |
| Request.CreatePod | vpatest/request.go:100-133 | a nil clientset gives "nil pointer" with no request sent; otherwise the create goes to the defaulted namespace and a create error is returned; then at most 10001 pod-list fetches, stopping at the first error (returned) or non-empty list (returned with the deployment), and "time limit exceed" after 10001 empty lists |
| Request.SampleCreatePod | vpatest/recorder_test.go:21-39 | with a clientset set, the fake pod-list source's one pod is returned after one fetch; in an example of the model's own, a pod list that never appears ends in "time limit exceed" after 10001 fetches |
| Request.DeletePod | vpatest/request.go:163-178 | a nil clientset gives "nil pointer" with no request sent; otherwise the delete of the named deployment goes to the defaulted namespace and its error is returned |

## Left out

- Loading the VPA and deployment YAML files (`FetchVPAConfig`, `fetchVPAConfig`, `FetchDeploymentConfig`, `createDeploymentStructure`): file I/O and a library unmarshal. The loaded objects are parameters.
- `Run` logs and ignores a failure to load the VPA file and then dereferences a nil config. The model starts from a loaded config.
- `Run` reads `ContainerPolicies[1]` without a guard, so the source panics with fewer than two policies. The model requires two.
- `Run` passes `Containers[0].Name` to the metrics fetch. The scripted answers already fix what the fetch returns, so the pod is not a parameter. The panic on a pod without containers is not modelled.
- Request.Run: the source polls without limit. The model follows a finite script of answers and reports `Polling` when it runs out without a sample. No timeout is added.
- The remote exec session (`execCommand`): SPDY streaming, a goroutine and a sleep, all left out. `Run` reports the stress load it would apply. The text of the stress command is not built.
- The lower-case collaborators `fetchMetricsList` and `fetchPodList` that `Run` and `CreatePod` call: their code is not part of this model. They are scripted answers.
- Creating the metrics client (`metrics.NewForConfig`) and listing pod metrics are one `Result` input of `FetchMetricsList`. An error from either is returned unchanged.
- `FetchPodList` dereferences the clientset without a nil check. The model's listing function always answers.
- `inf.Dec` and `resource.Quantity` internals. CPU is an exact `real`. `QuoExact` by 1 or 1000 is always exact, so it is plain division. Memory is an optional int64.
- Converter.Int64ToInt: assumes Go's `int` has at least 32 bits, so `int(i)` never changes an in-range value.
- Converter.ConvertDecMalformed: covers only a non-digit among the first 20 characters. A later non-digit may come after a digit prefix that already passes MaxUint64, and the result is then -1, or -1/1000 with the suffix (see ConvertDecOverflow). A long prefix whose value stays small, such as `"00000000000000000000x"`, still gives 0.
- Request.StressLoadWithinBounds: stated only for bounds whose int64 sum does not wrap. With larger bounds the midpoint wraps (see StressLoadWraps).
- Logging, printing and the deployment fixtures. Also the duplicated `convertDec`, `newDec`, `create_dec`, `Int64ToInt` and `fetchMetrics` copies in the tests and `test/`, which repeat the code modelled here.
- Cluster and client construction, kubeconfig and flag handling, `check_vpa`, pod logs, and the live-cluster scripts and tests.
