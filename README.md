# Cluster health and deployment logic of local-k8s-cluster-go, in Dafny

This project models the decision logic of the `k3s-manager` command-line tool.
The tool turns snapshots of Kubernetes nodes, pods and deployments into short
verdicts, and it loads and deploys manifest directories. The model covers two
source files:

- `internal/k8s/client.go` becomes module `K8s` (`k8s.dfy`):
  - `GetClusterStatus` counts nodes, ready nodes, pods and running pods, collects the unhealthy pods and picks Healthy, Degraded or Unhealthy.
  - `GetClusterInfo` gives each node a role (by label precedence) and a Ready or NotReady status.
  - `WaitForPod` polls until the first listed pod is Running with every container ready.
- `internal/apps/manager.go` becomes module `Apps` (`apps.dfy`):
  - the deployment readiness classifier (`getDeploymentStatus`);
  - the `List` and `GetStatus` reports;
  - the manifest loader (`readManifests`);
  - the `Deploy` sequence.
- `results.dfy` (module `Results`) holds the `Option` and `Result` types shared by both.

Every call into the orchestrator API becomes a parameter. It holds either the
snapshot the call would have returned or the error message it would have
failed with. The directory walk and the YAML decoder become a sequence of
visits. Each visit has a path, an optional walk error and the outcome of
reading the file: a read error, or one decode result per document (`Doc`,
`NilDoc` or `DecodeErr`). The wait's deadline is a poll budget: the finite
sequence of list results obtained before the deadline fires.

Loops in the source are loops here, except the condition scan of
`getDeploymentStatus`, which is the recursive function `ScanConditions`. The counting and collecting loops of
`GetClusterStatus` are `CountReadyNodes` and `TallyPods`. The loader is
`ReadManifests` with `DecodeFile`. `Deploy` rewrites namespaces in place in an
array. Each of these methods is proved against a reference function
(`CountReady`, `RunningCount`, `UnhealthyPods`, `Load`, `DecodeStream`).
Lemmas then relate those functions to what the source promises.

## Model

| member | source | states |
|---|---|---|
| K8s.CountReady | local-k8s-cluster-go/internal/k8s/client.go:94-102 | the ready-node count is at most the node count; it equals the node count iff every node has a Ready/True condition; it is positive iff some node does |
| K8s.HasReadyCondition | local-k8s-cluster-go/internal/k8s/client.go:96-101 | the condition scan, which stops at the first Ready/True condition, reports ready iff such a condition exists |
| K8s.CountReadyNodes | local-k8s-cluster-go/internal/k8s/client.go:94-102 | the node loop increments once per ready node, so it returns the ready-node count |
| K8s.RunningCount | local-k8s-cluster-go/internal/k8s/client.go:110-114 | the number of Running pods is at most the pod count |
| K8s.UnhealthyPods | local-k8s-cluster-go/internal/k8s/client.go:114-120 | the collected list is no longer than the pod list and every entry is Failed or Pending |
| K8s.UnhealthyPodsComplete | local-k8s-cluster-go/internal/k8s/client.go:111-121 | every Failed or Pending pod is collected with its name, namespace and phase |
| K8s.UnhealthyPodsSound | local-k8s-cluster-go/internal/k8s/client.go:111-121 | every collected entry is the name, namespace and phase of a Failed or Pending pod |
| K8s.UnhealthyPodsEmptyIff | local-k8s-cluster-go/internal/k8s/client.go:111-121 | the collected list is empty iff no pod is Failed or Pending |
| K8s.TallyPods | local-k8s-cluster-go/internal/k8s/client.go:110-121 | the pod loop returns the Running count and the Failed/Pending pods in input order |
| K8s.PodCountsBound | local-k8s-cluster-go/internal/k8s/client.go:110-121 | running pods plus unhealthy pods never exceed the pod total, because Succeeded and Unknown pods are in neither |
| K8s.VerdictHealthyIff | local-k8s-cluster-go/internal/k8s/client.go:131-132 | Healthy iff every node is ready and no pod is Failed or Pending; so a cluster with no nodes and no unhealthy pods is Healthy |
| K8s.VerdictDegradedIff | local-k8s-cluster-go/internal/k8s/client.go:133-134 | Degraded iff some node is ready and either some node is not ready or some pod is Failed or Pending |
| K8s.VerdictUnhealthyIff | local-k8s-cluster-go/internal/k8s/client.go:135-137 | Unhealthy iff no node is ready and there is at least one node or one Failed or Pending pod |
| K8s.GetClusterStatus | local-k8s-cluster-go/internal/k8s/client.go:85-140 | a failed node, pod or namespace listing, checked in that order, returns that error and no status; otherwise the totals, ready count, running count, unhealthy list and namespace count are as above, and the verdict follows the three-way order |
| K8s.GetClusterInfo | local-k8s-cluster-go/internal/k8s/client.go:143-187 | a version or node-list failure returns that error; otherwise version, platform and endpoint are copied; there is one NodeInfo per node in order; the role is control-plane iff that label is present, master iff the master label is present and the control-plane label is absent, worker iff neither label is present; the status is Ready iff the node has a Ready/True condition |
| K8s.FirstPodReady | local-k8s-cluster-go/internal/k8s/client.go:206-221 | a poll is ready iff the pod list is non-empty, its first pod is Running, and every container status of that pod is ready (vacuously true with none) |
| K8s.WaitForPod | local-k8s-cluster-go/internal/k8s/client.go:190-226 | success only on the first poll whose first pod is ready; a list error is returned at once; every earlier poll neither failed nor was ready; when the budget runs out, the timeout names the selector and no poll settled |
| Apps.ScanConditions | local-k8s-cluster-go/internal/apps/manager.go:213-222 | the early-return scan finds a failure iff some condition is of type Progressing with status False or reason ProgressDeadlineExceeded |
| Apps.DeploymentPhase | local-k8s-cluster-go/internal/apps/manager.go:208-229 | Ready iff ready replicas equal desired replicas exactly; otherwise Failed iff a failing Progressing condition exists; otherwise Degraded iff ready replicas are positive, else Pending |
| Apps.ReadyDespiteStaleCondition | local-k8s-cluster-go/internal/apps/manager.go:209-211 | a fully ready deployment stays Ready whatever condition is added, including a stale Progressing=False |
| Apps.ClassifierExamples | local-k8s-cluster-go/internal/apps/manager.go:208-229 | 0 of 3 ready with Progressing=False is Failed; 1 of 3 with a healthy Progressing condition is Degraded; 0 of 3 with no Progressing condition is Pending |
| Apps.List | local-k8s-cluster-go/internal/apps/manager.go:106-131 | a listing error is returned; otherwise there is one Application per deployment, in input order, with name, namespace, ready replicas, total = desired replicas, the first container's image (or empty) and the classifier's verdict |
| Apps.GetStatus | local-k8s-cluster-go/internal/apps/manager.go:134-164 | a fetch error is returned; otherwise the fields are copied as in List plus the creation time, and every condition is copied in order with its type, status and reason |
| Apps.ManifestPathIff | local-k8s-cluster-go/internal/apps/manager.go:175-177 | a path passes the extension filter iff it ends in `.yaml` or `.yml` exactly (case-sensitive) |
| Apps.DecodeFile | local-k8s-cluster-go/internal/apps/manager.go:186-199 | the decode loop of one file yields exactly what the stream specification gives |
| Apps.ReadManifests | local-k8s-cluster-go/internal/apps/manager.go:167-205 | the walk loop returns the manifests and the error that the load specification gives for the walk |
| Apps.DecodeStreamClean | local-k8s-cluster-go/internal/apps/manager.go:187-199 | a stream without decode errors yields its non-nil documents in stream order and no error |
| Apps.DecodeStreamFirstError | local-k8s-cluster-go/internal/apps/manager.go:189-194 | the first decode error is the one reported, naming the file's path, after the documents that precede it |
| Apps.DecodeStreamFailsIff | local-k8s-cluster-go/internal/apps/manager.go:187-199 | decoding a stream fails iff it contains a decode error |
| Apps.VisitOneFailsIff | local-k8s-cluster-go/internal/apps/manager.go:170-201 | one visit fails iff the walk reported an error there, or it is a manifest file that cannot be read or holds a decode error; a visit that does not fail yields the documents of a manifest file and nothing for any other path |
| Apps.VisitOneError | local-k8s-cluster-go/internal/apps/manager.go:171-194 | the error reported is the walk's own error, else the read error with the path (in both cases the visit contributes no manifests), else the first decode error with the path, after the documents that precede it |
| Apps.LoadFailsIff | local-k8s-cluster-go/internal/apps/manager.go:170-204 | the load fails iff some visit fails |
| Apps.LoadClean | local-k8s-cluster-go/internal/apps/manager.go:170-204 | without a failure the load yields every non-nil document of every `.yaml`/`.yml` file, in walk order and then stream order, and nothing else |
| Apps.LoadFirstFailure | local-k8s-cluster-go/internal/apps/manager.go:170-204 | the first failing visit decides the error, and the load stops there with the documents of the visits before it |
| Apps.OneFileWithEmptyDocument | local-k8s-cluster-go/internal/apps/manager.go:186-199 | a `.yaml` file holding one document and one empty document loads as exactly that document |
| Apps.Deploy | local-k8s-cluster-go/internal/apps/manager.go:73-103 | a load error aborts before either branch; a dry run previews one kind/name entry per manifest in load order and leaves every manifest unchanged; apply mode gives each empty namespace the target namespace and leaves non-empty namespaces, kinds, names, other fields and order unchanged |

## Left out

- `internal/cli/root.go` and `cmd/main.go`: flag and config-file handling with no decision logic.
- `NewClient` (`client.go:58-82`): credential resolution through foreign libraries.
- The orchestrator API calls (`List`, `Get`, `ServerVersion`) and `config.Host` are parameters. The label selector and the namespace are applied by the API, so in the model they only name the request.
- `NewManager` sets only `client`; `List` and `GetStatus` read `clientset`, which it never sets. The model takes the listing as a parameter, so it does not capture what that unset field does at run time.
- YAML/JSON decoding, `filepath.Walk`'s traversal order and `os.ReadFile` are inputs (the visit sequence and each file's decode results). A directory visited with a `.yaml` name appears as a read error.
- K8s.WaitForPod: wall-clock time, the context deadline, parent cancellation and the two-second sleep become the finite poll budget. Cancellation during the sleep is not claimed, because the source's sleep is not cancellable. The `polled` count is an addition that exposes how many list calls were made.
- Apps.Deploy: the printed lines (the dry-run header, the "Applying kind/name" lines and the success line) are not modelled. The dry-run preview is returned as a list of kind/name entries instead. Both branches return the manifests so that the namespace handling can be stated.
- Apply semantics: the apply branch makes no gateway call, so there is no apply or apply-failure behaviour to model.
- Apps.Deploy: manifests are values held in an array. Aliasing of the source's `*Unstructured` pointers is not modelled.
- Error messages are structured values (which call failed, plus the cause). The formatted wrapping text is left out.
- Replica counts are unbounded naturals, not `int32`, and the desired count is always present. Pod phases are the five standard values; node roles, node states and verdicts are datatypes whose constructors name the source's strings.
- Creation timestamps are an opaque integer that is copied through.

The model follows the code in these points, where a reader might expect otherwise:

- The loader returns the manifests gathered before an error together with that error. `Deploy` then discards them.
- The timeout error names only the selector, not the namespace.
- Only the extensions `.yaml` and `.yml` are accepted, case-sensitively.
- Namespace defaulting happens only in apply mode, not in a dry run.
- No apply call is made.
