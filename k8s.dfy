/** The cluster client of internal/k8s/client.go: cluster health aggregation,
    node classification and the pod readiness wait.  Every call into the
    orchestrator API becomes a parameter holding either the snapshot it
    would have returned or the error message it would have failed with. */
module K8s {
  import opened Results

  // ---------------------------------------------------------------------
  // Snapshots read from the orchestrator

  datatype NodeCondition = NodeCondition(condType: string, status: string)

  datatype Node = Node(name: string, labels: map<string, string>, conditions: seq<NodeCondition>)

  datatype PodPhase = Running | Pending | Succeeded | Failed | Unknown

  datatype ContainerStatus = ContainerStatus(name: string, ready: bool)

  datatype Pod = Pod(name: string, namespace: string, phase: PodPhase,
                     containerStatuses: seq<ContainerStatus>)

  datatype ServerVersion = ServerVersion(gitVersion: string, platform: string)

  // ---------------------------------------------------------------------
  // Derived reports

  datatype Health = Healthy | Degraded | Unhealthy

  datatype PodInfo = PodInfo(name: string, namespace: string, phase: PodPhase)

  datatype ClusterStatus = ClusterStatus(
    status: Health,
    readyNodes: nat,
    totalNodes: nat,
    runningPods: nat,
    totalPods: nat,
    namespaces: nat,
    unhealthyPods: seq<PodInfo>)

  datatype NodeRole = ControlPlane | Master | Worker

  datatype NodeState = Ready | NotReady

  datatype NodeInfo = NodeInfo(name: string, role: NodeRole, status: NodeState)

  datatype ClusterInfo = ClusterInfo(version: string, platform: string, apiServer: string,
                                     nodes: seq<NodeInfo>)

  /** Which API call failed; each carries the underlying error message. */
  datatype FetchError =
    | ListNodesFailed(cause: string)
    | ListPodsFailed(cause: string)
    | ListNamespacesFailed(cause: string)
    | ServerVersionFailed(cause: string)

  datatype WaitError = WaitTimeout(selector: string) | WaitListFailed(cause: string)

  const ControlPlaneLabel := "node-role.kubernetes.io/control-plane"
  const MasterLabel := "node-role.kubernetes.io/master"

  // ---------------------------------------------------------------------
  // Node readiness

  predicate IsReadyCondition(c: NodeCondition) {
    c.condType == "Ready" && c.status == "True"
  }

  /** A node is ready when at least one of its conditions is Ready/True. */
  predicate NodeIsReady(n: Node) {
    exists i :: 0 <= i < |n.conditions| && IsReadyCondition(n.conditions[i])
  }

  /** Number of ready nodes, each counted once. */
  function CountReady(nodes: seq<Node>): (k: nat)
    ensures k <= |nodes|
    ensures k == |nodes| <==> forall i :: 0 <= i < |nodes| ==> NodeIsReady(nodes[i])
    ensures k > 0 <==> exists i :: 0 <= i < |nodes| && NodeIsReady(nodes[i])
  {
    if nodes == [] then 0
    else
      var init := nodes[..|nodes| - 1];
      assert forall i :: 0 <= i < |init| ==> init[i] == nodes[i];
      CountReady(init) + (if NodeIsReady(nodes[|nodes| - 1]) then 1 else 0)
  }

  /** The scan over a node's conditions that stops at the first Ready/True one. */
  method HasReadyCondition(node: Node) returns (ready: bool)
    ensures ready == NodeIsReady(node)
  {
    ready := false;
    var i := 0;
    while i < |node.conditions|
      invariant 0 <= i <= |node.conditions|
      invariant !ready
      invariant forall k :: 0 <= k < i ==> !IsReadyCondition(node.conditions[k])
    {
      var condition := node.conditions[i];
      if condition.condType == "Ready" && condition.status == "True" {
        ready := true;
        break;
      }
      i := i + 1;
    }
  }

  // ---------------------------------------------------------------------
  // Pod accounting

  predicate IsUnhealthy(p: Pod) {
    p.phase == Failed || p.phase == Pending
  }

  function InfoOf(p: Pod): PodInfo {
    PodInfo(p.name, p.namespace, p.phase)
  }

  /** Number of pods in phase Running. */
  function RunningCount(pods: seq<Pod>): (k: nat)
    ensures k <= |pods|
  {
    if pods == [] then 0
    else RunningCount(pods[..|pods| - 1]) + (if pods[|pods| - 1].phase == Running then 1 else 0)
  }

  /** The Failed and Pending pods, in input order, with their phases. */
  function UnhealthyPods(pods: seq<Pod>): (u: seq<PodInfo>)
    ensures |u| <= |pods|
    ensures forall k :: 0 <= k < |u| ==> u[k].phase == Failed || u[k].phase == Pending
  {
    if pods == [] then []
    else
      var last := pods[|pods| - 1];
      UnhealthyPods(pods[..|pods| - 1]) + (if IsUnhealthy(last) then [InfoOf(last)] else [])
  }

  /** Every Failed or Pending pod is collected with its name, namespace and phase. */
  lemma {:induction false} UnhealthyPodsComplete(pods: seq<Pod>)
    ensures forall i :: 0 <= i < |pods| && IsUnhealthy(pods[i]) ==> InfoOf(pods[i]) in UnhealthyPods(pods)
  {
    if pods != [] {
      var init := pods[..|pods| - 1];
      UnhealthyPodsComplete(init);
      assert forall i :: 0 <= i < |init| ==> init[i] == pods[i];
    }
  }

  /** Every collected entry is the information of a Failed or Pending pod. */
  lemma {:induction false} UnhealthyPodsSound(pods: seq<Pod>)
    ensures forall k :: 0 <= k < |UnhealthyPods(pods)| ==>
              exists i :: 0 <= i < |pods| && IsUnhealthy(pods[i]) && UnhealthyPods(pods)[k] == InfoOf(pods[i])
  {
    if pods != [] {
      var init := pods[..|pods| - 1];
      var last := pods[|pods| - 1];
      UnhealthyPodsSound(init);
      var u, v := UnhealthyPods(init), UnhealthyPods(pods);
      assert v == u + (if IsUnhealthy(last) then [InfoOf(last)] else []);
      forall k | 0 <= k < |v|
        ensures exists i :: 0 <= i < |pods| && IsUnhealthy(pods[i]) && v[k] == InfoOf(pods[i])
      {
        if k < |u| {
          assert v[k] == u[k];
          var i :| 0 <= i < |init| && IsUnhealthy(init[i]) && u[k] == InfoOf(init[i]);
          assert init[i] == pods[i];
        } else {
          assert IsUnhealthy(last) && v[k] == InfoOf(last);
          assert pods[|pods| - 1] == last;
        }
      }
      assert forall k :: 0 <= k < |UnhealthyPods(pods)| ==>
              exists i :: 0 <= i < |pods| && IsUnhealthy(pods[i]) && UnhealthyPods(pods)[k] == InfoOf(pods[i]);
    } else {
      assert UnhealthyPods(pods) == [];
    }
  }

  /** The collected list is empty iff no pod is Failed or Pending. */
  lemma {:induction false} UnhealthyPodsEmptyIff(pods: seq<Pod>)
    ensures UnhealthyPods(pods) == [] <==> forall i :: 0 <= i < |pods| ==> !IsUnhealthy(pods[i])
  {
    if pods != [] {
      var init := pods[..|pods| - 1];
      UnhealthyPodsEmptyIff(init);
      assert forall i :: 0 <= i < |init| ==> init[i] == pods[i];
    }
  }

  /** Running pods and unhealthy pods are disjoint, so together they never
      exceed the pod total; Succeeded and Unknown pods fill the gap. */
  lemma {:induction false} PodCountsBound(pods: seq<Pod>)
    ensures RunningCount(pods) + |UnhealthyPods(pods)| <= |pods|
  {
    if pods != [] {
      PodCountsBound(pods[..|pods| - 1]);
    }
  }

  /** The overall verdict, a strict three-way priority order. */
  function Verdict(readyNodes: nat, totalNodes: nat, unhealthy: seq<PodInfo>): Health {
    if readyNodes == totalNodes && |unhealthy| == 0 then Healthy
    else if readyNodes > 0 then Degraded
    else Unhealthy
  }

  /** Healthy exactly when every node is ready and no pod is Failed or
      Pending; in particular a cluster with no nodes and no unhealthy pods. */
  lemma VerdictHealthyIff(nodes: seq<Node>, pods: seq<Pod>)
    ensures Verdict(CountReady(nodes), |nodes|, UnhealthyPods(pods)) == Healthy <==>
              (forall i :: 0 <= i < |nodes| ==> NodeIsReady(nodes[i])) &&
              (forall j :: 0 <= j < |pods| ==> !IsUnhealthy(pods[j]))
  {
    UnhealthyPodsEmptyIff(pods);
  }

  /** Degraded exactly when some node is ready but not everything is healthy. */
  lemma VerdictDegradedIff(nodes: seq<Node>, pods: seq<Pod>)
    ensures Verdict(CountReady(nodes), |nodes|, UnhealthyPods(pods)) == Degraded <==>
              (exists i :: 0 <= i < |nodes| && NodeIsReady(nodes[i])) &&
              ((exists i :: 0 <= i < |nodes| && !NodeIsReady(nodes[i])) ||
               (exists j :: 0 <= j < |pods| && IsUnhealthy(pods[j])))
  {
    UnhealthyPodsEmptyIff(pods);
  }

  /** Unhealthy exactly when no node is ready and there is a node or an
      unhealthy pod. */
  lemma VerdictUnhealthyIff(nodes: seq<Node>, pods: seq<Pod>)
    ensures Verdict(CountReady(nodes), |nodes|, UnhealthyPods(pods)) == Unhealthy <==>
              (forall i :: 0 <= i < |nodes| ==> !NodeIsReady(nodes[i])) &&
              (|nodes| > 0 || exists j :: 0 <= j < |pods| && IsUnhealthy(pods[j]))
  {
    UnhealthyPodsEmptyIff(pods);
  }

  /** The node loop of GetClusterStatus: one increment per ready node. */
  method CountReadyNodes(nodes: seq<Node>) returns (readyNodes: nat)
    ensures readyNodes == CountReady(nodes)
  {
    readyNodes := 0;
    for i := 0 to |nodes|
      invariant readyNodes == CountReady(nodes[..i])
    {
      var ready := HasReadyCondition(nodes[i]);
      if ready {
        readyNodes := readyNodes + 1;
      }
      assert nodes[..i + 1][..i] == nodes[..i];
    }
    assert nodes[..|nodes|] == nodes;
  }

  /** The pod loop of GetClusterStatus: count the Running pods and collect
      the Failed and Pending ones. */
  method TallyPods(pods: seq<Pod>) returns (runningPods: nat, unhealthy: seq<PodInfo>)
    ensures runningPods == RunningCount(pods)
    ensures unhealthy == UnhealthyPods(pods)
  {
    runningPods := 0;
    unhealthy := [];
    for i := 0 to |pods|
      invariant runningPods == RunningCount(pods[..i])
      invariant unhealthy == UnhealthyPods(pods[..i])
    {
      var pod := pods[i];
      if pod.phase == Running {
        runningPods := runningPods + 1;
      } else if pod.phase == Failed || pod.phase == Pending {
        unhealthy := unhealthy + [PodInfo(pod.name, pod.namespace, pod.phase)];
      }
      assert pods[..i + 1][..i] == pods[..i];
    }
    assert pods[..|pods|] == pods;
  }

  /** GetClusterStatus: count nodes, ready nodes, pods, running pods and
      namespaces, collect the unhealthy pods and pick the verdict.  A failed
      list call aborts with no status. */
  method GetClusterStatus(nodeList: Result<seq<Node>, string>,
                          podList: Result<seq<Pod>, string>,
                          namespaceList: Result<seq<string>, string>)
    returns (r: Result<ClusterStatus, FetchError>)
    ensures nodeList.Err? ==> r == Err(ListNodesFailed(nodeList.error))
    ensures nodeList.Ok? && podList.Err? ==> r == Err(ListPodsFailed(podList.error))
    ensures nodeList.Ok? && podList.Ok? && namespaceList.Err? ==>
              r == Err(ListNamespacesFailed(namespaceList.error))
    ensures r.Ok? <==> nodeList.Ok? && podList.Ok? && namespaceList.Ok?
    ensures r.Ok? ==>
              var s := r.value;
              && s.totalNodes == |nodeList.value|
              && s.readyNodes == CountReady(nodeList.value)
              && s.totalPods == |podList.value|
              && s.runningPods == RunningCount(podList.value)
              && s.unhealthyPods == UnhealthyPods(podList.value)
              && s.namespaces == |namespaceList.value|
              && s.status == Verdict(s.readyNodes, s.totalNodes, s.unhealthyPods)
  {
    if nodeList.Err? {
      return Err(ListNodesFailed(nodeList.error));
    }
    var totalNodes := |nodeList.value|;
    var readyNodes := CountReadyNodes(nodeList.value);

    if podList.Err? {
      return Err(ListPodsFailed(podList.error));
    }
    var totalPods := |podList.value|;
    var runningPods, unhealthy := TallyPods(podList.value);

    if namespaceList.Err? {
      return Err(ListNamespacesFailed(namespaceList.error));
    }
    var namespaces := |namespaceList.value|;

    var health;
    if readyNodes == totalNodes && |unhealthy| == 0 {
      health := Healthy;
    } else if readyNodes > 0 {
      health := Degraded;
    } else {
      health := Unhealthy;
    }
    r := Ok(ClusterStatus(health, readyNodes, totalNodes, runningPods, totalPods, namespaces, unhealthy));
  }

  // ---------------------------------------------------------------------
  // Node details

  /** GetClusterInfo: the server version, the API endpoint and one NodeInfo
      per node, in order.  The role follows label precedence control-plane,
      then master, then worker; the status is Ready iff the node is ready. */
  method GetClusterInfo(version: Result<ServerVersion, string>, host: string,
                        nodeList: Result<seq<Node>, string>)
    returns (r: Result<ClusterInfo, FetchError>)
    ensures version.Err? ==> r == Err(ServerVersionFailed(version.error))
    ensures version.Ok? && nodeList.Err? ==> r == Err(ListNodesFailed(nodeList.error))
    ensures r.Ok? <==> version.Ok? && nodeList.Ok?
    ensures r.Ok? ==>
              && r.value.version == version.value.gitVersion
              && r.value.platform == version.value.platform
              && r.value.apiServer == host
              && |r.value.nodes| == |nodeList.value|
    ensures r.Ok? ==>
              forall i :: 0 <= i < |nodeList.value| ==>
                var n, info := nodeList.value[i], r.value.nodes[i];
                && info.name == n.name
                && (info.role == ControlPlane <==> ControlPlaneLabel in n.labels)
                && (info.role == Master <==> ControlPlaneLabel !in n.labels && MasterLabel in n.labels)
                && (info.role == Worker <==> ControlPlaneLabel !in n.labels && MasterLabel !in n.labels)
                && (info.status == Ready <==> NodeIsReady(n))
  {
    if version.Err? {
      return Err(ServerVersionFailed(version.error));
    }
    if nodeList.Err? {
      return Err(ListNodesFailed(nodeList.error));
    }
    var nodes := nodeList.value;
    var infos: seq<NodeInfo> := [];
    for i := 0 to |nodes|
      invariant |infos| == i
      invariant forall k :: 0 <= k < i ==>
                  var n, info := nodes[k], infos[k];
                  && info.name == n.name
                  && (info.role == ControlPlane <==> ControlPlaneLabel in n.labels)
                  && (info.role == Master <==> ControlPlaneLabel !in n.labels && MasterLabel in n.labels)
                  && (info.role == Worker <==> ControlPlaneLabel !in n.labels && MasterLabel !in n.labels)
                  && (info.status == Ready <==> NodeIsReady(n))
    {
      var node := nodes[i];
      var role := Worker;
      if ControlPlaneLabel in node.labels {
        role := ControlPlane;
      } else if MasterLabel in node.labels {
        role := Master;
      }
      var ready := HasReadyCondition(node);
      var status := if ready then Ready else NotReady;
      infos := infos + [NodeInfo(node.name, role, status)];
    }
    r := Ok(ClusterInfo(version.value.gitVersion, version.value.platform, host, infos));
  }

  // ---------------------------------------------------------------------
  // Waiting for a pod

  predicate PodIsReady(p: Pod) {
    p.phase == Running &&
    forall i :: 0 <= i < |p.containerStatuses| ==> p.containerStatuses[i].ready
  }

  /** One poll succeeds when the first listed pod is Running with every
      container ready (vacuously so when it reports no container statuses). */
  predicate PollReady(pods: seq<Pod>) {
    |pods| > 0 && PodIsReady(pods[0])
  }

  /** A poll that ends the wait: a list error or a ready first pod. */
  predicate Settles(poll: Result<seq<Pod>, string>) {
    poll.Err? || PollReady(poll.value)
  }

  /** The readiness check of one poll, with the source's early-exit flag. */
  method FirstPodReady(pods: seq<Pod>) returns (ready: bool)
    ensures ready == PollReady(pods)
  {
    ready := false;
    if |pods| > 0 {
      var pod := pods[0];
      if pod.phase == Running {
        ready := true;
        var k := 0;
        while k < |pod.containerStatuses|
          invariant 0 <= k <= |pod.containerStatuses|
          invariant ready
          invariant forall j :: 0 <= j < k ==> pod.containerStatuses[j].ready
        {
          if !pod.containerStatuses[k].ready {
            ready := false;
            break;
          }
          k := k + 1;
        }
      }
    }
  }

  /** WaitForPod.  `polls` are the list results the loop would obtain, in
      order, before the deadline fires; once they are used up the deadline
      check at the top of the loop reports a timeout naming the selector.
      `polled` is how many list calls were made. */
  method WaitForPod(namespace: string, selector: string, polls: seq<Result<seq<Pod>, string>>)
    returns (err: Option<WaitError>, polled: nat)
    ensures polled <= |polls|
    ensures err.None? ==> 0 < polled && polls[polled - 1].Ok? && PollReady(polls[polled - 1].value)
    ensures err.Some? && err.value.WaitListFailed? ==>
              0 < polled && polls[polled - 1] == Err(err.value.cause)
    ensures err.Some? && err.value.WaitTimeout? ==>
              err.value.selector == selector && polled == |polls|
    ensures forall j :: 0 <= j < polled - 1 ==> !Settles(polls[j])
    ensures err.Some? && err.value.WaitTimeout? ==> forall j :: 0 <= j < |polls| ==> !Settles(polls[j])
  {
    polled := 0;
    while true
      invariant polled <= |polls|
      invariant forall j :: 0 <= j < polled ==> !Settles(polls[j])
      decreases |polls| - polled
    {
      if polled == |polls| {
        return Some(WaitTimeout(selector)), polled;
      }
      var listed := polls[polled];
      polled := polled + 1;
      if listed.Err? {
        return Some(WaitListFailed(listed.error)), polled;
      }
      var ready := FirstPodReady(listed.value);
      if ready {
        return None, polled;
      }
    }
  }
}
