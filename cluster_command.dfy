/** `brichka cluster start`: starts the selected cluster and waits for it. */
module ClusterCommand {
  import opened Wrappers
  import opened Api

  const ClusterRunning: string := "RUNNING"
  const ClusterError: string := "ERROR"
  const ClusterFailed: string := "Failed to start the cluster"

  /** A state reply that ends the wait: a failed query, `RUNNING` or `ERROR`. */
  predicate EndsClusterWait(reply: Result<string>) {
    reply.Err? || reply.value == ClusterRunning || reply.value == ClusterError
  }

  /** The outcome decided by a reply that ends the wait. */
  function OnClusterReply(reply: Result<string>): Result<()> {
    if reply.Err? then Err(reply.error)
    else if reply.value == ClusterRunning then Ok(())
    else Err(ClusterFailed)
  }

  /** The polling loop of `start`: one state query per round. */
  function AwaitRunningSpec(w: Remote, clusterId: string): (r: (Result<()>, Remote))
    ensures r.1 == w.(clusterStates := r.1.clusterStates, calls := r.1.calls)
    ensures Appends(w.calls, r.1.calls)
    ensures forall i :: |w.calls| <= i < |r.1.calls| ==> r.1.calls[i] == GetClusterInfo(clusterId)
    decreases |w.clusterStates|
  {
    var (reply, w') := ClusterInfoStep(w, clusterId);
    if EndsClusterWait(reply) then (OnClusterReply(reply), w')
    else
      var r' := AwaitRunningSpec(w', clusterId);
      assert r'.1.calls[..|w.calls|] == r'.1.calls[..|w'.calls|][..|w.calls|];
      r'
  }

  /** `commands::cluster::start` on a snapshot of the workspace. */
  function StartSpec(w: Remote, c: Config): (r: (Result<()>, Remote))
    ensures r.1 == w.(clusterStates := r.1.clusterStates, startReplies := r.1.startReplies, calls := r.1.calls)
    ensures Within(w.calls, r.1.calls, 0)
    ensures SelectedCluster(c).Err? ==> r == (Err(SelectedCluster(c).error), w)
  {
    match SelectedCluster(c)
    case Err(e) => (Err(e), w)
    case Ok(clusterId) =>
      var (started, w1) := StartClusterStep(w, clusterId);
      if started.Err? then (Err(started.error), w1)
      else
        var r := AwaitRunningSpec(w1, clusterId);
        WithinTransitive(w.calls, w1.calls, r.1.calls, 0);
        r
  }

  /** `commands::cluster::start`. */
  method Start(svc: Service, store: Store) returns (r: Result<()>)
    modifies svc
    ensures (r, svc.State()) == StartSpec(old(svc.State()), store.State())
  {
    var cluster := SelectedCluster(store.State());
    if cluster.Err? {
      return Err(cluster.error);
    }
    var clusterId := cluster.value;
    var started := svc.StartCluster(clusterId);
    if started.Err? {
      return Err(started.error);
    }
    while true
      invariant AwaitRunningSpec(svc.State(), clusterId) == StartSpec(old(svc.State()), store.State())
      decreases |svc.clusterStates|
    {
      var state := svc.GetClusterInfo(clusterId);
      if state.Err? {
        return Err(state.error);
      }
      if state.value == ClusterRunning {
        break;
      } else if state.value == ClusterError {
        return Err(ClusterFailed);
      }
    }
    r := Ok(());
  }

  /** The wait is decided by the first state reply that ends it, after one
      more state query per pending state. */
  lemma {:induction false} AwaitRunningFirstDecisive(w: Remote, clusterId: string)
    ensures var k := FirstWhere(w.clusterStates, EndsClusterWait);
      var r := AwaitRunningSpec(w, clusterId);
      && r.1.calls == w.calls + seq(k + 1, _ => GetClusterInfo(clusterId))
      && (k == |w.clusterStates| ==> r.0 == Err(NoReply))
      && (k < |w.clusterStates| ==> r.0 == OnClusterReply(w.clusterStates[k]))
    decreases |w.clusterStates|
  {
    var q := w.clusterStates;
    var call := GetClusterInfo(clusterId);
    if q != [] && !EndsClusterWait(q[0]) {
      var (_, w') := ClusterInfoStep(w, clusterId);
      AwaitRunningFirstDecisive(w', clusterId);
      var k' := FirstWhere(w'.clusterStates, EndsClusterWait);
      assert FirstWhere(q, EndsClusterWait) == k' + 1;
      assert w.calls + [call] + seq(k' + 1, _ => call) == w.calls + seq(k' + 2, _ => call);
    }
  }

  /** With a cluster selected, exactly one start request is sent, before any
      state query, and a refused start sends nothing more; the outcome is then
      the first state reply that ends the wait. */
  lemma StartRequestsOnceThenPolls(w: Remote, c: Config)
    requires SelectedCluster(c).Ok?
    ensures var clusterId := SelectedCluster(c).value;
      var r := StartSpec(w, c);
      var k := FirstWhere(w.clusterStates, EndsClusterWait);
      && |r.1.calls| > |w.calls| && r.1.calls[..|w.calls| + 1] == w.calls + [StartCluster(clusterId)]
      && (Next(w.startReplies).Err? ==> r == (Err(Next(w.startReplies).error), StartClusterStep(w, clusterId).1))
      && (Next(w.startReplies).Ok? ==>
            && r.1.calls == w.calls + [StartCluster(clusterId)] + seq(k + 1, _ => GetClusterInfo(clusterId))
            && r.0 == (if k < |w.clusterStates| then OnClusterReply(w.clusterStates[k]) else Err(NoReply)))
  {
    var clusterId := SelectedCluster(c).value;
    var w1 := StartClusterStep(w, clusterId).1;
    if Next(w.startReplies).Ok? {
      AwaitRunningFirstDecisive(w1, clusterId);
    }
  }
}
