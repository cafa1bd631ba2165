/** `brichka init`: creates an SQL execution context on the selected cluster,
    records it for this directory and waits until it runs. */
module InitCommand {
  import opened Wrappers
  import opened Api
  import opened Commands

  const Language: string := "sql"

  /** `commands::init::init` on a snapshot of the workspace and the selection. */
  function InitSpec(w: World): (r: (Result<()>, World))
    ensures r.1.remote == w.remote.(createdContexts := r.1.remote.createdContexts,
                                    contextStatuses := r.1.remote.contextStatuses,
                                    calls := r.1.remote.calls)
    ensures r.1.config == w.config.(localContext := r.1.config.localContext)
    ensures Within(w.remote.calls, r.1.remote.calls, 1)
    ensures SelectedCluster(w.config).Err? ==> r == (Err(SelectedCluster(w.config).error), w)
  {
    match SelectedCluster(w.config)
    case Err(e) => (Err(e), w)
    case Ok(clusterId) =>
      var (created, w1) := CreateContextStep(w.remote, clusterId, Language);
      if created.Err? then (Err(created.error), w.(remote := w1))
      else
        var config := w.config.(localContext := Some(created.value));
        var (waited, w2) := AwaitContextSpec(w1, clusterId, created.value);
        WithinTransitive(w.remote.calls, w1.calls, w2.calls, 1);
        (waited, World(w2, config))
  }

  /** `commands::init::init`. */
  method Init(svc: Service, store: Store) returns (r: Result<()>)
    modifies svc, store
    ensures (r, Snapshot(svc, store)) == InitSpec(old(Snapshot(svc, store)))
  {
    var cluster := SelectedCluster(store.State());
    if cluster.Err? {
      return Err(cluster.error);
    }
    var clusterId := cluster.value;
    var created := svc.CreateContext(clusterId, Language);
    if created.Err? {
      return Err(created.error);
    }
    var contextId := created.value;
    store.WriteLocalContext(contextId);
    r := AwaitContext(svc, clusterId, contextId);
  }

  /** With a cluster selected, `init` sends one create request for an SQL
      context; once the workspace returns its id, that id is recorded for this
      directory whether or not the wait then succeeds, and the wait queries
      exactly that context.  `init` then succeeds exactly when the first
      status that ends the wait is `Running`; an `Error` status or a failed
      query is its failure. */
  lemma InitCreatesRecordsThenWaits(w: World)
    requires SelectedCluster(w.config).Ok?
    ensures var clusterId := SelectedCluster(w.config).value;
      var created := Next(w.remote.createdContexts);
      var r := InitSpec(w);
      && Appends(w.remote.calls, r.1.remote.calls)
      && |r.1.remote.calls| > |w.remote.calls|
      && r.1.remote.calls[|w.remote.calls|] == CreateContext(clusterId, Language)
      && (created.Err? ==> r.0 == Err(created.error) && r.1.config == w.config
                           && r.1.remote.calls == w.remote.calls + [CreateContext(clusterId, Language)])
      && (created.Ok? ==> r.1.config.localContext == Some(created.value)
                          && forall i :: |w.remote.calls| < i < |r.1.remote.calls| ==>
                               r.1.remote.calls[i] == GetContextStatus(clusterId, created.value))
      && (created.Ok? ==>
            var s := w.remote.contextStatuses;
            var k := FirstWhere(s, EndsContextWait);
            r.0 == if k < |s| then OnContextReply(s[k]) else Err(NoReply))
  {
    var clusterId := SelectedCluster(w.config).value;
    var created := Next(w.remote.createdContexts);
    var w1 := CreateContextStep(w.remote, clusterId, Language).1;
    if created.Ok? {
      var w2 := AwaitContextSpec(w1, clusterId, created.value).1;
      assert w2.calls[..|w1.calls|] == w1.calls;
      AwaitContextFirstDecisive(w1, clusterId, created.value);
    }
  }
}
