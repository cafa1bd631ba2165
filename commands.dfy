/** `await_context`: polls an execution context until it is running. */
module Commands {
  import opened Wrappers
  import opened Api

  const Running: string := "Running"
  const ErrorStatus: string := "Error"
  const ContextFailed: string := "Failed creating an execution context"

  /** A status reply that ends the wait: a failed query, `Running` or `Error`. */
  predicate EndsContextWait(reply: Result<string>) {
    reply.Err? || reply.value == Running || reply.value == ErrorStatus
  }

  /** The outcome of waiting for a context, and the workspace afterwards. */
  function AwaitContextSpec(w: Remote, clusterId: string, contextId: string): (r: (Result<()>, Remote))
    ensures r.1 == w.(contextStatuses := r.1.contextStatuses, calls := r.1.calls)
    ensures Appends(w.calls, r.1.calls)
    ensures forall i :: |w.calls| <= i < |r.1.calls| ==> r.1.calls[i] == GetContextStatus(clusterId, contextId)
    decreases |w.contextStatuses|
  {
    var (reply, w') := ContextStatusStep(w, clusterId, contextId);
    if reply.Err? then (Err(reply.error), w')
    else if reply.value == Running then (Ok(()), w')
    else if reply.value == ErrorStatus then (Err(ContextFailed), w')
    else
      var r' := AwaitContextSpec(w', clusterId, contextId);
      assert r'.1.calls[..|w.calls|] == r'.1.calls[..|w'.calls|][..|w.calls|];
      r'
  }

  /** `commands::await_context`. */
  method AwaitContext(svc: Service, clusterId: string, contextId: string) returns (r: Result<()>)
    modifies svc
    ensures (r, svc.State()) == AwaitContextSpec(old(svc.State()), clusterId, contextId)
  {
    while true
      invariant AwaitContextSpec(svc.State(), clusterId, contextId) == AwaitContextSpec(old(svc.State()), clusterId, contextId)
      decreases |svc.contextStatuses|
    {
      var status := svc.GetContextStatus(clusterId, contextId);
      if status.Err? {
        return Err(status.error);
      }
      if status.value == Running {
        break;
      } else if status.value == ErrorStatus {
        return Err(ContextFailed);
      }
    }
    r := Ok(());
  }

  /** The wait is decided by the first status reply that ends it: it succeeds
      exactly when that reply is `Running`, fails with the context error on
      `Error` and with the transport error on a failed query; until then every
      reply costs one more status query, and nothing else is requested. */
  lemma {:induction false} AwaitContextFirstDecisive(w: Remote, clusterId: string, contextId: string)
    ensures var k := FirstWhere(w.contextStatuses, EndsContextWait);
      var r := AwaitContextSpec(w, clusterId, contextId);
      && r.1.calls == w.calls + seq(k + 1, _ => GetContextStatus(clusterId, contextId))
      && r.1.contextStatuses == (if k < |w.contextStatuses| then w.contextStatuses[k + 1..] else [])
      && (k == |w.contextStatuses| ==> r.0 == Err(NoReply))
      && (k < |w.contextStatuses| ==> r.0 == OnContextReply(w.contextStatuses[k]))
    decreases |w.contextStatuses|
  {
    var q := w.contextStatuses;
    var call := GetContextStatus(clusterId, contextId);
    if q != [] && !EndsContextWait(q[0]) {
      var (_, w') := ContextStatusStep(w, clusterId, contextId);
      AwaitContextFirstDecisive(w', clusterId, contextId);
      var k' := FirstWhere(w'.contextStatuses, EndsContextWait);
      assert FirstWhere(q, EndsContextWait) == k' + 1;
      assert w.calls + [call] + seq(k' + 1, _ => call) == w.calls + seq(k' + 2, _ => call);
      if k' < |w'.contextStatuses| {
        assert w'.contextStatuses[k' + 1..] == q[k' + 2..];
      }
    }
  }

  /** The outcome decided by a reply that ends the wait. */
  function OnContextReply(reply: Result<string>): Result<()> {
    if reply.Err? then Err(reply.error)
    else if reply.value == Running then Ok(())
    else Err(ContextFailed)
  }

  /** Any number of pending statuses only costs that many more queries: there
      is no bound on the number of polls. */
  lemma {:induction false} AwaitContextSkipsPending(w: Remote, pending: seq<Result<string>>, clusterId: string, contextId: string)
    requires forall i :: 0 <= i < |pending| ==> !EndsContextWait(pending[i])
    ensures var after := w.(calls := w.calls + seq(|pending|, _ => GetContextStatus(clusterId, contextId)));
      AwaitContextSpec(w.(contextStatuses := pending + w.contextStatuses), clusterId, contextId)
      == AwaitContextSpec(after, clusterId, contextId)
    decreases |pending|
  {
    var call := GetContextStatus(clusterId, contextId);
    if pending != [] {
      var w1 := w.(calls := w.calls + [call]);
      AwaitContextSkipsPending(w1, pending[1..], clusterId, contextId);
      var before := w.(contextStatuses := pending + w.contextStatuses);
      assert (pending + w.contextStatuses)[1..] == pending[1..] + w.contextStatuses;
      assert ContextStatusStep(before, clusterId, contextId).1 == w1.(contextStatuses := pending[1..] + w.contextStatuses);
      assert pending[0] == Next(before.contextStatuses);
      assert w1.calls + seq(|pending| - 1, _ => call) == w.calls + seq(|pending|, _ => call);
      assert !EndsContextWait(pending[0]);
      assert AwaitContextSpec(before, clusterId, contextId)
        == AwaitContextSpec(w1.(contextStatuses := pending[1..] + w.contextStatuses), clusterId, contextId);
      assert w1.(calls := w1.calls + seq(|pending| - 1, _ => call))
        == w.(calls := w.calls + seq(|pending|, _ => call));
    } else {
      assert pending + w.contextStatuses == w.contextStatuses;
      assert w.calls + seq(0, _ => call) == w.calls;
    }
  }
}
