/** `brichka run`: the cluster readiness gate, the execution context
    resolver, the command poller and the pipeline that chains them. */
module RunCommand {
  import opened Wrappers
  import opened Text
  import opened Json
  import opened Api
  import opened Commands
  import opened ClusterCommand
  import opened InitCommand
  import Preprocessor
  import Decoder

  // ---------------------------------------------------------------------------
  // Cluster readiness

  const TerminatedHint: string := "Cluster is terminated. Use the --start flag if you want to start it"

  function UnusableState(state: string): string {
    "Can not run command, cluster state is `" + state + "`"
  }

  /** `check_cluster_state` on a snapshot. */
  function CheckClusterStateSpec(w: Remote, c: Config, clusterId: string, start: bool): (r: (Result<()>, Remote))
    ensures r.1 == w.(clusterStates := r.1.clusterStates, startReplies := r.1.startReplies, calls := r.1.calls)
    ensures Within(w.calls, r.1.calls, 0)
  {
    var (state, w1) := ClusterInfoStep(w, clusterId);
    if state.Err? then (Err(state.error), w1)
    else if state.value == "RUNNING" || state.value == "RESIZING" then (Ok(()), w1)
    else if state.value == "TERMINATED" then
      if start then
        var r := StartSpec(w1, c);
        WithinTransitive(w.calls, w1.calls, r.1.calls, 0);
        r
      else (Err(TerminatedHint), w1)
    else (Err(UnusableState(state.value)), w1)
  }

  /** `check_cluster_state`. */
  method CheckClusterState(svc: Service, store: Store, clusterId: string, start: bool) returns (r: Result<()>)
    modifies svc
    ensures (r, svc.State()) == CheckClusterStateSpec(old(svc.State()), store.State(), clusterId, start)
  {
    var state := svc.GetClusterInfo(clusterId);
    if state.Err? {
      return Err(state.error);
    }
    if state.value == "RUNNING" || state.value == "RESIZING" {
      r := Ok(());
    } else if state.value == "TERMINATED" {
      if start {
        r := Start(svc, store);
      } else {
        r := Err(TerminatedHint);
      }
    } else {
      r := Err(UnusableState(state.value));
    }
  }

  /** The gate asks for the cluster's state once.  It passes at once on
      `RUNNING` or `RESIZING`; on `TERMINATED` it runs the start routine when
      asked to and otherwise fails with the `--start` hint; any other state
      fails naming it.  A start request is sent only for a terminated cluster
      with `start` set. */
  lemma GateDecision(w: Remote, c: Config, clusterId: string, start: bool)
    ensures var r := CheckClusterStateSpec(w, c, clusterId, start);
      var (state, w1) := ClusterInfoStep(w, clusterId);
      && r.1.calls[..|w.calls| + 1] == w.calls + [GetClusterInfo(clusterId)]
      && (state.Err? ==> r == (Err(state.error), w1))
      && (state == Ok("RUNNING") || state == Ok("RESIZING") ==> r == (Ok(()), w1))
      && (state == Ok("TERMINATED") ==> r == if start then StartSpec(w1, c) else (Err(TerminatedHint), w1))
      && (state.Ok? && state.value !in {"RUNNING", "RESIZING", "TERMINATED"} ==> r == (Err(UnusableState(state.value)), w1))
      && ((exists call :: call in Added(w.calls, r.1.calls) && call.StartCluster?) ==> state == Ok("TERMINATED") && start)
  {
    var r := CheckClusterStateSpec(w, c, clusterId, start);
    var (state, w1) := ClusterInfoStep(w, clusterId);
    assert r.1.calls[..|w1.calls|] == w1.calls;
    if !(state == Ok("TERMINATED") && start) {
      assert Added(w.calls, r.1.calls) == [GetClusterInfo(clusterId)];
    }
  }

  // ---------------------------------------------------------------------------
  // Execution contexts

  const ContextGone: string := "Execution context does not exist anymore. Recreate it with `brichka init`"

  /** `create_temporary_context`: an SQL context that is not recorded. */
  function CreateTemporaryContextSpec(w: Remote, clusterId: string): (r: (Result<string>, Remote))
    ensures r.1 == w.(createdContexts := r.1.createdContexts, contextStatuses := r.1.contextStatuses, calls := r.1.calls)
    ensures Within(w.calls, r.1.calls, 1)
  {
    var (created, w1) := CreateContextStep(w, clusterId, Language);
    if created.Err? then (Err(created.error), w1)
    else
      var (waited, w2) := AwaitContextSpec(w1, clusterId, created.value);
      WithinTransitive(w.calls, w1.calls, w2.calls, 1);
      (if waited.Err? then Err(waited.error) else Ok(created.value), w2)
  }

  /** `create_temporary_context`. */
  method CreateTemporaryContext(svc: Service, clusterId: string) returns (r: Result<string>)
    modifies svc
    ensures (r, svc.State()) == CreateTemporaryContextSpec(old(svc.State()), clusterId)
  {
    var created := svc.CreateContext(clusterId, Language);
    if created.Err? {
      return Err(created.error);
    }
    var contextId := created.value;
    var waited := AwaitContext(svc, clusterId, contextId);
    if waited.Err? {
      return Err(waited.error);
    }
    r := Ok(contextId);
  }

  /** The temporary context is created first, as an SQL context on the given
      cluster; a failed create sends nothing more, and otherwise the created
      id is returned exactly when the wait for it succeeds, the wait querying
      only that context.  Nothing is recorded: the function sees no selection. */
  lemma TemporaryContextCreatesThenWaits(w: Remote, clusterId: string)
    ensures var created := Next(w.createdContexts);
      var w1 := CreateContextStep(w, clusterId, Language).1;
      var r := CreateTemporaryContextSpec(w, clusterId);
      && |r.1.calls| > |w.calls|
      && r.1.calls[|w.calls|] == CreateContext(clusterId, Language)
      && (created.Err? ==> r == (Err(created.error), w1))
      && (created.Ok? ==> r.1 == AwaitContextSpec(w1, clusterId, created.value).1)
      && (created.Ok? ==> (r.0 == Ok(created.value) <==> AwaitContextSpec(w1, clusterId, created.value).0.Ok?))
      && (created.Ok? && r.0.Err? ==> r.0.error == AwaitContextSpec(w1, clusterId, created.value).0.error)
      && (created.Ok? ==> forall i :: |w.calls| < i < |r.1.calls| ==>
                            r.1.calls[i] == GetContextStatus(clusterId, created.value))
  {
    var created := Next(w.createdContexts);
    var w1 := CreateContextStep(w, clusterId, Language).1;
    if created.Ok? {
      var w2 := AwaitContextSpec(w1, clusterId, created.value).1;
      assert w2.calls[..|w1.calls|] == w1.calls;
    }
  }

  /** `init` followed by re-reading the recorded context. */
  function ViaInit(w: World): (r: (Result<string>, World))
    ensures r.1.remote == w.remote.(createdContexts := r.1.remote.createdContexts,
                                    contextStatuses := r.1.remote.contextStatuses,
                                    calls := r.1.remote.calls)
    ensures r.1.config == w.config.(localContext := r.1.config.localContext)
    ensures Within(w.remote.calls, r.1.remote.calls, 1)
  {
    var (done, w1) := InitSpec(w);
    if done.Err? then (Err(done.error), w1) else (LocalContext(w1.config), w1)
  }

  /** `get_or_create_context` on a snapshot. */
  function GetOrCreateContextSpec(w: World, clusterId: string, init: bool): (r: (Result<string>, World))
    ensures r.1.remote == w.remote.(createdContexts := r.1.remote.createdContexts,
                                    contextStatuses := r.1.remote.contextStatuses,
                                    calls := r.1.remote.calls)
    ensures r.1.config == w.config.(localContext := r.1.config.localContext)
    ensures Within(w.remote.calls, r.1.remote.calls, 1)
  {
    match LocalContext(w.config)
    case Err(_) =>
      if init then ViaInit(w)
      else
        var (r, remote) := CreateTemporaryContextSpec(w.remote, clusterId);
        (r, w.(remote := remote))
    case Ok(contextId) =>
      var (status, remote) := ContextStatusStep(w.remote, clusterId, contextId);
      var w1 := w.(remote := remote);
      if status == Ok(Running) then (Ok(contextId), w1)
      else if init then
        var r := ViaInit(w1);
        WithinTransitive(w.remote.calls, remote.calls, r.1.remote.calls, 1);
        r
      else (Err(ContextGone), w1)
  }

  /** `get_or_create_context`. */
  method GetOrCreateContext(svc: Service, store: Store, clusterId: string, init: bool) returns (r: Result<string>)
    modifies svc, store
    ensures (r, Snapshot(svc, store)) == GetOrCreateContextSpec(old(Snapshot(svc, store)), clusterId, init)
  {
    var existing := LocalContext(store.State());
    if existing.Err? {
      if init {
        var done := Init(svc, store);
        if done.Err? {
          return Err(done.error);
        }
        r := LocalContext(store.State());
      } else {
        r := CreateTemporaryContext(svc, clusterId);
      }
    } else {
      var status := svc.GetContextStatus(clusterId, existing.value);
      if status == Ok(Running) {
        r := Ok(existing.value);
      } else if init {
        var done := Init(svc, store);
        if done.Err? {
          return Err(done.error);
        }
        r := LocalContext(store.State());
      } else {
        r := Err(ContextGone);
      }
    }
  }

  /** Whether the recorded context is reused: there is one, and its status
      query answers `Running`. */
  predicate Reuses(w: World) {
    LocalContext(w.config).Ok? && Next(w.remote.contextStatuses) == Ok(Running)
  }

  /** A recorded context is reused, after one status query and with no create
      request, exactly when that query answers `Running`; every other
      successful resolution creates an SQL context. */
  lemma ContextReuse(w: World, clusterId: string, init: bool)
    ensures var r := GetOrCreateContextSpec(w, clusterId, init);
      && (Reuses(w) ==> r == (Ok(LocalContext(w.config).value),
                              w.(remote := ContextStatusStep(w.remote, clusterId, LocalContext(w.config).value).1)))
      && (!Reuses(w) && r.0.Ok? ==> exists call :: call in Added(w.remote.calls, r.1.remote.calls) && call.CreateContext?)
  {
    var r := GetOrCreateContextSpec(w, clusterId, init);
    if !Reuses(w) && r.0.Ok? {
      if init {
        var w0 := if LocalContext(w.config).Ok? then w.(remote := ContextStatusStep(w.remote, clusterId, LocalContext(w.config).value).1) else w;
        InitCreatesRecordsThenWaits(w0);
        var i := |w0.remote.calls|;
        assert r.1.remote.calls[i] in Added(w.remote.calls, r.1.remote.calls);
      } else {
        var i := |w.remote.calls|;
        assert r.1.remote.calls[i] in Added(w.remote.calls, r.1.remote.calls);
      }
    }
  }

  /** Without `init`: a recorded context that is not running is an error
      naming `brichka init`, and without a recorded context an unrecorded
      temporary context is created and awaited. */
  lemma ContextWithoutInit(w: World, clusterId: string)
    ensures var r := GetOrCreateContextSpec(w, clusterId, false);
      && (LocalContext(w.config).Ok? && !Reuses(w) ==> r.0 == Err(ContextGone) && r.1.config == w.config)
      && (LocalContext(w.config).Err? ==> r.1.config == w.config && r.0 == CreateTemporaryContextSpec(w.remote, clusterId).0)
  {
  }

  /** With `init`, a context that is not reused is replaced by the one `init`
      creates: the id the workspace returned, which is then recorded. */
  lemma ContextWithInit(w: World, clusterId: string)
    requires !Reuses(w)
    ensures var r := GetOrCreateContextSpec(w, clusterId, true);
      r.0.Ok? ==> r.1.config.localContext == Some(r.0.value)
  {
  }

  // ---------------------------------------------------------------------------
  // Command polling

  /** A command status that ends the wait. */
  predicate IsTerminal(status: string) {
    status == "Finished" || status == "Error" || status == "Cancelled"
  }

  predicate EndsCommandWait(reply: Result<CommandInfo>) {
    reply.Err? || IsTerminal(reply.value.status)
  }

  /** `await_command_result` on a snapshot. */
  function AwaitCommandSpec(w: Remote, commandId: string, clusterId: string, contextId: string): (r: (Result<CommandInfo>, Remote))
    ensures r.1 == w.(commandInfos := r.1.commandInfos, calls := r.1.calls)
    ensures Appends(w.calls, r.1.calls)
    ensures forall i :: |w.calls| <= i < |r.1.calls| ==> r.1.calls[i] == GetCommandInfo(commandId, clusterId, contextId)
    ensures r.0.Ok? ==> Ok(r.0.value) in w.commandInfos && IsTerminal(r.0.value.status)
    decreases |w.commandInfos|
  {
    var (reply, w1) := CommandInfoStep(w, commandId, clusterId, contextId);
    if EndsCommandWait(reply) then (reply, w1)
    else
      var r := AwaitCommandSpec(w1, commandId, clusterId, contextId);
      assert r.1.calls[..|w.calls|] == r.1.calls[..|w1.calls|][..|w.calls|];
      r
  }

  /** `await_command_result`. */
  method AwaitCommandResult(svc: Service, clusterId: string, contextId: string, commandId: string)
    returns (r: Result<CommandInfo>)
    modifies svc
    ensures (r, svc.State()) == AwaitCommandSpec(old(svc.State()), commandId, clusterId, contextId)
  {
    while true
      invariant AwaitCommandSpec(svc.State(), commandId, clusterId, contextId) == AwaitCommandSpec(old(svc.State()), commandId, clusterId, contextId)
      decreases |svc.commandInfos|
    {
      var result := svc.GetCommandInfo(commandId, clusterId, contextId);
      if result.Err? {
        return Err(result.error);
      }
      if IsTerminal(result.value.status) {
        return Ok(result.value);
      }
    }
  }

  /** The poll returns the first reply that is terminal or failed, after one
      status query per reply up to it. */
  lemma {:induction false} AwaitCommandFirstTerminal(w: Remote, commandId: string, clusterId: string, contextId: string)
    ensures var k := FirstWhere(w.commandInfos, EndsCommandWait);
      var r := AwaitCommandSpec(w, commandId, clusterId, contextId);
      && r.1.calls == w.calls + seq(k + 1, _ => GetCommandInfo(commandId, clusterId, contextId))
      && r.0 == (if k < |w.commandInfos| then w.commandInfos[k] else Err(NoReply))
    decreases |w.commandInfos|
  {
    var q := w.commandInfos;
    var call := GetCommandInfo(commandId, clusterId, contextId);
    if q != [] && !EndsCommandWait(q[0]) {
      var (_, w1) := CommandInfoStep(w, commandId, clusterId, contextId);
      AwaitCommandFirstTerminal(w1, commandId, clusterId, contextId);
      var k' := FirstWhere(w1.commandInfos, EndsCommandWait);
      assert FirstWhere(q, EndsCommandWait) == k' + 1;
      assert w.calls + [call] + seq(k' + 1, _ => call) == w.calls + seq(k' + 2, _ => call);
      if k' < |w1.commandInfos| {
        assert w1.commandInfos[k'] == q[k' + 1];
      }
    }
  }

  // ---------------------------------------------------------------------------
  // The pipeline

  /** Every terminal status reply carries results (the source unwraps them). */
  predicate TerminalsCarryResults(script: seq<Result<CommandInfo>>) {
    forall reply :: reply in script && reply.Ok? && IsTerminal(reply.value.status) ==> reply.value.results.Some?
  }

  /** What `run` produces: the printed line and the file it writes. */
  datatype Output = Output(line: string, spill: Option<Decoder.Spill>)

  /** The command text as submitted. */
  function Filtered(command: string): string {
    Join(Preprocessor.Kept(Lines(command)), "\n")
  }

  /** Submitting, polling and formatting, once the cluster and the context are known. */
  function SubmitSpec(w: Remote, clusterId: string, contextId: string, command: string, language: string, tempDir: string)
    : (r: (Result<Output>, Remote))
    requires TerminalsCarryResults(w.commandInfos)
    ensures Appends(w.calls, r.1.calls)
    ensures IsSubmission(r.1.calls[|w.calls|..], command, language, clusterId, contextId)
    ensures Next(w.submittedCommands).Err? ==> r.0.Err? && |r.1.calls| == |w.calls| + 1
    ensures Next(w.submittedCommands).Ok? ==> forall i :: |w.calls| < i < |r.1.calls| ==>
              r.1.calls[i] == GetCommandInfo(Next(w.submittedCommands).value, clusterId, contextId)
  {
    var (submitted, w1) := ExecuteStep(w, Filtered(command), clusterId, contextId, language);
    if submitted.Err? then
      SubmissionCalls(w.calls, w1.calls, command, language, clusterId, contextId, "");
      (Err(submitted.error), w1)
    else
      var (info, w2) := AwaitCommandSpec(w1, submitted.value, clusterId, contextId);
      SubmissionCalls(w.calls, w2.calls, command, language, clusterId, contextId, submitted.value);
      if info.Err? then (Err(info.error), w2)
      else (FormatOutput(info.value, tempDir), w2)
  }

  /** One submission followed by status queries of `commandId` is a submission log. */
  lemma SubmissionCalls(before: seq<Call>, after: seq<Call>, command: string, language: string,
                        clusterId: string, contextId: string, commandId: string)
    requires |before| < |after|
    requires after[..|before| + 1] == before + [ExecuteCommand(Filtered(command), clusterId, contextId, language)]
    requires forall i :: |before| < i < |after| ==> after[i] == GetCommandInfo(commandId, clusterId, contextId)
    ensures Appends(before, after)
    ensures IsSubmission(after[|before|..], command, language, clusterId, contextId)
  {
    assert after[..|before|] == after[..|before| + 1][..|before|];
    assert after[|before|..][0] == after[..|before| + 1][|before|];
  }

  /** After the submission, the outcome is the first status reply that ends
      the poll: its error when the query failed, otherwise that reply
      formatted and rendered; a failed submission is the outcome itself. */
  lemma SubmitOutcome(w: Remote, clusterId: string, contextId: string, command: string, language: string, tempDir: string)
    requires TerminalsCarryResults(w.commandInfos)
    ensures var r := SubmitSpec(w, clusterId, contextId, command, language, tempDir);
      var q := w.commandInfos;
      var k := FirstWhere(q, EndsCommandWait);
      && (Next(w.submittedCommands).Err? ==> r.0 == Err(Next(w.submittedCommands).error))
      && (Next(w.submittedCommands).Ok? && k == |q| ==> r.0 == Err(NoReply))
      && (Next(w.submittedCommands).Ok? && k < |q| && q[k].Err? ==> r.0 == Err(q[k].error))
      && (Next(w.submittedCommands).Ok? && k < |q| && q[k].Ok? ==>
            q[k].value.results.Some? && r.0 == FormatOutput(q[k].value, tempDir))
  {
    var q := w.commandInfos;
    var k := FirstWhere(q, EndsCommandWait);
    if Next(w.submittedCommands).Ok? {
      var w1 := ExecuteStep(w, Filtered(command), clusterId, contextId, language).1;
      AwaitCommandFirstTerminal(w1, Next(w.submittedCommands).value, clusterId, contextId);
      if k < |q| && q[k].Ok? {
        assert q[k] in q;
      }
    }
  }

  /** The formatted result rendered as the printed line. */
  function FormatOutput(info: CommandInfo, tempDir: string): Result<Output>
    requires info.results.Some?
  {
    match Decoder.CommandOutcome(info, tempDir)
    case Err(e) => Err(e)
    case Ok(f) => Ok(Output(Decoder.RenderText(f.result), f.spill))
  }

  /** `run` on a snapshot, with the directory for temporary files. */
  function RunSpec(w: World, command: string, language: string, init: bool, start: bool, tempDir: string)
    : (r: (Result<Output>, World))
    requires TerminalsCarryResults(w.remote.commandInfos)
  {
    match SelectedCluster(w.config)
    case Err(e) => (Err(e), w)
    case Ok(clusterId) =>
      var (ready, r1) := CheckClusterStateSpec(w.remote, w.config, clusterId, start);
      if ready.Err? then (Err(ready.error), w.(remote := r1))
      else RunOnReadyCluster(w.(remote := r1), clusterId, command, language, init, tempDir)
  }

  /** The rest of `run` once the cluster has passed the gate. */
  function RunOnReadyCluster(w: World, clusterId: string, command: string, language: string, init: bool, tempDir: string)
    : (r: (Result<Output>, World))
    requires TerminalsCarryResults(w.remote.commandInfos)
  {
    var (context, w1) := GetOrCreateContextSpec(w, clusterId, init);
    if context.Err? then (Err(context.error), w1)
    else
      var (out, r2) := SubmitSpec(w1.remote, clusterId, context.value, command, language, tempDir);
      (out, w1.(remote := r2))
  }

  /** `commands::run::run`. */
  method Run(svc: Service, store: Store, command: string, language: string, init: bool, start: bool, tempDir: string)
    returns (r: Result<Output>)
    requires TerminalsCarryResults(svc.commandInfos)
    modifies svc, store
    ensures (r, Snapshot(svc, store)) == RunSpec(old(Snapshot(svc, store)), command, language, init, start, tempDir)
  {
    var cluster := SelectedCluster(store.State());
    if cluster.Err? {
      return Err(cluster.error);
    }
    var clusterId := cluster.value;
    var ready := CheckClusterState(svc, store, clusterId, start);
    if ready.Err? {
      return Err(ready.error);
    }
    var context := GetOrCreateContext(svc, store, clusterId, init);
    if context.Err? {
      return Err(context.error);
    }
    var contextId := context.value;
    var filtered := Preprocessor.FilterExcludedSections(command);
    var submitted := svc.ExecuteCommand(filtered, clusterId, contextId, language);
    if submitted.Err? {
      return Err(submitted.error);
    }
    var info := AwaitCommandResult(svc, clusterId, contextId, submitted.value);
    if info.Err? {
      return Err(info.error);
    }
    var formatted := Decoder.FormatCommandResult(info.value, tempDir);
    if formatted.Err? {
      return Err(formatted.error);
    }
    r := Ok(Output(Decoder.RenderText(formatted.value.result), formatted.value.spill));
  }

  /** `run` sends its requests in stage order: the gate's requests, then the
      context resolver's, then at most one submission, of the filtered text
      in the requested language to the selected cluster, followed only by
      status queries; a successful run has submitted exactly once. */
  lemma RunStageOrder(w: World, command: string, language: string, init: bool, start: bool, tempDir: string)
    returns (gated: nat, resolved: nat)
    requires TerminalsCarryResults(w.remote.commandInfos)
    ensures var calls := RunSpec(w, command, language, init, start, tempDir).1.remote.calls;
      && |w.remote.calls| <= gated <= resolved <= |calls|
      && Within(w.remote.calls, calls[..gated], 0)
      && Within(calls[..gated], calls[..resolved], 1)
      && (resolved < |calls| ==> SelectedCluster(w.config).Ok? && RunContext(w, init, start).Ok?)
      && (resolved < |calls| ==> IsSubmission(calls[resolved..], command, language, SelectedCluster(w.config).value,
                                              RunContext(w, init, start).value))
      && (RunSpec(w, command, language, init, start, tempDir).0.Ok? ==> resolved < |calls|)
  {
    var r := RunSpec(w, command, language, init, start, tempDir);
    var calls := r.1.remote.calls;
    gated, resolved := |calls|, |calls|;
    if SelectedCluster(w.config).Ok? {
      var clusterId := SelectedCluster(w.config).value;
      var (ready, r1) := CheckClusterStateSpec(w.remote, w.config, clusterId, start);
      gated, resolved := |r1.calls|, |r1.calls|;
      if ready.Ok? {
        assert r == RunOnReadyCluster(w.(remote := r1), clusterId, command, language, init, tempDir);
        assert RunContext(w, init, start) == GetOrCreateContextSpec(w.(remote := r1), clusterId, init).0;
        resolved := ReadyStageOrder(w.(remote := r1), clusterId, command, language, init, tempDir);
        assert calls[..gated] == r1.calls;
      }
    }
  }

  /** A submission of the filtered text to the given cluster and context,
      followed only by status queries in that cluster and context. */
  predicate IsSubmission(calls: seq<Call>, command: string, language: string, clusterId: string, contextId: string) {
    && calls != []
    && calls[0] == ExecuteCommand(Filtered(command), clusterId, contextId, language)
    && forall i :: 1 <= i < |calls| ==>
         calls[i].GetCommandInfo? && calls[i].clusterId == clusterId && calls[i].contextId == contextId
  }

  /** The context `run` submits to: the one the resolver returns after the gate. */
  function RunContext(w: World, init: bool, start: bool): Result<string>
    requires SelectedCluster(w.config).Ok?
  {
    var clusterId := SelectedCluster(w.config).value;
    var r1 := CheckClusterStateSpec(w.remote, w.config, clusterId, start).1;
    GetOrCreateContextSpec(w.(remote := r1), clusterId, init).0
  }

  /** After the gate: context requests, then at most one submission. */
  lemma ReadyStageOrder(w: World, clusterId: string, command: string, language: string, init: bool, tempDir: string)
    returns (resolved: nat)
    requires TerminalsCarryResults(w.remote.commandInfos)
    ensures var r := RunOnReadyCluster(w, clusterId, command, language, init, tempDir);
      && |w.remote.calls| <= resolved <= |r.1.remote.calls|
      && Within(w.remote.calls, r.1.remote.calls[..resolved], 1)
      && r.1.remote.calls[..resolved][..|w.remote.calls|] == w.remote.calls
      && (resolved < |r.1.remote.calls| ==> GetOrCreateContextSpec(w, clusterId, init).0.Ok?)
      && (resolved < |r.1.remote.calls| ==> IsSubmission(r.1.remote.calls[resolved..], command, language, clusterId,
                                                         GetOrCreateContextSpec(w, clusterId, init).0.value))
      && (r.0.Ok? ==> resolved < |r.1.remote.calls|)
  {
    var (ctx, w1) := GetOrCreateContextSpec(w, clusterId, init);
    resolved := |w1.remote.calls|;
    if ctx.Ok? {
      var r2 := SubmitSpec(w1.remote, clusterId, ctx.value, command, language, tempDir).1;
      assert r2.calls[..resolved] == w1.remote.calls;
    } else {
      assert w1.remote.calls[..resolved] == w1.remote.calls;
    }
  }
}
