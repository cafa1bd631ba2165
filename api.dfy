/** The Databricks workspace as the command routines see it, and the
    persisted cluster and context selection.

    Every remote endpoint is an oracle: it answers from a script of replies
    fixed in advance, one reply per call, and a call made after the script is
    used up fails with `NoReply`.  Every call is appended to a log, so the
    order and the arguments of the requests can be stated. */
module Api {
  import opened Wrappers
  import opened Json

  /** One column of a tabular result (`Schema`): its name and the text of its type. */
  datatype Column = Column(name: string, tpe: string)

  /** `CommandResults` of a command status reply. */
  datatype CommandResults = CommandResults(
    data: Option<Json>,
    resultType: string,
    schema: Option<seq<Column>>,
    cause: Option<string>,
    summary: Option<string>)

  /** `GetCommandInfoResponse`. */
  datatype CommandInfo = CommandInfo(id: string, status: string, results: Option<CommandResults>)

  /** A request sent to the workspace, with the arguments that identify it. */
  datatype Call =
    | GetClusterInfo(clusterId: string)
    | StartCluster(clusterId: string)
    | CreateContext(clusterId: string, language: string)
    | GetContextStatus(clusterId: string, contextId: string)
    | ExecuteCommand(command: string, clusterId: string, contextId: string, language: string)
    | GetCommandInfo(commandId: string, clusterId: string, contextId: string)

  const NoReply: string := "no reply from the workspace"

  /** The reply to the next call on an endpoint. */
  function Next<T>(script: seq<Result<T>>): (r: Result<T>)
    ensures script != [] ==> r == script[0]
    ensures script == [] ==> r == Err(NoReply)
  {
    if script == [] then Err(NoReply) else script[0]
  }

  /** The script left after one call. */
  function Consume<T>(script: seq<Result<T>>): (r: seq<Result<T>>)
    ensures script != [] ==> r == script[1..]
    ensures script == [] ==> r == []
  {
    if script == [] then [] else script[1..]
  }

  /** Position of the first entry of `script` that stops a poll, `|script|` if none does. */
  function FirstWhere<T>(script: seq<T>, stops: T -> bool): (k: nat)
    ensures k <= |script|
    ensures forall i :: 0 <= i < k ==> !stops(script[i])
    ensures k < |script| ==> stops(script[k])
    decreases |script|
  {
    if script == [] then 0
    else if stops(script[0]) then 0
    else 1 + FirstWhere(script[1..], stops)
  }

  /** `after` is `before` with requests appended. */
  predicate Appends(before: seq<Call>, after: seq<Call>) {
    |before| <= |after| && after[..|before|] == before
  }

  /** The requests appended to `before`. */
  function Added(before: seq<Call>, after: seq<Call>): seq<Call>
    requires Appends(before, after)
  {
    after[|before|..]
  }

  /** The stage a request belongs to in `run`: the cluster gate, the context,
      the submission, the command poll. */
  function Stage(call: Call): nat {
    match call
    case GetClusterInfo(_) => 0
    case StartCluster(_) => 0
    case CreateContext(_, _) => 1
    case GetContextStatus(_, _) => 1
    case ExecuteCommand(_, _, _, _) => 2
    case GetCommandInfo(_, _, _) => 3
  }

  /** `after` is `before` with requests of one stage appended. */
  predicate Within(before: seq<Call>, after: seq<Call>, stage: nat) {
    Appends(before, after) && forall i :: |before| <= i < |after| ==> Stage(after[i]) == stage
  }

  /** Requests of one stage appended twice are requests of that stage appended once. */
  lemma WithinTransitive(a: seq<Call>, b: seq<Call>, c: seq<Call>, stage: nat)
    requires Within(a, b, stage) && Within(b, c, stage)
    ensures Within(a, c, stage)
  {
    assert c[..|a|] == c[..|b|][..|a|];
  }

  /** What the workspace still has to say, per endpoint, and the requests made so far. */
  datatype Remote = Remote(
    clusterStates: seq<Result<string>>,      // `state` of clusters/get
    startReplies: seq<Result<string>>,       // clusters/start
    createdContexts: seq<Result<string>>,    // `id` of contexts/create
    contextStatuses: seq<Result<string>>,    // `status` of contexts/status
    submittedCommands: seq<Result<string>>,  // `id` of commands/execute
    commandInfos: seq<Result<CommandInfo>>,  // commands/status
    calls: seq<Call>)

  // One step of each endpoint on a snapshot of the workspace.

  function ClusterInfoStep(w: Remote, clusterId: string): (Result<string>, Remote) {
    (Next(w.clusterStates),
     w.(clusterStates := Consume(w.clusterStates), calls := w.calls + [GetClusterInfo(clusterId)]))
  }

  function StartClusterStep(w: Remote, clusterId: string): (Result<string>, Remote) {
    (Next(w.startReplies),
     w.(startReplies := Consume(w.startReplies), calls := w.calls + [StartCluster(clusterId)]))
  }

  function CreateContextStep(w: Remote, clusterId: string, language: string): (Result<string>, Remote) {
    (Next(w.createdContexts),
     w.(createdContexts := Consume(w.createdContexts), calls := w.calls + [CreateContext(clusterId, language)]))
  }

  function ContextStatusStep(w: Remote, clusterId: string, contextId: string): (Result<string>, Remote) {
    (Next(w.contextStatuses),
     w.(contextStatuses := Consume(w.contextStatuses), calls := w.calls + [GetContextStatus(clusterId, contextId)]))
  }

  function ExecuteStep(w: Remote, command: string, clusterId: string, contextId: string, language: string)
    : (Result<string>, Remote)
  {
    (Next(w.submittedCommands),
     w.(submittedCommands := Consume(w.submittedCommands),
        calls := w.calls + [ExecuteCommand(command, clusterId, contextId, language)]))
  }

  function CommandInfoStep(w: Remote, commandId: string, clusterId: string, contextId: string)
    : (Result<CommandInfo>, Remote)
  {
    (Next(w.commandInfos),
     w.(commandInfos := Consume(w.commandInfos), calls := w.calls + [GetCommandInfo(commandId, clusterId, contextId)]))
  }

  /** The workspace endpoints (`client::cluster`, `client::context`, `client::command`). */
  class Service {
    var clusterStates: seq<Result<string>>
    var startReplies: seq<Result<string>>
    var createdContexts: seq<Result<string>>
    var contextStatuses: seq<Result<string>>
    var submittedCommands: seq<Result<string>>
    var commandInfos: seq<Result<CommandInfo>>
    var calls: seq<Call>

    constructor (w: Remote)
      ensures State() == w
    {
      clusterStates, startReplies, createdContexts := w.clusterStates, w.startReplies, w.createdContexts;
      contextStatuses, submittedCommands, commandInfos := w.contextStatuses, w.submittedCommands, w.commandInfos;
      calls := w.calls;
    }

    function State(): Remote
      reads this
    {
      Remote(clusterStates, startReplies, createdContexts, contextStatuses, submittedCommands, commandInfos, calls)
    }

    /** `client::cluster::get_info`: the cluster's state. */
    method GetClusterInfo(clusterId: string) returns (r: Result<string>)
      modifies this
      ensures (r, State()) == ClusterInfoStep(old(State()), clusterId)
    {
      r := Next(clusterStates);
      clusterStates := Consume(clusterStates);
      calls := calls + [Call.GetClusterInfo(clusterId)];
    }

    /** `client::cluster::start`. */
    method StartCluster(clusterId: string) returns (r: Result<string>)
      modifies this
      ensures (r, State()) == StartClusterStep(old(State()), clusterId)
    {
      r := Next(startReplies);
      startReplies := Consume(startReplies);
      calls := calls + [Call.StartCluster(clusterId)];
    }

    /** `client::context::create`: the new context's id. */
    method CreateContext(clusterId: string, language: string) returns (r: Result<string>)
      modifies this
      ensures (r, State()) == CreateContextStep(old(State()), clusterId, language)
    {
      r := Next(createdContexts);
      createdContexts := Consume(createdContexts);
      calls := calls + [Call.CreateContext(clusterId, language)];
    }

    /** `client::context::get_status`: the context's status. */
    method GetContextStatus(clusterId: string, contextId: string) returns (r: Result<string>)
      modifies this
      ensures (r, State()) == ContextStatusStep(old(State()), clusterId, contextId)
    {
      r := Next(contextStatuses);
      contextStatuses := Consume(contextStatuses);
      calls := calls + [Call.GetContextStatus(clusterId, contextId)];
    }

    /** `client::command::run`: the submitted command's id. */
    method ExecuteCommand(command: string, clusterId: string, contextId: string, language: string)
      returns (r: Result<string>)
      modifies this
      ensures (r, State()) == ExecuteStep(old(State()), command, clusterId, contextId, language)
    {
      r := Next(submittedCommands);
      submittedCommands := Consume(submittedCommands);
      calls := calls + [Call.ExecuteCommand(command, clusterId, contextId, language)];
    }

    /** `client::command::get_info`: the command's status and results. */
    method GetCommandInfo(commandId: string, clusterId: string, contextId: string) returns (r: Result<CommandInfo>)
      modifies this
      ensures (r, State()) == CommandInfoStep(old(State()), commandId, clusterId, contextId)
    {
      r := Next(commandInfos);
      commandInfos := Consume(commandInfos);
      calls := calls + [Call.GetCommandInfo(commandId, clusterId, contextId)];
    }
  }

  // ---------------------------------------------------------------------------
  // Persisted selection

  const NoLocalContext: string := "no execution context is selected in this directory"
  const NoCluster: string := "no cluster is selected"

  /** The selection files: the cluster chosen for this directory and globally,
      and the execution context chosen for this directory; `None` where the
      file is missing or unreadable. */
  datatype Config = Config(localCluster: Option<string>, globalCluster: Option<string>, localContext: Option<string>)

  /** `ClusterConfig::read_local().or(ClusterConfig::read_global())?.id`. */
  function SelectedCluster(c: Config): (r: Result<string>)
    ensures c.localCluster.Some? ==> r == Ok(c.localCluster.value)
    ensures c.localCluster.None? && c.globalCluster.Some? ==> r == Ok(c.globalCluster.value)
    ensures r.Err? <==> c.localCluster.None? && c.globalCluster.None?
  {
    if c.localCluster.Some? then Ok(c.localCluster.value)
    else if c.globalCluster.Some? then Ok(c.globalCluster.value)
    else Err(NoCluster)
  }

  /** `ContextConfig::read_local()`. */
  function LocalContext(c: Config): Result<string> {
    if c.localContext.Some? then Ok(c.localContext.value) else Err(NoLocalContext)
  }

  /** The selection files (`config::ClusterConfig`, `config::ContextConfig`). */
  class Store {
    var localCluster: Option<string>
    var globalCluster: Option<string>
    var localContext: Option<string>

    constructor (c: Config)
      ensures State() == c
    {
      localCluster, globalCluster, localContext := c.localCluster, c.globalCluster, c.localContext;
    }

    function State(): Config
      reads this
    {
      Config(localCluster, globalCluster, localContext)
    }

    /** `ContextConfig::new(id).write_local()`. */
    method WriteLocalContext(id: string)
      modifies this`localContext
      ensures State() == old(State()).(localContext := Some(id))
    {
      localContext := Some(id);
    }
  }

  /** Everything a command routine reads or changes. */
  datatype World = World(remote: Remote, config: Config)

  function Snapshot(svc: Service, store: Store): World
    reads svc, store
  {
    World(svc.State(), store.State())
  }
}
