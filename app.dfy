/**
 * The process's startup (`start()` in `src/app.ts`): decide the shard
 * assignment, either from the master (clustered mode) or from the gateway's
 * recommendation (local mode), hand it to the sharding manager, start the
 * manager and the API, and in clustered mode tell the master that the
 * cluster is ready.
 *
 * Every outside call is an input: the configuration and the outcome of each
 * call are fields of `Environment`, and `Start` returns the trace of actions
 * it performs, in order. `StartupTrace` is the same sequence written as a
 * function, and the lemmas below state the ordering and early-exit
 * guarantees about it.
 */
module App {
  import opened Wrappers
  import opened MasterApi

  // ---------------------------------------------------------------------------
  // Shard allocation
  // ---------------------------------------------------------------------------

  /** The shards this process runs and the size of the whole shard space. */
  datatype ShardAssignment = ShardAssignment(shardList: seq<int>, totalShards: int)

  /** `Math.max` on integers. */
  function Max(a: int, b: int): (m: int)
    ensures m >= a && m >= b && (m == a || m == b)
  {
    if a >= b then a else b
  }

  /** `MathUtils.range(lo, hi)`: the integers `lo, lo + 1, …, hi - 1`. */
  function Range(lo: int, hi: int): (r: seq<int>)
    ensures |r| == if lo < hi then hi - lo else 0
    ensures forall k :: 0 <= k < |r| ==> r[k] == lo + k
    decreases hi - lo
  {
    if lo >= hi then [] else [lo] + Range(lo + 1, hi)
  }

  /**
   * Clustered mode: the master's shard list unchanged, and a total that is
   * never below what the master assigned nor below what the gateway requires.
   */
  function ClusteredAllocation(masterList: seq<int>, masterTotal: int, required: int)
    : (a: ShardAssignment)
    ensures a.shardList == masterList
    ensures a.totalShards >= required && a.totalShards >= masterTotal
    ensures a.totalShards == required || a.totalShards == masterTotal
  {
    ShardAssignment(masterList, Max(required, masterTotal))
  }

  /** Local mode: every shard of the recommended count, `[0 .. recommended)`. */
  function LocalAllocation(recommended: int): (a: ShardAssignment)
    ensures a.totalShards == recommended
    ensures |a.shardList| == if recommended > 0 then recommended else 0
    ensures forall k :: 0 <= k < |a.shardList| ==> a.shardList[k] == k
  {
    ShardAssignment(Range(0, recommended), recommended)
  }

  /**
   * A local assignment is well formed: ascending (so without duplicates),
   * every index inside `[0, totalShards)`, and empty exactly when the
   * recommendation is not positive.
   */
  lemma LocalAllocationWellFormed(recommended: int)
    ensures var a := LocalAllocation(recommended);
      && (forall k :: 0 <= k < |a.shardList| ==> 0 <= a.shardList[k] < a.totalShards)
      && (forall j, k :: 0 <= j < k < |a.shardList| ==> a.shardList[j] < a.shardList[k])
      && (a.shardList == [] <==> recommended <= 0)
  {
  }

  /** The master's `[2, 3]` of 8 with 6 required stays 8; a local recommendation of 4 gives `[0, 1, 2, 3]`. */
  lemma AllocationExamples()
    ensures ClusteredAllocation([2, 3], 8, 6) == ShardAssignment([2, 3], 8)
    ensures ClusteredAllocation([2, 3], 8, 10) == ShardAssignment([2, 3], 10)
    ensures LocalAllocation(4) == ShardAssignment([0, 1, 2, 3], 4)
  {
    assert Range(0, 4) == [0, 1, 2, 3];
  }

  // ---------------------------------------------------------------------------
  // The startup sequence
  // ---------------------------------------------------------------------------

  /** The jobs the process can run. */
  datatype JobKind = UpdateServerCount

  /** The options given to the sharding manager. */
  datatype ManagerOptions = ManagerOptions(
    file: string,
    token: string,
    mode: string,
    respawn: bool,
    totalShards: int,
    shardList: seq<int>)

  /** The log lines `start()` can write, by their key in the message catalogue. */
  datatype LogLine = AppStarted | RetrieveShardsFailed | ManagerNoShards | Unspecified

  /** One observable step of `start()`. */
  datatype Action =
    | Info(line: LogLine)
    | Warn(line: LogLine)
    | Error(line: LogLine)
    | Send(request: Request)
    | QueryRequiredShards
    | QueryRecommendedShards(serversPerShard: int)
    | CreateManager(options: ManagerOptions)
    | CreateJobService(jobs: seq<JobKind>)
    | StartManager
    | StartApi

  /**
   * The configuration `start()` reads and the outcome of every outside call
   * it makes. A shard-count lookup that throws is `None`; a start that throws
   * is `false`.
   */
  datatype Environment = Environment(
    clustering: bool,
    cluster: ClusterConfig,
    clientToken: string,
    serversPerShard: int,
    shardModeOverride: Option<string>,
    registerReply: Response<RegisterClusterResponse>,
    loginReply: Response<LoginClusterResponse>,
    requiredShards: Option<int>,
    recommendedShards: Option<int>,
    managerStarts: bool,
    apiStarts: bool,
    readyReply: Response<()>)

  /** The job list: the server-count job only when this process is not part of a cluster. */
  function SelectJobs(clustering: bool): (jobs: seq<JobKind>)
    ensures UpdateServerCount in jobs <==> !clustering
    ensures |jobs| <= 1
  {
    if clustering then [] else [UpdateServerCount]
  }

  function ManagerOptionsFor(env: Environment, a: ShardAssignment): ManagerOptions {
    var mode := match env.shardModeOverride
      case Some(m) => m
      case None => "worker";
    ManagerOptions("dist/start.js", env.clientToken, mode, true, a.totalShards, a.shardList)
  }

  /**
   * The try block that obtains the assignment: the actions it performs and,
   * when no call in it throws, the assignment.
   */
  function Retrieval(env: Environment, clusterId: Option<string>)
    : (seq<Action>, Option<ShardAssignment>)
  {
    if env.clustering then
      var login := [Send(LoginRequest(env.cluster, clusterId))];
      if !env.loginReply.ok then (login, None)
      else
        var body := env.loginReply.body;
        (login + [QueryRequiredShards],
         match env.requiredShards
         case None => None
         case Some(n) => Some(ClusteredAllocation(body.shardList, body.totalShards, n)))
    else
      ([QueryRecommendedShards(env.serversPerShard)],
       match env.recommendedShards
       case None => None
       case Some(n) => Some(LocalAllocation(n)))
  }

  /** From the creation of the manager on: start it, start the API, then report ready. */
  function Launch(env: Environment, a: ShardAssignment, clusterId: Option<string>): seq<Action> {
    [CreateManager(ManagerOptionsFor(env, a)), CreateJobService(SelectJobs(env.clustering)),
     StartManager] +
    if !env.managerStarts then [Error(Unspecified)]
    else
      [StartApi] +
      if !env.apiStarts then [Error(Unspecified)] else Readiness(env, clusterId)
  }

  /** Once the manager and the API are up: in clustered mode, tell the master the cluster is ready. */
  function Readiness(env: Environment, clusterId: Option<string>): seq<Action> {
    if !env.clustering then []
    else [Send(ReadyRequest(env.cluster, clusterId))] + if env.readyReply.ok then [] else [Error(Unspecified)]
  }

  /** What follows the try block: report a failed lookup, warn about no shards, or launch. */
  function Conclusion(env: Environment, assignment: Option<ShardAssignment>, clusterId: Option<string>)
    : seq<Action>
  {
    match assignment
    case None => [Error(RetrieveShardsFailed)]
    case Some(a) =>
      if |a.shardList| == 0 then [Warn(ManagerNoShards)]
      else Launch(env, a, clusterId)
  }

  /** Everything after registration: retrieve the assignment, check it, launch. */
  function AfterRegistration(env: Environment, clusterId: Option<string>): seq<Action> {
    var (steps, assignment) := Retrieval(env, clusterId);
    steps + Conclusion(env, assignment, clusterId)
  }

  /** The whole of `start()`, including the top-level `catch` that logs what it throws. */
  function StartupTrace(env: Environment): seq<Action> {
    [Info(AppStarted)] +
    if !env.clustering then AfterRegistration(env, RegisteredId(env))
    else
      [Send(RegisterRequest(env.cluster))] +
      if !env.registerReply.ok then [Error(Unspecified)]
      else AfterRegistration(env, RegisteredId(env))
  }

  /** The requests among `actions`, in order. */
  function Sent(actions: seq<Action>): seq<Request> {
    if actions == [] then []
    else (if actions[0].Send? then [actions[0].request] else []) + Sent(actions[1..])
  }

  lemma {:induction false} SentAppend(a: seq<Action>, b: seq<Action>)
    ensures Sent(a + b) == Sent(a) + Sent(b)
  {
    if a == [] {
      assert a + b == b;
    } else {
      assert (a + b)[0] == a[0] && (a + b)[1..] == a[1..] + b;
      SentAppend(a[1..], b);
    }
  }

  /** Actions without a `Send` send nothing. */
  lemma {:induction false} SentQuiet(a: seq<Action>)
    requires forall x :: x in a ==> !x.Send?
    ensures Sent(a) == []
  {
    if a != [] {
      assert a[0] in a;
      assert forall x :: x in a[1..] ==> x in a;
      SentQuiet(a[1..]);
    }
  }

  /** `start()`: performs the startup against one `MasterApiService` and returns what it did. */
  method Start(env: Environment) returns (trace: seq<Action>)
    ensures trace == StartupTrace(env)
  {
    trace := [Info(AppStarted)];
    var master := new MasterApiService(env.cluster);
    if env.clustering {
      var req, registered := master.Register(env.registerReply);
      trace := trace + [Send(req)];
      if registered.Err? {
        trace := trace + [Error(Unspecified)];
        return;
      }
    }
    assert master.clusterId == RegisteredId(env);
    assert StartupTrace(env) == trace + AfterRegistration(env, master.clusterId);

    var id := master.clusterId;
    var steps, assignment := RetrieveShards(env, master);
    assert (steps, assignment) == Retrieval(env, id);
    var after := Conclude(env, master, assignment);
    assert steps + after == AfterRegistration(env, id);
    trace := trace + (steps + after);
  }

  /** The statements after the try block, from the shard check on. */
  method Conclude(env: Environment, master: MasterApiService, assignment: Option<ShardAssignment>)
    returns (actions: seq<Action>)
    requires master.config == env.cluster
    modifies master`requests
    ensures actions == Conclusion(env, assignment, master.clusterId)
    ensures master.requests == old(master.requests) + Sent(actions)
  {
    if assignment.None? {
      actions := [Error(RetrieveShardsFailed)];
      SentQuiet(actions);
    } else if |assignment.value.shardList| == 0 {
      actions := [Warn(ManagerNoShards)];
      SentQuiet(actions);
    } else {
      actions := LaunchShards(env, master, assignment.value);
    }
  }

  /**
   * The try block of `start()`: log in and look up the required count
   * (clustered), or look up the recommended count (local). `None` when one
   * of these calls throws.
   */
  method RetrieveShards(env: Environment, master: MasterApiService)
    returns (steps: seq<Action>, assignment: Option<ShardAssignment>)
    requires master.config == env.cluster
    modifies master`requests
    ensures (steps, assignment) == Retrieval(env, master.clusterId)
    ensures master.requests == old(master.requests) + Sent(steps)
  {
    var shardList: seq<int>;
    var totalShards: int;
    if env.clustering {
      var req, login := master.Login(env.loginReply);
      steps := [Send(req)];
      assert Sent(steps) == [req] by { SentQuiet([]); }
      if login.Err? {
        return steps, None;
      }
      shardList := login.value.shardList;
      SentQuiet([QueryRequiredShards]);
      SentAppend(steps, [QueryRequiredShards]);
      steps := steps + [QueryRequiredShards];
      if env.requiredShards.None? {
        return steps, None;
      }
      totalShards := Max(env.requiredShards.value, login.value.totalShards);
    } else {
      steps := [QueryRecommendedShards(env.serversPerShard)];
      SentQuiet(steps);
      if env.recommendedShards.None? {
        return steps, None;
      }
      var recommended := env.recommendedShards.value;
      shardList := Range(0, recommended);
      totalShards := recommended;
    }
    assignment := Some(ShardAssignment(shardList, totalShards));
  }

  /** From `new ShardingManager` to `ready`: the part of `start()` that runs once shards exist. */
  method LaunchShards(env: Environment, master: MasterApiService, a: ShardAssignment)
    returns (actions: seq<Action>)
    requires master.config == env.cluster
    modifies master`requests
    ensures actions == Launch(env, a, master.clusterId)
    ensures master.requests == old(master.requests) + Sent(actions)
  {
    var id := master.clusterId;
    var head := [CreateManager(ManagerOptionsFor(env, a)), CreateJobService(SelectJobs(env.clustering)),
                 StartManager];
    var rest: seq<Action>;
    if !env.managerStarts {
      rest := [Error(Unspecified)];
    } else {
      var after: seq<Action>;
      if !env.apiStarts {
        after := [Error(Unspecified)];
      } else {
        after := ReportReady(env, master);
      }
      rest := [StartApi] + after;
    }
    actions := head + rest;
    SentLaunch(env, a, id);
  }

  /** The launch sends the `ready` request of `Readiness` and nothing else. */
  lemma SentLaunch(env: Environment, a: ShardAssignment, clusterId: Option<string>)
    ensures Sent(Launch(env, a, clusterId)) ==
      if env.managerStarts && env.apiStarts then Sent(Readiness(env, clusterId)) else []
  {
    var head := [CreateManager(ManagerOptionsFor(env, a)), CreateJobService(SelectJobs(env.clustering)),
                 StartManager];
    SentQuiet(head);
    var rest := Launch(env, a, clusterId)[3..];
    assert Launch(env, a, clusterId) == head + rest;
    SentAppend(head, rest);
    if env.managerStarts && env.apiStarts {
      assert rest == [StartApi] + Readiness(env, clusterId);
      SentQuiet([StartApi]);
      SentAppend([StartApi], Readiness(env, clusterId));
    } else {
      SentQuiet(rest);
    }
  }

  /** The `ready` call at the end of `start()`, made in clustered mode only. */
  method ReportReady(env: Environment, master: MasterApiService) returns (tail: seq<Action>)
    requires master.config == env.cluster
    modifies master`requests
    ensures tail == Readiness(env, master.clusterId)
    ensures master.requests == old(master.requests) + Sent(tail)
  {
    tail := [];
    SentQuiet(tail);
    if env.clustering {
      var req, readied := master.Ready(env.readyReply);
      tail := [Send(req)] + if readied.Ok? then [] else [Error(Unspecified)];
      assert Sent(tail) == [req] by {
        SentQuiet(if readied.Ok? then [] else [Error(Unspecified)]);
      }
    }
  }

  // ---------------------------------------------------------------------------
  // Properties of the startup sequence
  // ---------------------------------------------------------------------------

  /** The id the master handed out, as `MasterApiService` holds it after registration. */
  function RegisteredId(env: Environment): Option<string> {
    if env.clustering then Some(env.registerReply.body.id) else None
  }

  /** The assignment `start()` computes once registration has succeeded, if no lookup throws. */
  function Assignment(env: Environment): Option<ShardAssignment> {
    Retrieval(env, RegisteredId(env)).1
  }

  /** Registration did not throw (it is only attempted in clustered mode). */
  predicate Registered(env: Environment) {
    !env.clustering || env.registerReply.ok
  }

  /** Whether an action creates or starts the sharding manager, the job service or the API. */
  predicate Launches(a: Action) {
    a.CreateManager? || a.CreateJobService? || a == StartManager || a == StartApi
  }

  /** Registration succeeded and produced a non-empty assignment: `start()` goes on to the manager. */
  predicate Launched(env: Environment) {
    Registered(env) && Assignment(env).Some? && |Assignment(env).value.shardList| > 0
  }

  /** The startup up to the shard check: the log line, `register`, and the retrieval steps. */
  function Head(env: Environment): seq<Action> {
    [Info(AppStarted)]
    + (if env.clustering then [Send(RegisterRequest(env.cluster))] else [])
    + Retrieval(env, RegisteredId(env)).0
  }

  /** Once the manager is reached, the trace is the head followed by the launch. */
  lemma LaunchedTrace(env: Environment)
    requires Launched(env)
    ensures StartupTrace(env) == Head(env) + Launch(env, Assignment(env).value, RegisteredId(env))
  {
    assert StartupTrace(env) == Head(env) + Conclusion(env, Assignment(env), RegisteredId(env));
  }

  /** The three ways `start()` can end before the manager: a failed register, a failed lookup, no shards. */
  lemma StoppedTrace(env: Environment)
    requires !Launched(env)
    ensures !Registered(env) ==>
      StartupTrace(env) == [Info(AppStarted), Send(RegisterRequest(env.cluster)), Error(Unspecified)]
    ensures Registered(env) && Assignment(env).None? ==>
      StartupTrace(env) == Head(env) + [Error(RetrieveShardsFailed)]
    ensures Registered(env) && Assignment(env).Some? ==>
      StartupTrace(env) == Head(env) + [Warn(ManagerNoShards)]
  {
    if Registered(env) {
      assert StartupTrace(env) == Head(env) + Conclusion(env, Assignment(env), RegisteredId(env));
    }
  }

  /** Before the shard check nothing is launched and no `ready` request is sent. */
  lemma HeadIsQuiet(env: Environment)
    ensures forall a :: a in Head(env) ==>
      !Launches(a) && forall id :: a != Send(ReadyRequest(env.cluster, id))
  {
  }

  /** A startup that stops before the manager launches nothing and never sends `ready`. */
  lemma StoppedIsQuiet(env: Environment)
    requires !Launched(env)
    ensures forall a :: a in StartupTrace(env) ==>
      !Launches(a) && forall id :: a != Send(ReadyRequest(env.cluster, id))
  {
    StoppedTrace(env);
    HeadIsQuiet(env);
  }

  /**
   * Inside the launch: the manager gets the assignment, the job list depends
   * on the mode only, the API starts only after the manager, and `ready`
   * goes out only in clustered mode once both have started.
   */
  lemma LaunchContents(env: Environment, a: ShardAssignment, clusterId: Option<string>)
    ensures forall o :: CreateManager(o) in Launch(env, a, clusterId) ==> o == ManagerOptionsFor(env, a)
    ensures forall js :: CreateJobService(js) in Launch(env, a, clusterId) ==> js == SelectJobs(env.clustering)
    ensures StartApi in Launch(env, a, clusterId) ==> env.managerStarts
    ensures forall id :: Send(ReadyRequest(env.cluster, id)) in Launch(env, a, clusterId) ==>
      && env.clustering && env.managerStarts && env.apiStarts
      && ReadyRequest(env.cluster, id) == ReadyRequest(env.cluster, clusterId)
  {
  }

  /**
   * `ready` goes out only in clustered mode, only after a successful
   * registration and a non-empty assignment, only once both the manager and
   * the API started, and only for the id that `register` stored.
   */
  lemma ReadyRequiresLaunch(env: Environment, id: Option<string>)
    ensures Send(ReadyRequest(env.cluster, id)) in StartupTrace(env) ==>
      && Launched(env) && env.clustering && env.managerStarts && env.apiStarts
      && ReadyRequest(env.cluster, id) == ReadyRequest(env.cluster, RegisteredId(env))
      && IdText(id) == IdText(RegisteredId(env))
  {
    if Launched(env) {
      LaunchedTrace(env);
      HeadIsQuiet(env);
      LaunchContents(env, Assignment(env).value, RegisteredId(env));
    } else {
      StoppedIsQuiet(env);
    }
  }

  /**
   * When `ready` is sent, it is the last request of the startup, and it comes
   * right after the manager and then the API were started.
   */
  lemma ReadyOnlyAfterLaunch(env: Environment, id: Option<string>)
    requires Send(ReadyRequest(env.cluster, id)) in StartupTrace(env)
    ensures env.clustering && env.registerReply.ok && IdText(id) == IdText(RegisteredId(env))
    ensures exists prefix :: (StartupTrace(env) ==
      prefix + [StartManager, StartApi, Send(ReadyRequest(env.cluster, id))]
      + (if env.readyReply.ok then [] else [Error(Unspecified)]))
  {
    var rid := RegisteredId(env);
    ReadyRequiresLaunch(env, id);
    LaunchedTrace(env);
    var a := Assignment(env).value;
    LaunchEndsWithReady(env, a, rid);
    var req := ReadyRequest(env.cluster, id);
    assert req == ReadyRequest(env.cluster, rid);
    var managed := [CreateManager(ManagerOptionsFor(env, a)), CreateJobService(SelectJobs(env.clustering))];
    var failure := if env.readyReply.ok then [] else [Error(Unspecified)];
    var ending := [StartManager, StartApi, Send(req)] + failure;
    assert Launch(env, a, rid) == managed + ending;
    Reassociate(Head(env), managed, ending);
    var prefix := Head(env) + managed;
    Reassociate(prefix, [StartManager, StartApi, Send(req)], failure);
    assert StartupTrace(env) == prefix + [StartManager, StartApi, Send(req)] + failure;
  }

  lemma Reassociate<T>(a: seq<T>, b: seq<T>, c: seq<T>)
    ensures a + (b + c) == (a + b) + c
  {
  }

  /** A launch in clustered mode in which both starts succeed ends with `ready`. */
  lemma LaunchEndsWithReady(env: Environment, a: ShardAssignment, clusterId: Option<string>)
    requires env.clustering && env.managerStarts && env.apiStarts
    ensures Launch(env, a, clusterId)
      == [CreateManager(ManagerOptionsFor(env, a)), CreateJobService(SelectJobs(env.clustering))]
         + [StartManager, StartApi, Send(ReadyRequest(env.cluster, clusterId))]
         + (if env.readyReply.ok then [] else [Error(Unspecified)])
  {
  }

  /** A failed `register` is logged and ends the startup before anything else happens. */
  lemma RegisterFailureStopsStartup(env: Environment)
    requires env.clustering && !env.registerReply.ok
    ensures StartupTrace(env) == [Info(AppStarted), Send(RegisterRequest(env.cluster)), Error(Unspecified)]
  {
    StoppedTrace(env);
  }

  /**
   * A lookup that throws inside the try block is logged as the retrieval
   * failure, which is the last action: nothing is launched and `ready` is never sent.
   */
  lemma RetrievalFailureStopsStartup(env: Environment)
    requires Registered(env) && Assignment(env).None?
    ensures var t := StartupTrace(env);
      && t[|t| - 1] == Error(RetrieveShardsFailed)
      && (forall a :: a in t ==> !Launches(a))
      && (forall id :: Send(ReadyRequest(env.cluster, id)) !in t)
  {
    StoppedTrace(env);
    StoppedIsQuiet(env);
  }

  /** An empty assignment is warned about and ends the startup the same way. */
  lemma EmptyAssignmentStopsStartup(env: Environment)
    requires Registered(env) && Assignment(env).Some? && Assignment(env).value.shardList == []
    ensures var t := StartupTrace(env);
      && t[|t| - 1] == Warn(ManagerNoShards)
      && (forall a :: a in t ==> !Launches(a))
      && (forall id :: Send(ReadyRequest(env.cluster, id)) !in t)
  {
    StoppedTrace(env);
    StoppedIsQuiet(env);
  }

  /**
   * The manager is created at most with the computed assignment and the
   * configured token and mode; the job list depends only on the mode; the API
   * starts only after the manager started.
   */
  lemma LaunchUsesAssignment(env: Environment)
    ensures forall o :: CreateManager(o) in StartupTrace(env) ==>
      Launched(env) && o == ManagerOptionsFor(env, Assignment(env).value)
    ensures forall js :: CreateJobService(js) in StartupTrace(env) ==>
      Launched(env) && js == SelectJobs(env.clustering)
    ensures StartApi in StartupTrace(env) ==> Launched(env) && env.managerStarts
  {
    if Launched(env) {
      LaunchedTrace(env);
      HeadIsQuiet(env);
      LaunchContents(env, Assignment(env).value, RegisteredId(env));
    } else {
      StoppedIsQuiet(env);
    }
  }

  /** Where the assignment comes from in each mode. */
  lemma AssignmentByMode(env: Environment)
    ensures env.clustering && env.loginReply.ok && env.requiredShards.Some? ==>
      Assignment(env) == Some(ClusteredAllocation(env.loginReply.body.shardList,
                                                  env.loginReply.body.totalShards,
                                                  env.requiredShards.value))
    ensures env.clustering && !(env.loginReply.ok && env.requiredShards.Some?) ==> Assignment(env).None?
    ensures !env.clustering ==>
      Assignment(env) == if env.recommendedShards.Some? then Some(LocalAllocation(env.recommendedShards.value)) else None
  {
  }
}
