/** The records the transforms of src/taskgraph/transforms/task.py pass along:
    a task description they enrich, the worker sub-record (a tagged union over
    `implementation`), a task definition they build, and the read-only
    context of a run (parameters, graph config, and the values the stages read
    from the environment or from code outside this model). */
module Records {
  import opened Results
  import opened Json

  // ----- worker implementations -------------------------------------------

  const DockerWorkerName := "docker-worker"
  const GenericWorkerName := "generic-worker"
  const InvalidName := "invalid"
  const AlwaysOptimizedName := "always-optimized"
  const PushApkName := "push-apk"

  datatype ScriptKind = ScriptworkerSigning | Beetmover | BeetmoverPushToRelease | BeetmoverMaven

  function ScriptKindName(k: ScriptKind): string {
    match k
    case ScriptworkerSigning => "scriptworker-signing"
    case Beetmover => "beetmover"
    case BeetmoverPushToRelease => "beetmover-push-to-release"
    case BeetmoverMaven => "beetmover-maven"
  }

  /** The implementation names `set_defaults` treats specially. */
  const KnownImplementations: set<string> :=
    {DockerWorkerName, GenericWorkerName, InvalidName, AlwaysOptimizedName, PushApkName,
     "scriptworker-signing", "beetmover", "beetmover-push-to-release", "beetmover-maven"}

  /** Any other implementation name. */
  type OtherImplementation = s: string | s !in KnownImplementations witness ""

  /** One entry of a docker-worker's `caches` list. */
  datatype CacheSpec = CacheSpec(cacheType: string, name: string, mountPoint: string, skipUntrusted: Option<bool>)

  /** One entry of a docker-worker's `artifacts` list. */
  datatype ArtifactSpec = ArtifactSpec(artifactType: string, path: string, name: string)

  /** The docker-worker fields the transforms read; an absent key is `None`. */
  datatype DockerSpec = DockerSpec(
    image: Option<Value>,
    relengapiProxy: Option<bool>,
    chainOfTrust: Option<bool>,
    taskclusterProxy: Option<bool>,
    allowPtrace: Option<bool>,
    loopbackVideo: Option<bool>,
    loopbackAudio: Option<bool>,
    dockerInDocker: Option<bool>,
    privileged: Option<bool>,
    caches: Option<seq<CacheSpec>>,
    artifacts: Option<seq<ArtifactSpec>>,
    env: Option<map<string, Value>>,
    command: Option<seq<Value>>,
    maxRunTime: Option<int>,
    retryExitStatus: Option<seq<int>>,
    purgeCachesExitStatus: Option<seq<int>>)

  /** The `worker` sub-record, tagged by its `implementation`. */
  datatype Worker =
    | DockerWorker(docker: DockerSpec)
    | GenericWorker(os: Option<string>, env: Option<map<string, Value>>,
                    osGroups: Option<seq<string>>, chainOfTrust: Option<bool>)
    | ScriptWorker(kind: ScriptKind, maxRunTime: Option<int>)
    | PushApk(commit: Option<bool>)
    | InvalidWorker
    | AlwaysOptimizedWorker
    | OtherWorker(implementation: OtherImplementation)

  /** `worker['implementation']`. */
  function Implementation(w: Worker): string {
    match w
    case DockerWorker(_) => DockerWorkerName
    case GenericWorker(_, _, _, _) => GenericWorkerName
    case ScriptWorker(k, _) => ScriptKindName(k)
    case PushApk(_) => PushApkName
    case InvalidWorker => InvalidName
    case AlwaysOptimizedWorker => AlwaysOptimizedName
    case OtherWorker(name) => name
  }

  // ----- a task description ---------------------------------------------

  datatype TreeherderSpec = TreeherderSpec(symbol: string, kind: string, tier: int, platform: string)

  /** `index.rank`: 'by-tier', 'build_date' or an integer. */
  datatype Rank = ByTier | ByBuildDate | Fixed(n: int)

  datatype IndexSpec = IndexSpec(product: string, jobName: string, indexType: Option<string>, rank: Option<Rank>)

  datatype Requires = AllCompleted | AllResolved

  /** A task description. Keys the stages fill with a default are `Option`s;
      `attributes`, `dependencies`, `routes`, `scopes`, `tags` and `extra`,
      which every stage reads with an empty default, are plain collections. */
  datatype TaskDesc = TaskDesc(
    taskLabel: Option<string>,
    name: Option<string>,
    description: string,
    attributes: map<string, Value>,
    jobFrom: Option<string>,
    dependencies: map<string, string>,
    requirement: Option<Requires>,
    expiresAfter: Option<string>,
    deadlineAfter: Option<string>,
    routes: seq<string>,
    scopes: seq<string>,
    tags: map<string, string>,
    extra: map<string, Value>,
    treeherder: Option<TreeherderSpec>,
    index: Option<IndexSpec>,
    runOnProjects: Option<Value>,
    alwaysTarget: Option<bool>,
    optimization: Option<Value>,
    priority: Option<Value>,
    workerType: string,
    needsSccache: Option<bool>,
    worker: Worker)

  // ----- a task definition ----------------------------------------------

  datatype ArtifactOut = ArtifactOut(path: string, artifactType: string, expires: string)

  datatype ExitStatus = ExitStatus(retry: Option<seq<int>>, purgeCaches: Option<seq<int>>)

  /** `payload['capabilities']`: the loopback devices switched on and the
      privileged flag; the payload carries the key only when one is set. */
  datatype Capabilities = Capabilities(devices: set<string>, privileged: bool)

  /** A docker-worker payload. `features` holds the names whose value is True;
      the payload carries the key only when the set is non-empty. */
  datatype DockerPayload = DockerPayload(
    image: Value,
    env: map<string, Value>,
    command: Option<seq<Value>>,
    maxRunTime: Option<int>,
    onExitStatus: ExitStatus,
    artifacts: Option<map<string, ArtifactOut>>,
    cache: Option<map<string, string>>,
    features: set<string>,
    capabilities: Capabilities)

  /** `task_def['payload']`: a string for `invalid`, `{}` for `always-optimized`,
      the docker-worker payload, or the dict a builder registered outside this
      file produced. */
  datatype Payload =
    | TextPayload(text: string)
    | EmptyPayload
    | Docker(docker: DockerPayload)
    | External(fields: map<string, Value>)

  /** What a payload builder registered outside this file contributes: the
      payload and the scopes it appends. */
  datatype ExternalPayload = ExternalPayload(fields: map<string, Value>, scopes: seq<string>)

  datatype Metadata = Metadata(description: string, name: string, owner: string, source: string)

  /** A task definition; `created`, `deadline` and `expires` are the strings
      under their `relative-datestamp` key. */
  datatype TaskDef = TaskDef(
    provisionerId: string,
    workerType: string,
    routes: seq<string>,
    created: string,
    deadline: string,
    expires: string,
    scopes: seq<string>,
    metadata: Metadata,
    extra: map<string, Value>,
    tags: map<string, string>,
    priority: Value,
    requirement: Option<Requires>,
    payload: Payload)

  /** What `build_task` yields for each task. */
  datatype TaskOut = TaskOut(
    taskLabel: string,
    task: TaskDef,
    dependencies: map<string, string>,
    attributes: map<string, Value>,
    optimization: Value)

  // ----- the context of a run ---------------------------------------------

  /** The parameters the stages read; `level` is the string the parameters hold. */
  datatype Params = Params(
    level: string,
    project: string,
    owner: string,
    buildDate: int,
    pushlogId: string,
    headRev: string,
    isTry: bool)

  datatype GraphConfig = GraphConfig(
    trustDomain: string,
    groupNames: map<string, string>,
    indexProducts: set<string>)

  /** `config` plus what the stages take from outside: the root URL, the
      `TASK_ID` environment variable ("" when unset), `params.file_url(path)`,
      the project's default priority, `time.strftime` of the build date, the
      treeherder symbol splitter, keyed-by resolution of `run-on-projects`
      against a build platform (absent when the attribute is missing), and the
      payload builders that modules outside this file register, by
      implementation name, and the package's dependency ceiling
      `MAX_DEPENDENCIES`, which is defined outside this file. */
  datatype Context = Context(
    kind: string,
    path: string,
    params: Params,
    graph: GraphConfig,
    rootUrl: string,
    parentTaskId: string,
    sourceUrl: string,
    defaultPriority: Value,
    buildDateLong: int -> string,
    splitSymbol: string -> (string, string),
    resolveRunOnProjects: (Value, Option<Value>) -> Result<Value>,
    externalBuilders: map<string, TaskDesc -> Result<ExternalPayload>>,
    maxDependencies: nat)
}
