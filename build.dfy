/** `build_task` (task.py:599-721): turns each task description into the
    task definition Taskcluster receives, with the label, dependencies,
    attributes and optimization the graph needs. */
module Build {
  import opened Results
  import opened Json
  import opened Records
  import opened Text
  import opened Payloads

  const TreeherderRouteRoot := "tc-treeherder"

  /** Treeherder refuses longer group and job symbols. */
  const MaxSymbolLength := 25

  const DefaultDeadline := "1 day"

  /** `run-on-projects` when a task does not say. */
  const DefaultRunOnProjects := List([Str("all")])

  const MozAutomationVar := "MOZ_AUTOMATION"

  /** Try pushes expire after four weeks, everything else after a year. */
  function DefaultExpiry(p: Params): string {
    if p.isTry then "28 days" else "1 year"
  }

  // ----- worker type and scopes -------------------------------------------

  function LevelField(p: Params): map<string, string> {
    map["level" := p.level]
  }

  function ScopeFields(p: Params): map<string, string> {
    map["level" := p.level, "project" := p.project]
  }

  /** `worker-type` with its `{level}` filled in, split into the provisioner
      and the worker type at its first `/`. */
  function Placement(ctx: Context, t: TaskDesc): Result<(string, string)> {
    var workerType :- Format(t.workerType, LevelField(ctx.params));
    SplitOnce(workerType, '/')
  }

  /** The provisioner is what precedes the first `/` of the formatted worker
      type and the worker type what follows it; a worker type without `/` is
      an error, and a `{level}` field is replaced by the level. */
  lemma PlacementSplitsWorkerType(ctx: Context, t: TaskDesc)
    ensures var f := Format(t.workerType, LevelField(ctx.params));
            && (Placement(ctx, t).Ok? <==> f.Ok? && '/' in f.value)
            && (f.Ok? && '/' !in f.value ==> Placement(ctx, t) == Fail(NothingToSplit(f.value)))
            && (Placement(ctx, t).Ok? ==>
                  var (provisioner, workerType) := Placement(ctx, t).value;
                  f.value == provisioner + "/" + workerType && '/' !in provisioner)
  {
  }

  /** A worker type naming the level: `<lit>{level}<rest>` becomes
      `<lit><level><rest>`. */
  lemma WorkerTypeLevelFilled(ctx: Context, t: TaskDesc, lit: string, rest: string)
    requires BraceFree(lit) && BraceFree(rest) && t.workerType == FieldAfter(lit, "level", rest)
    ensures Format(t.workerType, LevelField(ctx.params)) == Ok(lit + ctx.params.level + rest)
  {
    FormatBraceFree(rest, LevelField(ctx.params));
    FormatFieldAfterOk(lit, "level", rest, LevelField(ctx.params), rest);
  }

  /** Every scope with `{level}` and `{project}` filled in, in order; the
      first scope that does not format is the error. */
  function FormattedScopes(p: Params, scopes: seq<string>): Result<seq<string>> {
    Collect(seq(|scopes|, i requires 0 <= i < |scopes| => Format(scopes[i], ScopeFields(p))))
  }

  /** The scope loop of `build_task`. */
  method FormatScopes(p: Params, scopes: seq<string>) returns (r: Result<seq<string>>)
    ensures r == FormattedScopes(p, scopes)
    ensures r.Ok? ==> |r.value| == |scopes| &&
                      forall i | 0 <= i < |scopes| :: Format(scopes[i], ScopeFields(p)) == Ok(r.value[i])
    ensures r.Fail? ==> exists k | 0 <= k < |scopes| :: Format(scopes[k], ScopeFields(p)) == Fail(r.error)
  {
    ghost var outcomes := seq(|scopes|, i requires 0 <= i < |scopes| => Format(scopes[i], ScopeFields(p)));
    var formatted: seq<string> := [];
    for i := 0 to |scopes|
      invariant |formatted| == i
      invariant forall j | 0 <= j < i :: outcomes[j] == Ok(formatted[j])
    {
      var s := Format(scopes[i], ScopeFields(p));
      if s.Fail? {
        CollectFirstFailure(outcomes, i);
        return Fail(s.error);
      }
      formatted := formatted + [s.value];
    }
    CollectAll(outcomes, formatted);
    r := Ok(formatted);
  }

  // ----- treeherder -------------------------------------------------------

  /** `tc-treeherder.v2.<project>.<head revision>.<pushlog id>`. */
  function TreeherderRoute(p: Params): string {
    TreeherderRouteRoot + ".v2." + p.project + "." + p.headRev + "." + p.pushlogId
  }

  /** The link back to the push that the description gains. */
  function PushLinkSuffix(p: Params): string {
    " ([Treeherder push](https://treeherder.mozilla.org/#/jobs?repo=" + p.project + "&revision=" + p.headRev + "))"
  }

  /** `extra` once the treeherder block has run: `treeherder-platform` is
      set unless present, and the `treeherder` mapping gains the machine
      platform, the collection, the group (unless it is `?`), the symbol, the
      job kind and the tier. */
  function Annotated(ctx: Context, t: TaskDesc, th: TreeherderSpec, extra: map<string, Value>): Result<map<string, Value>> {
    var withPlatform := if "treeherder-platform" in extra then extra else extra["treeherder-platform" := Str(th.platform)];
    var platform :- SplitOnce(th.platform, '/');
    var fields :- Nested(withPlatform, "treeherder");
    var (group, symbol) := ctx.splitSymbol(th.symbol);
    if group != "?" && group !in ctx.graph.groupNames then Fail(UnknownGroup(group, ctx.path, t.jobFrom.GetOr("")))
    else if |symbol| > MaxSymbolLength || |group| > MaxSymbolLength then Fail(SymbolTooLong(th.symbol))
    else Ok(withPlatform["treeherder" := Obj(TreeherderFields(ctx, th, fields, platform.0, platform.1))])
  }

  /** When the treeherder block fails, and with which error: a platform
      without `/` first, then an existing `treeherder` entry that is no
      mapping, then an unknown group (checked before any length), then a
      group or symbol longer than 25 characters. */
  lemma TreeherderChecks(ctx: Context, t: TaskDesc, th: TreeherderSpec, extra: map<string, Value>)
    ensures var r := Annotated(ctx, t, th, extra);
            var (group, symbol) := ctx.splitSymbol(th.symbol);
            var unknown := group != "?" && group !in ctx.graph.groupNames;
            var tooLong := |symbol| > MaxSymbolLength || |group| > MaxSymbolLength;
            && (r.Ok? <==> '/' in th.platform && Nested(extra, "treeherder").Ok? && !unknown && !tooLong)
            && ('/' !in th.platform ==> r == Fail(NothingToSplit(th.platform)))
            && ('/' in th.platform && Nested(extra, "treeherder").Fail? ==> r == Fail(NotAMapping("treeherder")))
            && ('/' in th.platform && Nested(extra, "treeherder").Ok? && unknown ==>
                  r == Fail(UnknownGroup(group, ctx.path, t.jobFrom.GetOr(""))))
            && ('/' in th.platform && Nested(extra, "treeherder").Ok? && !unknown && tooLong ==>
                  r == Fail(SymbolTooLong(th.symbol)))
  {
  }

  /** The `treeherder` mapping a successful block leaves, from what was
      there before. */
  function TreeherderFields(ctx: Context, th: TreeherderSpec, before: map<string, Value>, machine: string, collection: string)
    : map<string, Value>
  {
    var (group, symbol) := ctx.splitSymbol(th.symbol);
    var placed := before["machine" := Obj(map["platform" := Str(machine)])]
                        ["collection" := Obj(map[collection := Bool(true)])];
    var grouped := if group == "?" || group !in ctx.graph.groupNames then placed
                   else placed["groupSymbol" := Str(group)]["groupName" := Str(ctx.graph.groupNames[group])];
    grouped["symbol" := Str(symbol)]["jobKind" := Str(th.kind)]["tier" := Int(th.tier)]
  }

  /** A successful block sets `treeherder-platform` unless present, writes
      the `treeherder` mapping, and keeps every other key of `extra`. */
  lemma TreeherderExtra(ctx: Context, t: TaskDesc, th: TreeherderSpec, extra: map<string, Value>)
    requires Annotated(ctx, t, th, extra).Ok?
    ensures '/' in th.platform && Nested(extra, "treeherder").Ok?
    ensures var r := Annotated(ctx, t, th, extra).value;
            var (machine, collection) := SplitOnce(th.platform, '/').value;
            && "treeherder-platform" in r
            && r["treeherder-platform"] == (if "treeherder-platform" in extra then extra["treeherder-platform"] else Str(th.platform))
            && (forall k | k in extra && k != "treeherder" && k != "treeherder-platform" :: k in r && r[k] == extra[k])
            && "treeherder" in r
            && r["treeherder"] == Obj(TreeherderFields(ctx, th, Nested(extra, "treeherder").value, machine, collection))
  {
    var withPlatform := if "treeherder-platform" in extra then extra else extra["treeherder-platform" := Str(th.platform)];
    assert Nested(withPlatform, "treeherder") == Nested(extra, "treeherder");
  }

  /** The `treeherder` mapping: the platform split at its first `/` into
      machine platform and collection; a group other than `?` recorded with
      its configured name, while `?` adds neither key; the symbol, kind and
      tier; and whatever else the mapping held. */
  lemma TreeherderFieldsContents(ctx: Context, th: TreeherderSpec, before: map<string, Value>, machine: string, collection: string)
    ensures var f := TreeherderFields(ctx, th, before, machine, collection);
            var (group, symbol) := ctx.splitSymbol(th.symbol);
            && "machine" in f && f["machine"] == Obj(map["platform" := Str(machine)])
            && "collection" in f && f["collection"] == Obj(map[collection := Bool(true)])
            && "symbol" in f && f["symbol"] == Str(symbol)
            && "jobKind" in f && f["jobKind"] == Str(th.kind)
            && "tier" in f && f["tier"] == Int(th.tier)
            && (group != "?" && group in ctx.graph.groupNames ==>
                  "groupSymbol" in f && f["groupSymbol"] == Str(group) &&
                  "groupName" in f && f["groupName"] == Str(ctx.graph.groupNames[group]))
            && (group == "?" ==> ("groupSymbol" in f <==> "groupSymbol" in before) &&
                                 ("groupName" in f <==> "groupName" in before))
            && f.Keys == before.Keys + {"machine", "collection", "symbol", "jobKind", "tier"} +
                         (if group == "?" || group !in ctx.graph.groupNames then {} else {"groupSymbol", "groupName"})
  {
  }

  /** The treeherder block, step by step, writing into the nested mapping. */
  method AnnotateTreeherder(ctx: Context, t: TaskDesc, th: TreeherderSpec, extra: map<string, Value>)
    returns (r: Result<map<string, Value>>)
    ensures r == Annotated(ctx, t, th, extra)
  {
    var e := extra;
    if "treeherder-platform" !in e {
      e := e["treeherder-platform" := Str(th.platform)];
    }
    var platform :- SplitOnce(th.platform, '/');
    var treeherder :- Nested(e, "treeherder");
    treeherder := treeherder["machine" := Obj(map["platform" := Str(platform.0)])];
    treeherder := treeherder["collection" := Obj(map[platform.1 := Bool(true)])];
    var (group, symbol) := ctx.splitSymbol(th.symbol);
    if group != "?" {
      treeherder := treeherder["groupSymbol" := Str(group)];
      if group !in ctx.graph.groupNames {
        return Fail(UnknownGroup(group, ctx.path, t.jobFrom.GetOr("")));
      }
      treeherder := treeherder["groupName" := Str(ctx.graph.groupNames[group])];
    }
    treeherder := treeherder["symbol" := Str(symbol)];
    if |symbol| > MaxSymbolLength || |group| > MaxSymbolLength {
      return Fail(SymbolTooLong(th.symbol));
    }
    treeherder := treeherder["jobKind" := Str(th.kind)];
    treeherder := treeherder["tier" := Int(th.tier)];
    r := Ok(e["treeherder" := Obj(treeherder)]);
  }

  // ----- the draft task definition ----------------------------------------

  /** The tags after `tags.update(...)`: the three keys are overwritten. */
  function Tagged(ctx: Context, tags: map<string, string>, taskLabel: string): map<string, string> {
    tags["createdForUser" := ctx.params.owner]["kind" := ctx.kind]["label" := taskLabel]
  }

  lemma TagsOverwritten(ctx: Context, tags: map<string, string>, taskLabel: string)
    ensures var r := Tagged(ctx, tags, taskLabel);
            && r.Keys == tags.Keys + {"createdForUser", "kind", "label"}
            && r["createdForUser"] == ctx.params.owner && r["kind"] == ctx.kind && r["label"] == taskLabel
            && forall k | k in tags && k !in {"createdForUser", "kind", "label"} :: r[k] == tags[k]
  {
  }

  /** What the first half of `build_task` computes from a task alone: the
      provisioner and worker type, the formatted scopes, `extra` with the
      parent task and the treeherder block, and the routes. */
  datatype Prep = Prep(provisionerId: string, workerType: string, scopes: seq<string>,
                       extra: map<string, Value>, routes: seq<string>)

  function Prepared(ctx: Context, t: TaskDesc): Result<Prep> {
    var placed :- Placement(ctx, t);
    var scopes :- FormattedScopes(ctx.params, t.scopes);
    var parented := t.extra["parent" := Str(ctx.parentTaskId)];
    var extra :- if t.treeherder.Some? then Annotated(ctx, t, t.treeherder.value, parented) else Ok(parented);
    var routes := if t.treeherder.Some? then t.routes + [TreeherderRoute(ctx.params)] else t.routes;
    Ok(Prep(placed.0, placed.1, scopes, extra, routes))
  }

  /** The first half, step by step. */
  method Prepare(ctx: Context, task: TaskDesc) returns (r: Result<Prep>)
    ensures r == Prepared(ctx, task)
  {
    var workerType :- Format(task.workerType, LevelField(ctx.params));
    var placed :- SplitOnce(workerType, '/');
    var scopes :- FormatScopes(ctx.params, task.scopes);
    var extra := task.extra["parent" := Str(ctx.parentTaskId)];
    var routes := task.routes;
    if task.treeherder.Some? {
      extra :- AnnotateTreeherder(ctx, task, task.treeherder.value, extra);
      routes := routes + [TreeherderRoute(ctx.params)];
    }
    r := Ok(Prep(placed.0, placed.1, scopes, extra, routes));
  }

  /** A task as the payload builder sees it (routes, extra and tags
      updated, the three defaults filled in) and a task definition, whose
      payload the builder has yet to set. */
  function Drafted(ctx: Context, t: TaskDesc): Result<(TaskDesc, TaskDef)> {
    var prep :- Prepared(ctx, t);
    var expires := t.expiresAfter.GetOr(DefaultExpiry(ctx.params));
    var deadline := t.deadlineAfter.GetOr(DefaultDeadline);
    var priority := t.priority.GetOr(ctx.defaultPriority);
    var taskLabel :- if t.taskLabel.Some? then Ok(t.taskLabel.value) else Fail(MissingKey("label"));
    var tags := Tagged(ctx, t.tags, taskLabel);
    var description := if t.treeherder.Some? then t.description + PushLinkSuffix(ctx.params) else t.description;
    Ok((t.(routes := prep.routes, extra := prep.extra, tags := tags, expiresAfter := Some(expires),
           deadlineAfter := Some(deadline), priority := Some(priority)),
        TaskDef(prep.provisionerId, prep.workerType, prep.routes, "0 seconds", deadline, expires, prep.scopes,
                Metadata(description, taskLabel, ctx.params.owner, ctx.sourceUrl),
                prep.extra, tags, priority, t.requirement, EmptyPayload)))
  }

  /** The defaults, the tags and a task definition. */
  method DraftTask(ctx: Context, task: TaskDesc) returns (r: Result<(TaskDesc, TaskDef)>)
    ensures r == Drafted(ctx, task)
  {
    var prep :- Prepare(ctx, task);
    var expires := DefaultExpiry(ctx.params);
    if task.expiresAfter.Some? {
      expires := task.expiresAfter.value;
    }
    var deadline := DefaultDeadline;
    if task.deadlineAfter.Some? {
      deadline := task.deadlineAfter.value;
    }
    var priority := ctx.defaultPriority;
    if task.priority.Some? {
      priority := task.priority.value;
    }
    if task.taskLabel.None? {
      return Fail(MissingKey("label"));
    }
    var taskLabel := task.taskLabel.value;
    var tags := Tagged(ctx, task.tags, taskLabel);
    var description := task.description;
    if task.treeherder.Some? {
      description := description + PushLinkSuffix(ctx.params);
    }
    var t := task.(routes := prep.routes, extra := prep.extra, tags := tags, expiresAfter := Some(expires),
                   deadlineAfter := Some(deadline), priority := Some(priority));
    var def := TaskDef(prep.provisionerId, prep.workerType, prep.routes, "0 seconds", deadline, expires, prep.scopes,
                       Metadata(description, taskLabel, ctx.params.owner, ctx.sourceUrl),
                       prep.extra, tags, priority, task.requirement, EmptyPayload);
    r := Ok((t, def));
  }

  // ----- the payload ------------------------------------------------------

  /** What the payload builder leaves behind: the payload, a task
      definition's scopes and a task's dependencies. */
  datatype Dispatch = Dispatch(payload: Payload, scopes: seq<string>, dependencies: map<string, string>)

  /** `payload_builders[implementation](config, task, task_def)`: the three
      builders of this file, or one registered elsewhere, or a KeyError. */
  function Dispatched(ctx: Context, t: TaskDesc, scopes: seq<string>, expires: string): Result<Dispatch> {
    match t.worker
    case DockerWorker(_) =>
      var b :- DockerBuilt(ctx, t, scopes, expires);
      Ok(Dispatch(Docker(b.payload), b.scopes, b.dependencies))
    case InvalidWorker => Ok(Dispatch(TextPayload(InvalidPayloadText), scopes, t.dependencies))
    case AlwaysOptimizedWorker => Ok(Dispatch(EmptyPayload, scopes, t.dependencies))
    case _ =>
      var name := Implementation(t.worker);
      if name in ctx.externalBuilders then
        var e :- ctx.externalBuilders[name](t);
        Ok(Dispatch(External(e.fields), scopes + e.scopes, t.dependencies))
      else Fail(UnknownImplementation(name))
  }

  /** The builder call, looked up by implementation name. */
  method AttachPayload(ctx: Context, t: TaskDesc, scopes: seq<string>, expires: string) returns (r: Result<Dispatch>)
    ensures r == Dispatched(ctx, t, scopes, expires)
  {
    var name := Implementation(t.worker);
    RegistryMatchesWorker(t.worker);
    if name in PayloadBuilders {
      match PayloadBuilders[name]
      case DockerWorkerBuilder =>
        var b :- BuildDockerWorkerPayload(ctx, t, scopes, expires);
        r := Ok(Dispatch(Docker(b.payload), b.scopes, b.dependencies));
      case InvalidBuilder =>
        r := Ok(Dispatch(TextPayload(InvalidPayloadText), scopes, t.dependencies));
      case AlwaysOptimizedBuilder =>
        r := Ok(Dispatch(EmptyPayload, scopes, t.dependencies));
    } else if name in ctx.externalBuilders {
      var e :- ctx.externalBuilders[name](t);
      r := Ok(Dispatch(External(e.fields), scopes + e.scopes, t.dependencies));
    } else {
      r := Fail(UnknownImplementation(name));
    }
  }

  /** `MOZ_AUTOMATION=1` in the environment of a docker-worker or
      generic-worker payload, when the payload is truthy. */
  function Automated(w: Worker, p: Payload): Result<Payload> {
    if !(w.DockerWorker? || w.GenericWorker?) then Ok(p)
    else
      match p
      case Docker(d) => Ok(Docker(d.(env := d.env[MozAutomationVar := Str("1")])))
      case External(fields) =>
        if fields == map[] then Ok(p)
        else
          var updated :- UpdateNested(fields, "env", map[MozAutomationVar := Str("1")]);
          Ok(External(updated))
      case TextPayload(text) => if text == "" then Ok(p) else Fail(NotAMapping("payload"))
      case EmptyPayload => Ok(p)
  }

  // ----- attributes -------------------------------------------------------

  function BuildPlatform(attributes: map<string, Value>): Option<Value> {
    if "build_platform" in attributes then Some(attributes["build_platform"]) else None
  }

  /** The attributes gain `run_on_projects`, resolved against the build
      platform or `['all']` when a task has none, and `always_target`. */
  function Attributed(ctx: Context, t: TaskDesc): Result<map<string, Value>> {
    var runOn :- if t.runOnProjects.Some? then ctx.resolveRunOnProjects(t.runOnProjects.value, BuildPlatform(t.attributes))
                 else Ok(DefaultRunOnProjects);
    var always :- if t.alwaysTarget.Some? then Ok(Bool(t.alwaysTarget.value)) else Fail(MissingKey("always-target"));
    Ok(t.attributes["run_on_projects" := runOn]["always_target" := always])
  }

  // ----- build_task -------------------------------------------------------

  /** One record through `build_task`. */
  function TaskBuilt(ctx: Context, t: TaskDesc): Result<TaskOut> {
    var drafted :- Drafted(ctx, t);
    var def := drafted.1;
    var d :- Dispatched(ctx, drafted.0, def.scopes, def.expires);
    var attributes :- Attributed(ctx, t);
    var payload :- Automated(t.worker, d.payload);
    Ok(TaskOut(def.metadata.name, def.(scopes := d.scopes, payload := payload), d.dependencies, attributes,
               t.optimization.GetOr(Null)))
  }

  /** `build_task`, one record at a time. */
  method BuildTask(ctx: Context, task: TaskDesc) returns (r: Result<TaskOut>)
    ensures r == TaskBuilt(ctx, task)
  {
    var drafted :- DraftTask(ctx, task);
    var (t, def) := drafted;
    var dispatched :- AttachPayload(ctx, t, def.scopes, def.expires);
    def := def.(scopes := dispatched.scopes, payload := dispatched.payload);
    var attributes := task.attributes;
    var runOn := DefaultRunOnProjects;
    if task.runOnProjects.Some? {
      runOn :- ctx.resolveRunOnProjects(task.runOnProjects.value, BuildPlatform(attributes));
    }
    attributes := attributes["run_on_projects" := runOn];
    if task.alwaysTarget.None? {
      return Fail(MissingKey("always-target"));
    }
    attributes := attributes["always_target" := Bool(task.alwaysTarget.value)];
    if task.worker.DockerWorker? || task.worker.GenericWorker? {
      match def.payload
      case Docker(d) =>
        def := def.(payload := Docker(d.(env := d.env[MozAutomationVar := Str("1")])));
      case External(fields) =>
        if fields != map[] {
          var updated :- UpdateNested(fields, "env", map[MozAutomationVar := Str("1")]);
          def := def.(payload := External(updated));
        }
      case TextPayload(text) =>
        if text != "" {
          return Fail(NotAMapping("payload"));
        }
      case EmptyPayload =>
    }
    r := Ok(TaskOut(def.metadata.name, def, dispatched.dependencies, attributes, task.optimization.GetOr(Null)));
  }

  // ----- what build_task promises -----------------------------------------

  /** A task definition of a built task: the label names it; the worker
      type is split at its first `/`; exactly one treeherder route is added
      when a task has treeherder details; `created` is now; expiry,
      deadline and priority are a task's own or the defaults; the three
      tags are overwritten; the description links back to the push when
      treeherder details are given. */
  lemma BuiltDefinition(ctx: Context, t: TaskDesc)
    requires TaskBuilt(ctx, t).Ok?
    ensures var o := TaskBuilt(ctx, t).value;
            var d := o.task;
            && t.taskLabel == Some(o.taskLabel)
            && Format(t.workerType, LevelField(ctx.params)) == Ok(d.provisionerId + "/" + d.workerType)
            && '/' !in d.provisionerId
            && d.routes == t.routes + (if t.treeherder.Some? then [TreeherderRoute(ctx.params)] else [])
            && d.created == "0 seconds"
            && d.expires == (if t.expiresAfter.Some? then t.expiresAfter.value
                             else if ctx.params.isTry then "28 days" else "1 year")
            && d.deadline == (if t.deadlineAfter.Some? then t.deadlineAfter.value else "1 day")
            && d.priority == (if t.priority.Some? then t.priority.value else ctx.defaultPriority)
            && d.tags == Tagged(ctx, t.tags, o.taskLabel)
            && d.metadata.name == o.taskLabel && d.metadata.owner == ctx.params.owner
            && d.metadata.source == ctx.sourceUrl
            && d.metadata.description == t.description + (if t.treeherder.Some? then PushLinkSuffix(ctx.params) else "")
            && d.requirement == t.requirement
            && o.optimization == (if t.optimization.Some? then t.optimization.value else Null)
  {
    BuiltFromDrafted(ctx, t);
    DraftedDefinition(ctx, t);
    PlacementSplitsWorkerType(ctx, t);
  }

  /** A built task is its draft with the builder's scopes and payload. */
  lemma BuiltFromDrafted(ctx: Context, t: TaskDesc)
    requires TaskBuilt(ctx, t).Ok?
    ensures Drafted(ctx, t).Ok?
    ensures var o, def := TaskBuilt(ctx, t).value, Drafted(ctx, t).value.1;
            && o.task == def.(scopes := o.task.scopes, payload := o.task.payload)
            && o.taskLabel == def.metadata.name
            && o.optimization == t.optimization.GetOr(Null)
  {
  }

  /** The draft's placement, formatted scopes, routes, times, tags and metadata. */
  lemma DraftedDefinition(ctx: Context, t: TaskDesc)
    requires Drafted(ctx, t).Ok?
    ensures Placement(ctx, t).Ok?
    ensures FormattedScopes(ctx.params, t.scopes).Ok?
    ensures var d := Drafted(ctx, t).value.1;
            && t.taskLabel == Some(d.metadata.name)
            && d.scopes == FormattedScopes(ctx.params, t.scopes).value
            && (d.provisionerId, d.workerType) == Placement(ctx, t).value
            && d.routes == t.routes + (if t.treeherder.Some? then [TreeherderRoute(ctx.params)] else [])
            && d.created == "0 seconds"
            && d.expires == (if t.expiresAfter.Some? then t.expiresAfter.value
                             else if ctx.params.isTry then "28 days" else "1 year")
            && d.deadline == (if t.deadlineAfter.Some? then t.deadlineAfter.value else "1 day")
            && d.priority == (if t.priority.Some? then t.priority.value else ctx.defaultPriority)
            && d.tags == Tagged(ctx, t.tags, d.metadata.name)
            && d.metadata.owner == ctx.params.owner && d.metadata.source == ctx.sourceUrl
            && d.metadata.description == t.description + (if t.treeherder.Some? then PushLinkSuffix(ctx.params) else "")
            && d.requirement == t.requirement
  {
    assert Prepared(ctx, t).Ok?;
  }

  /** `extra` records the parent task, then the treeherder block's work. */
  lemma BuiltExtra(ctx: Context, t: TaskDesc)
    requires TaskBuilt(ctx, t).Ok?
    ensures var e := TaskBuilt(ctx, t).value.task.extra;
            var parented := t.extra["parent" := Str(ctx.parentTaskId)];
            && "parent" in e && e["parent"] == Str(ctx.parentTaskId)
            && (t.treeherder.None? ==> e == parented)
            && (t.treeherder.Some? ==> Annotated(ctx, t, t.treeherder.value, parented) == Ok(e))
  {
    BuiltFromPrepared(ctx, t);
    PreparedExtra(ctx, t);
  }

  lemma BuiltFromPrepared(ctx: Context, t: TaskDesc)
    requires TaskBuilt(ctx, t).Ok?
    ensures Prepared(ctx, t).Ok? && TaskBuilt(ctx, t).value.task.extra == Prepared(ctx, t).value.extra
  {
  }

  lemma PreparedExtra(ctx: Context, t: TaskDesc)
    requires Prepared(ctx, t).Ok?
    ensures var e := Prepared(ctx, t).value.extra;
            var parented := t.extra["parent" := Str(ctx.parentTaskId)];
            && "parent" in e && e["parent"] == Str(ctx.parentTaskId)
            && (t.treeherder.None? ==> e == parented)
            && (t.treeherder.Some? ==> Annotated(ctx, t, t.treeherder.value, parented) == Ok(e))
  {
    var parented := t.extra["parent" := Str(ctx.parentTaskId)];
    if t.treeherder.Some? {
      TreeherderExtra(ctx, t, t.treeherder.value, parented);
    }
  }

  /** The attributes gain `run_on_projects` (`['all']` unless a task says,
      otherwise resolved against the build platform) and `always_target`;
      every other attribute is kept. */
  lemma BuiltAttributes(ctx: Context, t: TaskDesc)
    requires TaskBuilt(ctx, t).Ok?
    ensures var a := TaskBuilt(ctx, t).value.attributes;
            && "run_on_projects" in a
            && (t.runOnProjects.None? ==> a["run_on_projects"] == List([Str("all")]))
            && (t.runOnProjects.Some? ==>
                  ctx.resolveRunOnProjects(t.runOnProjects.value, BuildPlatform(t.attributes)) == Ok(a["run_on_projects"]))
            && t.alwaysTarget.Some? && "always_target" in a && a["always_target"] == Bool(t.alwaysTarget.value)
            && a.Keys == t.attributes.Keys + {"run_on_projects", "always_target"}
            && forall k | k in t.attributes && k != "run_on_projects" && k != "always_target" :: a[k] == t.attributes[k]
  {
    assert Attributed(ctx, t).Ok?;
    assert TaskBuilt(ctx, t).value.attributes == Attributed(ctx, t).value;
  }

  /** The payload is the one the implementation's builder produces: the
      docker-worker's (whose dependencies and scopes it also sets) with
      `MOZ_AUTOMATION=1`, the invalid text, or an empty payload; the scopes of
      every other builder of this file are the formatted ones. A builder
      registered elsewhere keeps its own payload and appends its scopes; only
      a non-empty generic-worker payload gains `MOZ_AUTOMATION=1` in its
      `env`. */
  lemma BuiltPayload(ctx: Context, t: TaskDesc)
    requires TaskBuilt(ctx, t).Ok?
    ensures var o := TaskBuilt(ctx, t).value;
            var drafted := Drafted(ctx, t).value;
            && (t.worker.DockerWorker? ==>
                  var b := DockerBuilt(ctx, drafted.0, drafted.1.scopes, drafted.1.expires).value;
                  && o.task.payload == Docker(b.payload.(env := b.payload.env[MozAutomationVar := Str("1")]))
                  && o.task.scopes == b.scopes && o.dependencies == b.dependencies)
            && (t.worker.InvalidWorker? ==>
                  o.task.payload == TextPayload(InvalidPayloadText) && o.task.scopes == drafted.1.scopes &&
                  o.dependencies == t.dependencies)
            && (t.worker.AlwaysOptimizedWorker? ==>
                  o.task.payload == EmptyPayload && o.task.scopes == drafted.1.scopes && o.dependencies == t.dependencies)
            && (t.worker.GenericWorker? ==>
                  o.task.payload.External? && o.dependencies == t.dependencies &&
                  (o.task.payload.fields != map[] ==>
                     "env" in o.task.payload.fields && o.task.payload.fields["env"].Obj? &&
                     MozAutomationVar in o.task.payload.fields["env"].fields &&
                     o.task.payload.fields["env"].fields[MozAutomationVar] == Str("1")))
            && (!t.worker.DockerWorker? && !t.worker.InvalidWorker? && !t.worker.AlwaysOptimizedWorker? ==>
                  var name := Implementation(t.worker);
                  && name in ctx.externalBuilders
                  && ctx.externalBuilders[name](drafted.0).Ok?
                  && var e := ctx.externalBuilders[name](drafted.0).value;
                  && o.task.scopes == drafted.1.scopes + e.scopes
                  && o.task.payload ==
                       if t.worker.GenericWorker? && e.fields != map[]
                       then External(UpdateNested(e.fields, "env", map[MozAutomationVar := Str("1")]).value)
                       else External(e.fields))
  {
  }

  /** A task whose implementation no builder is registered for is refused
      once its definition is drafted. */
  lemma UnregisteredImplementationFails(ctx: Context, t: TaskDesc)
    requires Drafted(ctx, t).Ok?
    requires Implementation(t.worker) !in PayloadBuilders && Implementation(t.worker) !in ctx.externalBuilders
    ensures TaskBuilt(ctx, t) == Fail(UnknownImplementation(Implementation(t.worker)))
  {
    RegistryMatchesWorker(t.worker);
  }
}
