/** The `validate` stage of task.py: a task-description schema and the
    lookup of the payload builder by implementation name. Most of the schema
    is carried by the `TaskDesc` datatype itself (key types, the two
    `requires` values, the three rank forms); `WellFormed` states the rest. */
module Validation {
  import opened Results
  import opened Records
  import opened Defaults
  import opened Payloads
  import opened Build

  /** The values the schema allows for `treeherder.kind`. */
  const TreeherderKinds: set<string> := {"build", "test", "other"}

  /** The index type the schema allows. */
  const GenericIndexType := "generic"

  /** What the task-description schema demands beyond the datatype: the
      required keys are present, the treeherder kind is one of three and the
      index type, when given, is `generic`. The schema allows no keys beyond
      its own list (only `worker` admits extra keys), and that list has
      neither `name` nor `priority`. */
  predicate WellFormed(t: TaskDesc) {
    && t.name.None?
    && t.priority.None?
    && t.taskLabel.Some?
    && t.alwaysTarget.Some?
    && t.optimization.Some?
    && t.needsSccache.Some?
    && (t.treeherder.Some? ==> t.treeherder.value.kind in TreeherderKinds)
    && (t.index.Some? && t.index.value.indexType.Some? ==> t.index.value.indexType.value == GenericIndexType)
  }

  /** A payload builder is registered under the worker's implementation name,
      either by this file or by a module outside it. */
  predicate HasBuilder(ctx: Context, w: Worker) {
    Implementation(w) in PayloadBuilders || Implementation(w) in ctx.externalBuilders
  }

  /** `validate`: the schema check, then the registry lookup that raises a
      KeyError for an implementation nobody registered; a valid record passes
      unchanged. */
  function Validated(ctx: Context, t: TaskDesc): (r: Result<TaskDesc>)
    ensures r.Ok? <==> WellFormed(t) && HasBuilder(ctx, t.worker)
    ensures r.Ok? ==> r.value == t
    ensures !WellFormed(t) ==> r == Fail(SchemaViolation(t.taskLabel.GetOr("?no-label?")))
    ensures WellFormed(t) && !HasBuilder(ctx, t.worker) ==> r == Fail(UnknownImplementation(Implementation(t.worker)))
  {
    if !WellFormed(t) then Fail(SchemaViolation(t.taskLabel.GetOr("?no-label?")))
    else if !HasBuilder(ctx, t.worker) then Fail(UnknownImplementation(Implementation(t.worker)))
    else Ok(t)
  }

  /** The keys the schema requires are ones the two stages before it always
      fill: after `set_defaults` and `task_name_from_label` a record fails
      validation only on a `priority` key, a falsy `name` that was kept, its
      treeherder kind, its index type or an unregistered implementation. */
  lemma EarlierStagesFillRequiredKeys(ctx: Context, t: TaskDesc)
    requires Defaulted(t).Ok? && Named(ctx.kind, Defaulted(t).value).Ok?
    ensures var n := Named(ctx.kind, Defaulted(t).value).value;
            Validated(ctx, n).Ok? <==>
              && t.priority.None?
              && (t.name.None? || t.name.value != "")
              && (n.treeherder.Some? ==> n.treeherder.value.kind in TreeherderKinds)
              && (n.index.Some? && n.index.value.indexType.Some? ==> n.index.value.indexType.value == GenericIndexType)
              && HasBuilder(ctx, t.worker)
  {
    var d := Defaulted(t).value;
    assert d.alwaysTarget.Some? && d.optimization.Some? && d.needsSccache.Some?;
    assert d.name == t.name && d.priority == t.priority;
    assert Implementation(d.worker) == Implementation(t.worker);
  }

  /** A valid record carries no `priority`, so `build_task` always gives it
      the project's default priority. */
  lemma ValidRecordGetsDefaultPriority(ctx: Context, t: TaskDesc)
    requires Validated(ctx, t).Ok? && TaskBuilt(ctx, t).Ok?
    ensures TaskBuilt(ctx, t).value.task.priority == ctx.defaultPriority
  {
    BuiltDefinition(ctx, t);
  }

  /** Once a record is valid, building its payload never meets the
      registry's KeyError: the dispatch fails only inside a builder. */
  lemma ValidRecordHasBuilder(ctx: Context, t: TaskDesc, scopes: seq<string>, expires: string)
    requires Validated(ctx, t).Ok?
    ensures Dispatched(ctx, t, scopes, expires).Fail? ==>
              t.worker.DockerWorker? || Implementation(t.worker) in ctx.externalBuilders
  {
    RegistryMatchesWorker(t.worker);
  }
}
