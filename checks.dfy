/** The last three stages: `chain_of_trust` (task.py:724-734) points the
    chain-of-trust inputs at the image-building task, `check_task_identifiers`
    (task.py:737-749) and `check_task_dependencies` (task.py:752-761) refuse
    malformed task definitions. */
module Checks {
  import opened Results
  import opened Json
  import opened Records
  import opened Text
  import opened Payloads
  import opened Build

  // ----- chain_of_trust ---------------------------------------------------

  /** `payload.get('features', {}).get('chainOfTrust')` is truthy, as
      written: the string payload of an `invalid` task has no `get`. */
  function CotRequestedAsWritten(p: Payload): Result<bool> {
    match p
    case TextPayload(_) => Fail(NotAMapping("payload"))
    case _ => CotRequested(p)
  }

  /** The same question, answered "no" for a payload that is not a mapping
      at all; a `features` entry that is no mapping still cannot be asked. */
  function CotRequested(p: Payload): Result<bool> {
    match p
    case TextPayload(_) => Ok(false)
    case EmptyPayload => Ok(false)
    case Docker(d) => Ok("chainOfTrust" in d.features)
    case External(fields) =>
      if "features" !in fields then Ok(false)
      else
        match fields["features"]
        case Obj(f) => Ok("chainOfTrust" in f && Truthy(f["chainOfTrust"]))
        case _ => Fail(NotAMapping("features"))
  }

  /** `{'task-reference': '<docker-image>'}`. */
  function DockerImageInput(): Value {
    Obj(map["task-reference" := Str(DockerImageReference)])
  }

  /** A task has a truthy `docker-image` dependency. */
  predicate HasImageDependency(deps: map<string, string>) {
    DockerImageDependency in deps && deps[DockerImageDependency] != ""
  }

  /** `extra.setdefault('chainOfTrust', {}).setdefault('inputs', {})['docker-image'] = ...`. */
  function Attested(extra: map<string, Value>): Result<map<string, Value>> {
    var cot :- Nested(extra, "chainOfTrust");
    var inputs :- Nested(cot, "inputs");
    Ok(extra["chainOfTrust" := Obj(cot["inputs" := Obj(inputs[DockerImageDependency := DockerImageInput()])])])
  }

  /** The input entry is written when chain of trust was asked for and a task
      depends on an image. */
  function WithChainOfTrust(o: TaskOut, requested: bool): Result<TaskOut> {
    if requested && HasImageDependency(o.dependencies) then
      var extra :- Attested(o.task.extra);
      Ok(o.(task := o.task.(extra := extra)))
    else Ok(o)
  }

  /** `chain_of_trust` on one task, as the source has it. */
  function ChainOfTrustAsWritten(o: TaskOut): Result<TaskOut> {
    var requested :- CotRequestedAsWritten(o.task.payload);
    WithChainOfTrust(o, requested)
  }

  /** `chain_of_trust` on one task, passing string payloads through. */
  function ChainOfTrust(o: TaskOut): Result<TaskOut> {
    var requested :- CotRequested(o.task.payload);
    WithChainOfTrust(o, requested)
  }

  /** The stage fails only on a `features`, `chainOfTrust` or `inputs` entry
      that is no mapping; otherwise it changes nothing but `extra`, and
      `extra` only when chain of trust is on and an image dependency exists:
      then the `docker-image` input points at that dependency and every other
      entry of `extra`, of its `chainOfTrust` and of the inputs is kept. */
  lemma ChainOfTrustEffect(o: TaskOut)
    ensures var r := ChainOfTrust(o);
            var requested := CotRequested(o.task.payload);
            var writes := requested == Ok(true) && HasImageDependency(o.dependencies);
            && (r.Ok? <==> requested.Ok? && (writes ==> Attested(o.task.extra).Ok?))
            && (r.Ok? && !writes ==> r.value == o)
            && (r.Ok? && writes ==>
                  var e := r.value.task.extra;
                  && r.value == o.(task := o.task.(extra := e))
                  && "chainOfTrust" in e && e["chainOfTrust"].Obj?
                  && var cot := e["chainOfTrust"].fields;
                     && "inputs" in cot && cot["inputs"].Obj?
                     && DockerImageDependency in cot["inputs"].fields
                     && cot["inputs"].fields[DockerImageDependency] == DockerImageInput()
                     && (forall k | k in o.task.extra && k != "chainOfTrust" :: k in e && e[k] == o.task.extra[k])
                     && var before := Nested(o.task.extra, "chainOfTrust").value;
                        && (forall k | k in before && k != "inputs" :: k in cot && cot[k] == before[k])
                        && var inputs := Nested(before, "inputs").value;
                           forall k | k in inputs && k != DockerImageDependency ::
                             k in cot["inputs"].fields && cot["inputs"].fields[k] == inputs[k])
  {
  }

  /** Both readings agree on every payload that is a mapping. */
  lemma ChainOfTrustAgreesOnMappings(o: TaskOut)
    requires !o.task.payload.TextPayload?
    ensures ChainOfTrustAsWritten(o) == ChainOfTrust(o)
  {
  }

  /** As written, every `invalid` task that `build_task` yields stops the
      run at `chain_of_trust`; read as intended, it passes unchanged. */
  lemma InvalidTaskStopsChainOfTrust(ctx: Context, t: TaskDesc)
    requires t.worker.InvalidWorker? && TaskBuilt(ctx, t).Ok?
    ensures ChainOfTrustAsWritten(TaskBuilt(ctx, t).value) == Fail(NotAMapping("payload"))
    ensures ChainOfTrust(TaskBuilt(ctx, t).value) == Ok(TaskBuilt(ctx, t).value)
  {
    BuiltPayload(ctx, t);
  }

  /** A docker-worker task with chain of trust on and an in-tree image
      depends on the image-building task, and its chain-of-trust inputs point
      at that dependency. */
  lemma InTreeImageAttested(ctx: Context, t: TaskDesc, name: string)
    requires t.worker.DockerWorker? && On(t.worker.docker.chainOfTrust)
    requires t.worker.docker.image == Some(Obj(map["in-tree" := Str(name)]))
    requires TaskBuilt(ctx, t).Ok? && ChainOfTrust(TaskBuilt(ctx, t).value).Ok?
    ensures var o := ChainOfTrust(TaskBuilt(ctx, t).value).value;
            && DockerImageDependency in o.dependencies
            && o.dependencies[DockerImageDependency] == "build-docker-image-" + name
            && o.task.payload.Docker? && o.task.payload.docker.image.Obj?
            && "type" in o.task.payload.docker.image.fields && "path" in o.task.payload.docker.image.fields
            && o.task.payload.docker.image.fields["type"] == Str("task-image")
            && o.task.payload.docker.image.fields["path"] == Str(ImagePath)
            && "chainOfTrust" in o.task.extra && o.task.extra["chainOfTrust"].Obj?
            && "inputs" in o.task.extra["chainOfTrust"].fields
            && o.task.extra["chainOfTrust"].fields["inputs"].Obj?
            && DockerImageDependency in o.task.extra["chainOfTrust"].fields["inputs"].fields
            && o.task.extra["chainOfTrust"].fields["inputs"].fields[DockerImageDependency] == DockerImageInput()
  {
    var built := TaskBuilt(ctx, t).value;
    BuiltInTreeImage(ctx, t, name);
    ChainOfTrustEffect(built);
  }

  /** What `build_task` leaves for such a task: the dependency, the
      task-image, and chain of trust asked for. */
  lemma BuiltInTreeImage(ctx: Context, t: TaskDesc, name: string)
    requires t.worker.DockerWorker? && On(t.worker.docker.chainOfTrust)
    requires t.worker.docker.image == Some(Obj(map["in-tree" := Str(name)]))
    requires TaskBuilt(ctx, t).Ok?
    ensures var o := TaskBuilt(ctx, t).value;
            && HasImageDependency(o.dependencies)
            && o.dependencies[DockerImageDependency] == "build-docker-image-" + name
            && o.task.payload.Docker? && o.task.payload.docker.image.Obj?
            && "type" in o.task.payload.docker.image.fields && "path" in o.task.payload.docker.image.fields
            && o.task.payload.docker.image.fields["type"] == Str("task-image")
            && o.task.payload.docker.image.fields["path"] == Str(ImagePath)
            && CotRequested(o.task.payload) == Ok(true)
  {
    var drafted := Drafted(ctx, t).value;
    BuiltPayload(ctx, t);
    assert drafted.0.worker == t.worker by {
      assert Prepared(ctx, t).Ok?;
    }
    var b := DockerBuilt(ctx, drafted.0, drafted.1.scopes, drafted.1.expires).value;
    InTreeImageReferencesDependency(ctx, drafted.0, drafted.1.scopes, drafted.1.expires, name);
    assert "chainOfTrust" in b.payload.features;
  }

  // ----- check_task_identifiers -------------------------------------------

  /** The two attributes checked, in the source's order. */
  const IdentifierAttributes := ["workerType", "provisionerId"]

  function IdentifierAttribute(d: TaskDef, attr: string): string {
    if attr == "workerType" then d.workerType else d.provisionerId
  }

  /** What `re.match('^[a-zA-Z0-9_-]{1,22}$', s)` accepts: Python's `$`
      also matches just before a final newline. */
  predicate PythonFullMatch(s: string) {
    IsIdentifier(s) || (|s| >= 2 && s[|s| - 1] == '\n' && IsIdentifier(s[..|s| - 1]))
  }

  /** `check_task_identifiers` on one task, as the source has it. */
  function IdentifiersCheckedAsWritten(o: TaskOut): Result<TaskOut> {
    if !PythonFullMatch(o.task.workerType) then Fail(InvalidIdentifier(o.taskLabel, "workerType", o.task.workerType))
    else if !PythonFullMatch(o.task.provisionerId) then
      Fail(InvalidIdentifier(o.taskLabel, "provisionerId", o.task.provisionerId))
    else Ok(o)
  }

  /** `check_task_identifiers` on one task, with the pattern anchored at the
      very end. */
  function IdentifiersChecked(o: TaskOut): Result<TaskOut> {
    if !IsIdentifier(o.task.workerType) then Fail(InvalidIdentifier(o.taskLabel, "workerType", o.task.workerType))
    else if !IsIdentifier(o.task.provisionerId) then
      Fail(InvalidIdentifier(o.taskLabel, "provisionerId", o.task.provisionerId))
    else Ok(o)
  }

  /** A task passes exactly when both identifiers are 1 to 22 letters,
      digits, `_` or `-`, and then it is unchanged; the worker type is
      checked first. */
  lemma IdentifiersCheckedSpec(o: TaskOut)
    ensures var r := IdentifiersChecked(o);
            && (r.Ok? <==> IsIdentifier(o.task.workerType) && IsIdentifier(o.task.provisionerId))
            && (r.Ok? ==> r.value == o)
            && (!IsIdentifier(o.task.workerType) ==>
                  r == Fail(InvalidIdentifier(o.taskLabel, "workerType", o.task.workerType)))
            && (IsIdentifier(o.task.workerType) && !IsIdentifier(o.task.provisionerId) ==>
                  r == Fail(InvalidIdentifier(o.taskLabel, "provisionerId", o.task.provisionerId)))
            && (r.Ok? ==> 1 <= |o.task.workerType| <= 22 && '\n' !in o.task.workerType && '/' !in o.task.workerType)
  {
    assert !IdentifierChar('\n') && !IdentifierChar('/');
  }

  /** The pattern as written lets a worker type with a trailing newline
      through, though no identifier contains one. */
  lemma TrailingNewlineSlipsThrough(o: TaskOut, w: string)
    requires IsIdentifier(w) && o.task.workerType == w + "\n" && IsIdentifier(o.task.provisionerId)
    ensures IdentifiersCheckedAsWritten(o) == Ok(o)
    ensures IdentifiersChecked(o) == Fail(InvalidIdentifier(o.taskLabel, "workerType", w + "\n"))
  {
    var s := w + "\n";
    assert s[..|s| - 1] == w;
    assert !IdentifierChar(s[|s| - 1]);
  }

  /** The concrete case: `t-linux` followed by a newline. */
  lemma TrailingNewlineExample()
    ensures PythonFullMatch("t-linux\n") && !IsIdentifier("t-linux\n")
  {
    var s := "t-linux\n";
    assert s[..|s| - 1] == "t-linux";
    assert !IdentifierChar(s[7]);
  }

  /** The identifier loop of `check_task_identifiers`. */
  method CheckTaskIdentifiers(o: TaskOut) returns (r: Result<TaskOut>)
    ensures r == IdentifiersChecked(o)
  {
    for i := 0 to |IdentifierAttributes|
      invariant forall j | 0 <= j < i :: IsIdentifier(IdentifierAttribute(o.task, IdentifierAttributes[j]))
    {
      assert IdentifierAttributes[0] == "workerType" && IdentifierAttributes[1] == "provisionerId";
      var attr := IdentifierAttributes[i];
      var value := IdentifierAttribute(o.task, attr);
      if !IsIdentifier(value) {
        if i == 1 {
          assert IsIdentifier(IdentifierAttribute(o.task, IdentifierAttributes[0]));
        }
        return Fail(InvalidIdentifier(o.taskLabel, attr, value));
      }
    }
    assert IsIdentifier(IdentifierAttribute(o.task, IdentifierAttributes[0]));
    assert IsIdentifier(IdentifierAttribute(o.task, IdentifierAttributes[1]));
    return Ok(o);
  }

  // ----- check_task_dependencies ------------------------------------------

  /** `check_task_dependencies` on one task, with `MAX_DEPENDENCIES` as `max`. */
  function DependenciesChecked(max: nat, kind: string, o: TaskOut): Result<TaskOut> {
    if |o.dependencies| > max then Fail(TooManyDependencies(kind, o.taskLabel, |o.dependencies|)) else Ok(o)
  }

  /** A task passes, unchanged, exactly when it has at most `max`
      dependencies: `max` of them pass, one more fails with the count. */
  lemma DependencyLimit(max: nat, kind: string, o: TaskOut)
    ensures DependenciesChecked(max, kind, o).Ok? <==> |o.dependencies| <= max
    ensures DependenciesChecked(max, kind, o).Ok? ==> DependenciesChecked(max, kind, o).value == o
    ensures |o.dependencies| == max ==> DependenciesChecked(max, kind, o) == Ok(o)
    ensures |o.dependencies| == max + 1 ==>
              DependenciesChecked(max, kind, o) == Fail(TooManyDependencies(kind, o.taskLabel, max + 1))
  {
  }
}
