# Task transforms of taskgraph, modelled in Dafny

This project models the transform sequence of taskgraph's
`src/taskgraph/transforms/task.py`. The sequence turns a kind's task
descriptions into task definitions. Each stage runs over the whole stream of
records and yields every record, in order, or stops the run at the first
record it fails on. The stages are:

- `set_defaults` fills absent keys with implementation-specific defaults.
- `task_name_from_label` derives `label` from the kind and `name`.
- `validate` checks a task-description schema and that the worker's
  implementation has a registered payload builder.
- `add_index_routes` records the index rank. For an indexed task it dispatches
  to the `generic` index builder, which checks the product against the
  configured list and appends the four V2 index routes.
- `build_task` assembles a task definition:
  - it places the worker type and formats the scopes;
  - it builds the treeherder block of `extra`, with its route and push link;
  - it sets the default expiry, deadline and priority and overwrites three tags;
  - it calls the payload builder registered for the implementation and
    resolves `run_on_projects`;
  - it sets `MOZ_AUTOMATION` for docker-worker and generic-worker.
- `chain_of_trust` points the chain-of-trust inputs at the docker-image task.
- `check_task_identifiers` refuses malformed worker types and provisioner ids.
- `check_task_dependencies` refuses tasks with too many dependencies.

The three payload builders of the file (docker-worker, invalid,
always-optimized) are modelled in full.

Layout, one module per file:

| file | module | contents |
|---|---|---|
| results.dfy | `Results` | `Option`, the error values, `Result`, and `Collect`, the outcome of one stage over a stream |
| json.dfy | `Json` | JSON-like values, truthiness, `setdefault(key, {})` on a nested mapping |
| text.dfy | `Text` | `split('/', 1)`, `int()` of a digit string, `str.format` with named fields, the identifier pattern |
| records.dfy | `Records` | a task description, the worker union, a task definition, the output record, the run context |
| defaults.dfy | `Defaults` | `set_defaults`, `task_name_from_label` |
| validate.dfy | `Validation` | `validate` |
| indexing.dfy | `Indexing` | index rank, `verify_index`, `add_generic_index_routes`, `add_index_routes` |
| payloads.dfy | `Payloads` | the payload-builder registry and `build_docker_worker_payload` |
| build.dfy | `Build` | `build_task` and the invalid and always-optimized builders |
| checks.dfy | `Checks` | `chain_of_trust`, `check_task_identifiers`, `check_task_dependencies` |
| pipeline.dfy | `Pipeline` | every stage over a stream, the whole sequence, and its agreement with record-at-a-time evaluation |

A Python exception becomes a `Fail` carrying an `Error`. This covers the
stages' own `raise`, and also a KeyError on a missing key, a TypeError from
item assignment into a non-mapping, and a ValueError from a failed unpack.
Whatever the stages read from outside the file lives in `Records.Context`:
- the root URL, `TASK_ID` and `file_url`;
- `time.strftime` of the build date;
- the project's default priority;
- `split_symbol` and keyed-by resolution of `run-on-projects`;
- the payload builders other modules register;
- `MAX_DEPENDENCIES`.

## Model

| member | source | states |
|---|---|---|
| Text.SplitOnce | src/taskgraph/transforms/task.py:604 | `split('/', 1)` unpacks into two parts exactly when the separator occurs. The head holds no separator, and head + separator + tail is the input. A string without the separator fails the unpack. |
| Text.SplitOnceUnique | src/taskgraph/transforms/task.py:618 | Any decomposition at the first separator is the one the split returns. |
| Text.ParseDecimal | src/taskgraph/transforms/task.py:306 | `int(level)` succeeds exactly on non-empty ASCII digit strings. |
| Text.ParseDecimalOne | src/taskgraph/transforms/task.py:443 | A level string parses to 1 exactly when it is zeros followed by a final `1`. |
| Text.FormatBraceFree | src/taskgraph/transforms/task.py:608 | A template without braces formats to itself. |
| Text.FormatFieldAfterOk | src/taskgraph/transforms/task.py:603 | Formatting `lit{name}rest` yields the literal, then the field's value, then the formatted rest. |
| Defaults.Defaulted | src/taskgraph/transforms/task.py:486-520 | The stage fails exactly on a generic-worker with non-empty `os-groups` outside Windows, with a KeyError on `os` when that key is missing and the os-groups error otherwise. Otherwise `always-target`, `optimization` and `needs-sccache` are filled only where absent, the implementation is kept, and nothing outside those keys and the worker changes. |
| Defaults.DockerDefaultsFillOnlyAbsent | src/taskgraph/transforms/task.py:493-505 | A docker-worker never fails. Each of its eight flags and `env` is filled only when absent. Image, artifacts, command, run time and both exit-status lists are kept, and no other key changes. Every cache keeps its name, mount point and type and gets `skip-untrusted` only when absent. |
| Defaults.WorkerDefaultsFillOnlyAbsent | src/taskgraph/transforms/task.py:506-519 | For generic-worker, `env`, `os-groups` and `chain-of-trust` are filled only where absent and `os` is kept; for scriptworker `max-run-time` gets 600 only where absent; for push-apk `commit` gets false only where absent; other non-docker workers are unchanged. |
| Defaults.DefaultedIdempotent | src/taskgraph/transforms/task.py:486-520 | Running `set_defaults` twice gives the same record as running it once. |
| Defaults.SetDefaults | src/taskgraph/transforms/task.py:486-520 | The in-place `setdefault` sequence, including the cache loop, computes `Defaulted`. |
| Defaults.Named | src/taskgraph/transforms/task.py:524-532 | Fails exactly when both `label` and `name` are absent. An existing label is never changed. A missing label becomes `kind-name`. A truthy `name` is removed. Nothing else changes. |
| Defaults.DerivedLabelNamesTask | src/taskgraph/transforms/task.py:529 | A derived label is the kind, a `-`, then the name, character for character. |
| Validation.Validated | src/taskgraph/transforms/task.py:536-545 | A record passes unchanged exactly when it is well-formed (required keys present, no `name` or `priority` key, a known treeherder kind, a generic index type) and a builder is registered for its implementation. The schema error comes first, then the registry's KeyError. |
| Validation.EarlierStagesFillRequiredKeys | src/taskgraph/transforms/task.py:536-540 | After `set_defaults` and `task_name_from_label`, the schema's required keys are always present. Validation then passes exactly when the record has no `priority`, no kept falsy `name`, a known treeherder kind, a generic index type and a registered implementation. |
| Validation.ValidRecordGetsDefaultPriority | src/taskgraph/transforms/task.py:655-656 | A validated record carries no `priority`, so its built task always has the project's default priority. |
| Validation.ValidRecordHasBuilder | src/taskgraph/transforms/task.py:542 | Once validated, a record's payload dispatch never meets the registry KeyError. It can fail only inside the docker-worker builder or an externally registered builder. |
| Indexing.TierOneRanksAbove | src/taskgraph/transforms/task.py:578-582 | Under `by-tier`, a tier-1 task outranks every tier-2 or tier-3 task, and every task without treeherder, of a push with a positive build date. |
| Indexing.UnannotatedRanksZero | src/taskgraph/transforms/task.py:581-582 | Under `by-tier`, a task without treeherder defaults to tier 3 and ranks 0. |
| Indexing.ExplicitRankIgnoresTier | src/taskgraph/transforms/task.py:583-586 | `build_date` ranks by the build date and an integer rank is used verbatim, whatever the tier. |
| Indexing.V2RoutesFormatted | src/taskgraph/transforms/task.py:169-174 | Formatting the four route templates with the substitutions never fails. It gives the latest, push-date, pushlog-id and revision routes, in that order, each written out. |
| Indexing.GenericIndexed | src/taskgraph/transforms/task.py:549-566 | Fails exactly when the product is not configured. Otherwise the four V2 routes are appended after the existing routes and nothing else changes. |
| Indexing.AddGenericIndexRoutes | src/taskgraph/transforms/task.py:549-566 | The template loop appending to `routes` computes `GenericIndexed`. |
| Indexing.Indexed | src/taskgraph/transforms/task.py:570-596 | Fails exactly when `extra.index` is not a mapping, the index type has no builder, or the product is not configured, and reports the first of these in that order. On success `extra.index.rank` holds the rank for every task, indexed or not, while `extra` gains only the `index` key and keeps its other entries and the other fields already under `index`. An indexed task gains the V2 routes. The `index` key is removed and nothing else changes. |
| Indexing.AddIndexRoutes | src/taskgraph/transforms/task.py:570-596 | The in-place stage body computes `Indexed`. |
| Payloads.ResolveImage | src/taskgraph/transforms/task.py:308-328 | A non-mapping image passes through. `in-tree` gives a `task-image` pointing at `<docker-image>` and names the dependency `build-docker-image-<name>`. `indexed` gives an `indexed-image` with that namespace. Any other mapping fails. |
| Payloads.FeaturesFollowFlags | src/taskgraph/transforms/task.py:335-355 | Each feature is present exactly when its flag is on; `taskclusterProxy` also when sccache is on. No other feature appears. |
| Payloads.DockerEnvUrls | src/taskgraph/transforms/task.py:333-370 | The root URL is always set. With the proxy or sccache on, `TASKCLUSTER_PROXY_URL` is `http://taskcluster` (the later write wins); otherwise it is left as it was. |
| Payloads.DockerEnvSwitches | src/taskgraph/transforms/task.py:354-365 | Sccache on sets `USE_SCCACHE` and `SCCACHE_IDLE_TIMEOUT=0`; off sets `SCCACHE_DISABLE`. `TASKCLUSTER_UNTRUSTED_CACHES` is set when asked and otherwise left as it was. |
| Payloads.DockerEnvKeepsOthers | src/taskgraph/transforms/task.py:333-370 | Every other environment variable keeps its value. |
| Payloads.CacheMapContents | src/taskgraph/transforms/task.py:445-455 | A name is in the cache map exactly when some kept cache gets that `trust-domain-name-v3` name. The last such cache's mount point wins. |
| Payloads.CacheScopesGrantMounted | src/taskgraph/transforms/task.py:451-453 | The cache scopes are exactly `docker-worker:cache:<name>` for the names in the cache map. |
| Payloads.UntrustedDropsOptedOut | src/taskgraph/transforms/task.py:443-449 | On try or at level 1, caches that all opt out give an empty map and no scopes. |
| Payloads.ArtifactMapContents | src/taskgraph/transforms/task.py:401-409 | The artifact map is keyed by the artifacts' names. Each entry expires with a task, and the last artifact of a name supplies its path and type. |
| Payloads.InTreeImageReferencesDependency | src/taskgraph/transforms/task.py:310-319 | An in-tree image makes the payload reference `<docker-image>`, and a task depends on `build-docker-image-<name>` under that key. |
| Payloads.UntrustedCachesFlag | src/taskgraph/transforms/task.py:457-458 | `TASKCLUSTER_UNTRUSTED_CACHES=1` is set exactly when the cache map is non-empty and untrusted caches are skipped; otherwise the key is present exactly when the worker's `env` has it, with the worker's value. |
| Payloads.ProxyUrlWithoutSlash | src/taskgraph/transforms/task.py:340-370 | With the proxy or sccache on, the URL ends without a slash and the `taskclusterProxy` feature is on. |
| Payloads.SetFlags | src/taskgraph/transforms/task.py:335-352 | The flag branches compute the features, the environment and the ptrace scope. |
| Payloads.SetSccache | src/taskgraph/transforms/task.py:354-370 | The sccache branch computes its feature, environment and scope. |
| Payloads.SetCapabilities | src/taskgraph/transforms/task.py:372-383 | The loopback loop and the privileged branch compute the devices and append their scopes in order. |
| Payloads.GatherArtifacts | src/taskgraph/transforms/task.py:401-409 | The artifact loop computes the artifact map. |
| Payloads.GatherCaches | src/taskgraph/transforms/task.py:411-455 | The cache loop computes the cache map and the cache scopes. |
| Payloads.AssemblePayload | src/taskgraph/transforms/task.py:385-463 | The payload assembly computes the payload and the scopes. |
| Payloads.BuildDockerWorkerPayload | src/taskgraph/transforms/task.py:304-463 | The whole docker-worker builder computes its payload, scopes and dependencies. It fails exactly on a non-integer level, a missing or unknown image, or a missing `env`, and reports the first of these in that order. |
| Payloads.RegistryMatchesWorker | src/taskgraph/transforms/task.py:192-202 | Exactly docker-worker, invalid and always-optimized are registered by this file, each under its own builder. |
| Build.PlacementSplitsWorkerType | src/taskgraph/transforms/task.py:602-604 | The worker type, with `{level}` filled, splits at its first `/` into provisioner id and worker type. A value without `/` fails the unpack. |
| Build.WorkerTypeLevelFilled | src/taskgraph/transforms/task.py:602-603 | `lit{level}rest` becomes the literal, the level, then the rest. |
| Build.FormatScopes | src/taskgraph/transforms/task.py:608 | Every scope is formatted, in order, or the run fails with some scope's formatting error. |
| Build.TreeherderChecks | src/taskgraph/transforms/task.py:618-636 | The treeherder block fails exactly on a platform without `/`, an `extra.treeherder` that is not a mapping, a non-`?` group missing from `group-names`, or a symbol or group over 25 characters. The unknown group is reported before the length check. |
| Build.TreeherderExtra | src/taskgraph/transforms/task.py:614-629 | `treeherder-platform` defaults to the platform. Other `extra` keys are kept. `extra.treeherder` is the earlier block completed by `TreeherderFields`. |
| Build.TreeherderFieldsContents | src/taskgraph/transforms/task.py:619-638 | The block gets machine platform and collection from the split, the symbol, job kind and tier. The group symbol and name come only for a known non-`?` group. No other key is added. |
| Build.AnnotateTreeherder | src/taskgraph/transforms/task.py:613-647 | The in-place treeherder updates compute `Annotated`. |
| Build.TagsOverwritten | src/taskgraph/transforms/task.py:658-663 | `createdForUser`, `kind` and `label` are overwritten and every other tag is kept. |
| Build.Prepare | src/taskgraph/transforms/task.py:602-647 | Placement, scopes, `extra` and routes are computed as `Prepared` specifies. |
| Build.DraftTask | src/taskgraph/transforms/task.py:649-692 | The defaults, tags and task-definition assembly compute `Drafted`. |
| Build.AttachPayload | src/taskgraph/transforms/task.py:694-695 | The registry dispatch computes `Dispatched`: the three builders of this file, an external one, or the KeyError. |
| Build.BuildTask | src/taskgraph/transforms/task.py:600-721 | One record through `build_task` computes `TaskBuilt`. |
| Build.BuiltDefinition | src/taskgraph/transforms/task.py:649-692 | A built task carries its label. Provisioner id and worker type come from the split. The treeherder route is appended to the routes only when treeherder is set. Expiry defaults to 28 days on try and 1 year otherwise; deadline defaults to 1 day; priority defaults to the project's. Metadata holds the push link only with treeherder. `requires` and optimization are carried over. |
| Build.BuiltFromDrafted | src/taskgraph/transforms/task.py:694-721 | A built task is its draft definition with only the scopes and payload replaced by the builder's. Its label is the draft's name and its optimization is carried over, `None` when absent. |
| Build.DraftedDefinition | src/taskgraph/transforms/task.py:649-692 | The draft definition places the worker type as split, adds the treeherder route only with treeherder, and fills expiry, deadline and priority with their defaults when absent. It overwrites the three tags and links the description to the push only with treeherder. Its scopes are the task's scopes with `{level}` formatted, which always succeeds for a drafted task. |
| Build.BuiltExtra | src/taskgraph/transforms/task.py:610-647 | `extra.parent` is `TASK_ID`. Without treeherder nothing else changes; with it, `extra` is the annotated one. |
| Build.PreparedExtra | src/taskgraph/transforms/task.py:610-647 | The same facts for the prepared placement, before the draft. |
| Build.BuiltAttributes | src/taskgraph/transforms/task.py:697-703 | `run_on_projects` is the resolved value, or `['all']` when absent. `always_target` is copied. All other attributes are kept. |
| Build.BuiltPayload | src/taskgraph/transforms/task.py:694-713 | docker-worker gets the builder's payload, scopes and dependencies with `MOZ_AUTOMATION=1`. invalid gets the fixed string. always-optimized gets `{}`. Any other implementation gets its registered builder's payload unchanged and the formatted scopes followed by the builder's scopes; a non-empty generic-worker payload also gets `MOZ_AUTOMATION=1` in its env, every other key kept. |
| Build.UnregisteredImplementationFails | src/taskgraph/transforms/task.py:695 | An implementation nobody registered fails with the registry's KeyError. |
| Checks.ChainOfTrustEffect | src/taskgraph/transforms/task.py:725-734 | Fails only on a non-mapping `features`, `chainOfTrust` or `inputs`. Otherwise only `extra` changes, and only when chain of trust is on and a docker-image dependency exists. Then `inputs.docker-image` points at `<docker-image>` and every other entry is kept. |
| Checks.ChainOfTrustAgreesOnMappings | src/taskgraph/transforms/task.py:727 | The corrected stage equals the source's on every payload that is a mapping. |
| Checks.InvalidTaskStopsChainOfTrust | src/taskgraph/transforms/task.py:727 | A built `invalid` task makes the stage as written fail on its string payload. The corrected stage passes it through unchanged. |
| Checks.InTreeImageAttested | src/taskgraph/transforms/task.py:727-733 | A docker-worker task with chain of trust and an in-tree image ends with the image dependency, a `task-image` payload, and the chain-of-trust input pointing at it. |
| Checks.IdentifiersCheckedSpec | src/taskgraph/transforms/task.py:738-749 | A task passes unchanged exactly when both identifiers are 1 to 22 characters from `[a-zA-Z0-9_-]`. `workerType` is reported before `provisionerId`. A passing worker type has no `/` or newline. |
| Checks.TrailingNewlineSlipsThrough | src/taskgraph/transforms/task.py:742-745 | As written, a worker type with a trailing newline passes; the corrected check refuses it. |
| Checks.TrailingNewlineExample | src/taskgraph/transforms/task.py:742 | `"t-linux\n"` matches the pattern as Python reads it, but it is not an identifier. |
| Checks.CheckTaskIdentifiers | src/taskgraph/transforms/task.py:744-748 | The loop over the two attributes computes the corrected `IdentifiersChecked` (exact identifier match, no trailing newline). |
| Checks.DependencyLimit | src/taskgraph/transforms/task.py:753-761 | A task passes unchanged exactly when it has at most `MAX_DEPENDENCIES` dependencies. Exactly that many pass; one more fails with the count. |
| Pipeline.ThenStage | src/taskgraph/transforms/task.py:482 | Running two stages one after the other over a stream, or each record through both in turn, succeeds in the same cases with the same records. |
| Pipeline.StageByStageIsRecordByRecord | src/taskgraph/transforms/task.py:482 | The whole sequence run stage by stage agrees with the generator chain, which takes each record through every stage before the next. |
| Pipeline.TransformedPerRecord | src/taskgraph/transforms/task.py:482 | A successful run yields one task per description, in order, each the description's own path through the stages. |
| Pipeline.RunSetDefaults | src/taskgraph/transforms/task.py:486-520 | The stage loop yields every record's defaults in order, or the first failure. |
| Pipeline.RunTaskNameFromLabel | src/taskgraph/transforms/task.py:524-532 | The stage loop yields every record's label in order, or the first failure. |
| Pipeline.RunValidate | src/taskgraph/transforms/task.py:536-545 | The stage loop yields every valid record in order, or the first failure. |
| Pipeline.RunAddIndexRoutes | src/taskgraph/transforms/task.py:570-596 | The stage loop yields every indexed record in order, or the first failure. |
| Pipeline.RunBuildTask | src/taskgraph/transforms/task.py:600-721 | The stage loop yields every built task in order, or the first failure. |
| Pipeline.RunChainOfTrust | src/taskgraph/transforms/task.py:725-734 | The stage loop yields every task in order, or the first failure, using the corrected `Checks.ChainOfTrust`. |
| Pipeline.RunCheckTaskIdentifiers | src/taskgraph/transforms/task.py:738-749 | The stage loop yields every task in order, or the first failure, using the corrected `Checks.IdentifiersChecked`. |
| Pipeline.RunCheckTaskDependencies | src/taskgraph/transforms/task.py:753-761 | The stage loop yields every task in order, or the first failure. |
| Pipeline.Transform | src/taskgraph/transforms/task.py:482 | The eight stages in order compute `Transformed`, whose chain-of-trust and identifier stages are the corrected ones of the Findings table. |

## Left out

- The voluptuous schemas (task.py:33-160 and each builder's `schema=`): the
  datatypes carry the key types of the keys the stages read. `TaskDesc` also
  carries `name` and `priority`, which the top-level schema does not list and
  so refuses; `Validation.WellFormed` requires both absent, along with the
  required keys, the treeherder kinds and the index type. Value types and
  the per-implementation worker schemas are not checked.
- Keys the top-level schema lists without `Required`, yet the stages read
  with `task[...]`: `worker-type` (task.py:150, read at 603), `worker`
  (task.py:156, read at 492), the treeherder `symbol`, `kind`, `tier` and
  `platform` (task.py:81-92, read at 615-638) and the index `product` and
  `job-name` (task.py:99-102, read at 556-559). `Records.TaskDesc`,
  `Records.TreeherderSpec` and `Records.IndexSpec` assume them present, so
  the KeyError each raises when it is absent is not modelled (for example a
  treeherder block without `tier` ranks as tier 3 in `add_index_routes` and
  then fails in `build_task`). Results on success are unaffected.
- Keyed-by resolution, `split_symbol`, `get_default_priority` and `file_url`:
  their code is not part of this model. They are functions or values in
  `Records.Context`.
- `get_root_url()`, `os.environ['TASK_ID']` and `time.strftime`: environment
  and clock reads, also values in `Records.Context`.
- `MAX_DEPENDENCIES`: it is defined in `taskgraph/__init__.py`, which is not
  part of this model. It is `Context.maxDependencies`; the docstring at
  task.py:754 says 100.
- Payload builders registered by other modules: they are functions from the
  task to a payload and extra scopes. A builder that also mutates a task
  or the rest of `task_def` is not captured.
- Text.ParseDecimal: accepts only ASCII digit strings. Signs, surrounding
  whitespace, underscores and Unicode decimal digits, which Python's `int()`
  accepts, make it fail.
- `os.path.join(config.path, job-from)` in the unknown-group error: the error
  carries the two parts instead.
- Error message texts: the errors are values naming their cause, not
  formatted strings.
- Aliasing: the source mutates `routes`, `extra`, `tags`, `attributes` and
  `env` in place, and some of these dicts are shared with a task description.
  The model copies values, so a later stage reading the description's own
  `routes` or `extra` after `build_task` is not modelled.
- Laziness: the stages are generators. When several records fail, the
  generator chain reports the failure of the first record to reach a failing
  stage, while the stage-by-stage model reports the first failure of the
  earliest stage. `Pipeline.StageByStageIsRecordByRecord` shows the two
  agree on success and on whether the run fails, not on which error.
- Pipeline.Transform: runs the corrected `Checks.ChainOfTrust` and
  `Checks.IdentifiersChecked` (the corrected members of the two Findings
  rows), so an `invalid` task passes where the source raises at task.py:727,
  and a worker type or provisioner id with a trailing newline fails where the
  source lets it through.
- Text.Format: supports only `{name}` fields and the `{{` and `}}` escapes.
  Conversions (`{level!s}`), format specs (`{level:>2}`, `{level:}`) and
  index or attribute access (`{a[0]}`, `{a.b}`) are not supported; a
  template using them fails in the model where Python formats it.
- `TransformSequence`, `memoize` and the decorator mechanics: the registries
  are constant maps holding their final contents.

## Findings

| source | as written | input that shows it | evidently intended | confidence | as-written member | corrected member |
|---|---|---|---|---|---|---|
| src/taskgraph/transforms/task.py:727 | `chain_of_trust` calls `.get` on the payload, but an `invalid` task's payload is a string (task.py:472), so the stage raises AttributeError | any task with `worker.implementation == 'invalid'` that reaches `chain_of_trust` | an invalid task has no features and passes through unchanged | not executed | Checks.ChainOfTrustAsWritten | Checks.ChainOfTrust |
| src/taskgraph/transforms/task.py:742-745 | `re.match('^[a-zA-Z0-9_-]{1,22}$')` also accepts a value ending in one newline, because `$` matches before a final newline | worker type `"t-linux\n"` (see `Checks.TrailingNewlineExample`) | only 1 to 22 identifier characters and nothing else | not executed | Checks.IdentifiersCheckedAsWritten | Checks.IdentifiersChecked |
