/** The payload builders of task.py: `build_docker_worker_payload`
    (task.py:228-462), `build_invalid_payload` (task.py:465-471) and
    `build_always_optimized_payload` (task.py:474-478), and the registry that
    `build_task` dispatches through (task.py:191-202). */
module Payloads {
  import opened Results
  import opened Json
  import opened Records
  import opened Text

  const ImagePath := "public/image.tar.zst"

  /** The dependency an in-tree image adds, and the reference to it. */
  const DockerImageDependency := "docker-image"
  const DockerImageReference := "<" + DockerImageDependency + ">"

  const InvalidPayloadText := "invalid task - should never be created"

  // ----- the docker image -------------------------------------------------

  /** The resolved `image` of the payload and the dependency it needs, if any. */
  datatype ResolvedImage = ResolvedImage(image: Value, dependency: Option<string>)

  function InTreeImage(): Value {
    Obj(map["path" := Str(ImagePath),
            "taskId" := Obj(map["task-reference" := Str(DockerImageReference)]),
            "type" := Str("task-image")])
  }

  function IndexedImage(namespace: Value): Value {
    Obj(map["path" := Str(ImagePath), "namespace" := namespace, "type" := Str("indexed-image")])
  }

  /** `docker-image`: a dict naming an in-tree image becomes a task-image
      pointing at the image-building task, which becomes a dependency; a dict
      naming an indexed image becomes an indexed-image; any other dict is an
      error; anything else is passed through as the image name. */
  function ResolveImage(image: Value): (r: Result<ResolvedImage>)
    ensures !image.Obj? ==> r == Ok(ResolvedImage(image, None))
    ensures image.Obj? ==>
              (r.Ok? <==> if "in-tree" in image.fields then image.fields["in-tree"].Str? else "indexed" in image.fields)
    ensures image.Obj? && r.Fail? ==>
              r.error == if "in-tree" in image.fields then NotAString("in-tree") else UnknownDockerImageType
    ensures image.Obj? && r.Ok? ==>
              && r.value.image.Obj? && "path" in r.value.image.fields && "type" in r.value.image.fields
              && r.value.image.fields["path"] == Str(ImagePath)
              && (r.value.dependency.Some? <==> "in-tree" in image.fields)
    ensures image.Obj? && r.Ok? && "in-tree" in image.fields ==>
              && r.value.dependency == Some("build-docker-image-" + image.fields["in-tree"].s)
              && "taskId" in r.value.image.fields
              && r.value.image.fields["taskId"] == Obj(map["task-reference" := Str("<" + DockerImageDependency + ">")])
              && r.value.image.fields["type"] == Str("task-image")
    ensures image.Obj? && r.Ok? && "in-tree" !in image.fields ==>
              "namespace" in r.value.image.fields && r.value.image.fields["namespace"] == image.fields["indexed"] &&
              r.value.image.fields["type"] == Str("indexed-image")
  {
    match image
    case Obj(fields) =>
      if "in-tree" in fields then
        if fields["in-tree"].Str? then Ok(ResolvedImage(InTreeImage(), Some("build-docker-image-" + fields["in-tree"].s)))
        else Fail(NotAString("in-tree"))
      else if "indexed" in fields then Ok(ResolvedImage(IndexedImage(fields["indexed"]), None))
      else Fail(UnknownDockerImageType)
    case _ => Ok(ResolvedImage(image, None))
  }

  // ----- features, environment, capabilities ------------------------------

  /** `worker.get(flag)` is true. */
  predicate On(flag: Option<bool>) {
    flag == Some(true)
  }

  /** The features the worker's own flags switch on. */
  function FlagFeatures(d: DockerSpec): set<string> {
    (if On(d.relengapiProxy) then {"relengAPIProxy"} else {}) +
    (if On(d.taskclusterProxy) then {"taskclusterProxy"} else {}) +
    (if On(d.allowPtrace) then {"allowPtrace"} else {}) +
    (if On(d.chainOfTrust) then {"chainOfTrust"} else {}) +
    (if On(d.dockerInDocker) then {"dind"} else {})
  }

  /** The names set to True in `features`; sccache needs the taskcluster proxy. */
  function Features(d: DockerSpec, sccache: bool): set<string> {
    FlagFeatures(d) + (if sccache then {"taskclusterProxy"} else {})
  }

  /** Each feature is on exactly when its flag is, the taskcluster proxy also
      when sccache is wanted, and there are no others. */
  lemma FeaturesFollowFlags(d: DockerSpec, sccache: bool)
    ensures var r := Features(d, sccache);
            && ("taskclusterProxy" in r <==> On(d.taskclusterProxy) || sccache)
            && ("relengAPIProxy" in r <==> On(d.relengapiProxy))
            && ("allowPtrace" in r <==> On(d.allowPtrace))
            && ("chainOfTrust" in r <==> On(d.chainOfTrust))
            && ("dind" in r <==> On(d.dockerInDocker))
            && r <= {"relengAPIProxy", "taskclusterProxy", "allowPtrace", "chainOfTrust", "dind"}
  {
  }

  /** The loopback devices switched on, audio first. */
  function Devices(d: DockerSpec): set<string> {
    (if On(d.loopbackAudio) then {"loopbackAudio"} else {}) +
    (if On(d.loopbackVideo) then {"loopbackVideo"} else {})
  }

  const RootUrlVar := "TASKCLUSTER_ROOT_URL"
  const ProxyUrlVar := "TASKCLUSTER_PROXY_URL"
  const UntrustedCachesVar := "TASKCLUSTER_UNTRUSTED_CACHES"

  /** The worker's environment after the builder's assignments, in the
      source's order: root URL; proxy URL with a slash when the proxy flag is
      on; the sccache switches; the proxy URL again, without the slash,
      whenever the proxy feature is on; the untrusted-caches flag. */
  function DockerEnv(ctx: Context, env: map<string, Value>, d: DockerSpec, sccache: bool, untrusted: bool): map<string, Value> {
    var e := FeatureEnv(ctx, env, d, sccache, "taskclusterProxy" in Features(d, sccache));
    if untrusted then e[UntrustedCachesVar := Str("1")] else e
  }

  /** The root URL is always the deployment's. With the proxy asked for,
      directly or through sccache, the proxy URL is the one WITHOUT the
      trailing slash (the second assignment wins); otherwise a task's own
      value, if any, is kept. */
  lemma DockerEnvUrls(ctx: Context, env: map<string, Value>, d: DockerSpec, sccache: bool, untrusted: bool)
    ensures var r := DockerEnv(ctx, env, d, sccache, untrusted);
            && RootUrlVar in r && r[RootUrlVar] == Str(ctx.rootUrl)
            && (On(d.taskclusterProxy) || sccache ==> ProxyUrlVar in r && r[ProxyUrlVar] == Str("http://taskcluster"))
            && (!(On(d.taskclusterProxy) || sccache) ==>
                  (ProxyUrlVar in r <==> ProxyUrlVar in env) && (ProxyUrlVar in env ==> r[ProxyUrlVar] == env[ProxyUrlVar]))
  {
    FeaturesFollowFlags(d, sccache);
  }

  /** sccache is either switched on with idle shutdown off, or disabled; the
      untrusted-caches flag is raised when asked, and otherwise a task's
      own value, if any, is kept. */
  lemma DockerEnvSwitches(ctx: Context, env: map<string, Value>, d: DockerSpec, sccache: bool, untrusted: bool)
    ensures var r := DockerEnv(ctx, env, d, sccache, untrusted);
            && (sccache ==> "USE_SCCACHE" in r && r["USE_SCCACHE"] == Str("1") &&
                            "SCCACHE_IDLE_TIMEOUT" in r && r["SCCACHE_IDLE_TIMEOUT"] == Str("0"))
            && (!sccache ==> "SCCACHE_DISABLE" in r && r["SCCACHE_DISABLE"] == Str("1"))
            && (untrusted ==> UntrustedCachesVar in r && r[UntrustedCachesVar] == Str("1"))
            && (!untrusted ==>
                  (UntrustedCachesVar in r <==> UntrustedCachesVar in env) &&
                  (UntrustedCachesVar in env ==> r[UntrustedCachesVar] == env[UntrustedCachesVar]))
  {
  }

  /** Every other variable of a task is passed through untouched. */
  lemma DockerEnvKeepsOthers(ctx: Context, env: map<string, Value>, d: DockerSpec, sccache: bool, untrusted: bool)
    ensures var r := DockerEnv(ctx, env, d, sccache, untrusted);
            forall k | k in env &&
                       k !in {RootUrlVar, ProxyUrlVar, UntrustedCachesVar, "USE_SCCACHE", "SCCACHE_IDLE_TIMEOUT", "SCCACHE_DISABLE"} ::
              k in r && r[k] == env[k]
  {
  }

  /** The environment once the features are set, before the caches are seen;
      `proxyFeature` is whether the `taskclusterProxy` feature ended up on. */
  function FeatureEnv(ctx: Context, env: map<string, Value>, d: DockerSpec, sccache: bool, proxyFeature: bool): map<string, Value> {
    SccacheEnv(FlagEnv(ctx, env, d), sccache, proxyFeature)
  }

  /** The root URL, and the proxy URL with a slash when the proxy flag is on. */
  function FlagEnv(ctx: Context, env: map<string, Value>, d: DockerSpec): map<string, Value> {
    var e := env[RootUrlVar := Str(ctx.rootUrl)];
    if On(d.taskclusterProxy) then e[ProxyUrlVar := Str("http://taskcluster/")] else e
  }

  /** The sccache switches, then the proxy URL without the slash. */
  function SccacheEnv(env: map<string, Value>, sccache: bool, proxyFeature: bool): map<string, Value> {
    var e := if sccache then env["USE_SCCACHE" := Str("1")]["SCCACHE_IDLE_TIMEOUT" := Str("0")]
             else env["SCCACHE_DISABLE" := Str("1")];
    if proxyFeature then e[ProxyUrlVar := Str("http://taskcluster")] else e
  }

  /** The scopes the features and capabilities ask for, in the source's order. */
  function FeatureScopes(ctx: Context, d: DockerSpec, sccache: bool): seq<string> {
    FlagScopes(ctx, d, sccache) + CapabilityScopes(d)
  }

  /** The scopes of `allow-ptrace` and of sccache. */
  function FlagScopes(ctx: Context, d: DockerSpec, sccache: bool): seq<string> {
    PtraceScopes(d) + SccacheScopes(ctx, sccache)
  }

  function PtraceScopes(d: DockerSpec): seq<string> {
    if On(d.allowPtrace) then ["docker-worker:feature:allowPtrace"] else []
  }

  function SccacheScopes(ctx: Context, sccache: bool): seq<string> {
    if sccache
    then ["assume:project:taskcluster:" + ctx.graph.trustDomain + ":level-" + ctx.params.level + "-sccache-buckets"]
    else []
  }

  /** The scopes of the loopback devices, audio first, and of `privileged`. */
  function CapabilityScopes(d: DockerSpec): seq<string> {
    (if On(d.loopbackAudio) then ["docker-worker:capability:device:loopbackAudio"] else []) +
    (if On(d.loopbackVideo) then ["docker-worker:capability:device:loopbackVideo"] else []) +
    (if On(d.privileged) then ["docker-worker:capability:privileged"] else [])
  }

  // ----- caches -----------------------------------------------------------

  /** A cache is mounted unless it opts out of untrusted environments and
      this is one (a try push, or level 1). */
  predicate Kept(c: CacheSpec, skipUntrusted: bool) {
    !(On(c.skipUntrusted) && skipUntrusted)
  }

  /** `<trust domain>-<name>-v3`. */
  function CacheName(trustDomain: string, c: CacheSpec): string {
    trustDomain + "-" + c.name + "-v3"
  }

  function CacheScope(name: string): string {
    "docker-worker:cache:" + name
  }

  /** The `cache` mapping built from the first caches: each kept cache's name
      to its mount point, a later cache replacing an earlier one of the same name. */
  function CacheMap(trustDomain: string, cs: seq<CacheSpec>, skipUntrusted: bool): map<string, string> {
    if cs == [] then map[]
    else
      var m := CacheMap(trustDomain, cs[..|cs| - 1], skipUntrusted);
      var c := cs[|cs| - 1];
      if Kept(c, skipUntrusted) then m[CacheName(trustDomain, c) := c.mountPoint] else m
  }

  /** The scopes appended for the first caches, one per kept cache, in order. */
  function CacheScopes(trustDomain: string, cs: seq<CacheSpec>, skipUntrusted: bool): seq<string> {
    if cs == [] then []
    else
      var s := CacheScopes(trustDomain, cs[..|cs| - 1], skipUntrusted);
      var c := cs[|cs| - 1];
      if Kept(c, skipUntrusted) then s + [CacheScope(CacheName(trustDomain, c))] else s
  }

  /** A name is mounted exactly when some kept cache carries it, and it is
      mounted at the mount point of the LAST kept cache carrying it. */
  lemma {:induction false} CacheMapContents(trustDomain: string, cs: seq<CacheSpec>, skipUntrusted: bool, name: string)
    ensures name in CacheMap(trustDomain, cs, skipUntrusted) <==>
            exists i | 0 <= i < |cs| :: Kept(cs[i], skipUntrusted) && CacheName(trustDomain, cs[i]) == name
    ensures forall j | 0 <= j < |cs| && Kept(cs[j], skipUntrusted) && CacheName(trustDomain, cs[j]) == name &&
                       (forall l | j < l < |cs| :: !(Kept(cs[l], skipUntrusted) && CacheName(trustDomain, cs[l]) == name)) ::
              name in CacheMap(trustDomain, cs, skipUntrusted) &&
              CacheMap(trustDomain, cs, skipUntrusted)[name] == cs[j].mountPoint
  {
    if cs != [] {
      var init := cs[..|cs| - 1];
      CacheMapContents(trustDomain, init, skipUntrusted, name);
      assert forall i | 0 <= i < |init| :: init[i] == cs[i];
      if exists i | 0 <= i < |cs| :: Kept(cs[i], skipUntrusted) && CacheName(trustDomain, cs[i]) == name {
        var i :| 0 <= i < |cs| && Kept(cs[i], skipUntrusted) && CacheName(trustDomain, cs[i]) == name;
        if i < |init| {
          assert Kept(init[i], skipUntrusted) && CacheName(trustDomain, init[i]) == name;
        }
      }
    }
  }

  /** Every mounted cache is granted by a scope, and every cache scope
      appended grants a mounted cache. */
  lemma {:induction false} CacheScopesGrantMounted(trustDomain: string, cs: seq<CacheSpec>, skipUntrusted: bool)
    ensures forall s :: s in CacheScopes(trustDomain, cs, skipUntrusted) <==>
                        exists k | k in CacheMap(trustDomain, cs, skipUntrusted) :: s == CacheScope(k)
  {
    if cs != [] {
      CacheScopesGrantMounted(trustDomain, cs[..|cs| - 1], skipUntrusted);
    }
  }

  /** When the environment is untrusted, caches that opt out are neither
      mounted nor granted. */
  lemma {:induction false} UntrustedDropsOptedOut(trustDomain: string, cs: seq<CacheSpec>, isTry: bool, level: int)
    requires isTry || level == 1
    requires forall i | 0 <= i < |cs| :: On(cs[i].skipUntrusted)
    ensures CacheMap(trustDomain, cs, isTry || level == 1) == map[]
    ensures CacheScopes(trustDomain, cs, isTry || level == 1) == []
  {
    if cs != [] {
      var init := cs[..|cs| - 1];
      assert forall i | 0 <= i < |init| :: init[i] == cs[i];
      UntrustedDropsOptedOut(trustDomain, init, isTry, level);
    }
  }

  // ----- artifacts --------------------------------------------------------

  /** The `artifacts` mapping built from the first artifacts: name to path,
      type and a task's expiry, a later artifact replacing an earlier one. */
  function ArtifactMap(arts: seq<ArtifactSpec>, expires: string): map<string, ArtifactOut> {
    if arts == [] then map[]
    else
      var a := arts[|arts| - 1];
      ArtifactMap(arts[..|arts| - 1], expires)[a.name := ArtifactOut(a.path, a.artifactType, expires)]
  }

  /** Every artifact is published under its name, expires with a task, and
      a name used twice keeps the path and type of its last artifact. */
  lemma {:induction false} ArtifactMapContents(arts: seq<ArtifactSpec>, expires: string)
    ensures ArtifactMap(arts, expires).Keys == set a | a in arts :: a.name
    ensures forall n | n in ArtifactMap(arts, expires) :: ArtifactMap(arts, expires)[n].expires == expires
    ensures forall j | 0 <= j < |arts| && (forall l | j < l < |arts| :: arts[l].name != arts[j].name) ::
              ArtifactMap(arts, expires)[arts[j].name] == ArtifactOut(arts[j].path, arts[j].artifactType, expires)
  {
    if arts != [] {
      var init := arts[..|arts| - 1];
      ArtifactMapContents(init, expires);
      assert arts == init + [arts[|arts| - 1]];
      assert forall i | 0 <= i < |init| :: init[i] == arts[i];
    }
  }

  // ----- build_docker_worker_payload --------------------------------------

  /** What the docker-worker builder produces: a task's dependencies (with
      the image-building task, for an in-tree image), the payload and the
      task definition's scopes. */
  datatype Built = Built(dependencies: map<string, string>, payload: DockerPayload, scopes: seq<string>)

  /** `int(level)`, and whether the environment is untrusted. */
  function SkipUntrusted(p: Params): Result<bool> {
    match ParseDecimal(p.level)
    case None => Fail(NotAnInteger(p.level))
    case Some(level) => Ok(p.isTry || level == 1)
  }

  /** `build_docker_worker_payload` on one task, given the scopes and the
      expiry a task definition already holds. The level must be an integer,
      the image and the environment must be there, and the image must be of a
      known kind; everything after that cannot fail. */
  function DockerBuilt(ctx: Context, t: TaskDesc, scopes: seq<string>, expires: string): (r: Result<Built>)
    requires t.worker.DockerWorker?
    ensures r.Fail? <==>
              || ParseDecimal(ctx.params.level).None?
              || t.worker.docker.image.None?
              || ResolveImage(t.worker.docker.image.value).Fail?
              || t.worker.docker.env.None?
    ensures r.Fail? ==>
              r.error == if ParseDecimal(ctx.params.level).None? then NotAnInteger(ctx.params.level)
                         else if t.worker.docker.image.None? then MissingKey("docker-image")
                         else if ResolveImage(t.worker.docker.image.value).Fail?
                         then ResolveImage(t.worker.docker.image.value).error
                         else MissingKey("env")
  {
    var d := t.worker.docker;
    var skip :- SkipUntrusted(ctx.params);
    var spec :- if d.image.Some? then Ok(d.image.value) else Fail(MissingKey("docker-image"));
    var resolved :- ResolveImage(spec);
    var deps := if resolved.dependency.Some? then t.dependencies[DockerImageDependency := resolved.dependency.value]
                else t.dependencies;
    var env :- if d.env.Some? then Ok(d.env.value) else Fail(MissingKey("env"));
    var (payload, scopes') := Assembled(ctx, d, On(t.needsSccache), skip, resolved.image, env, scopes, expires);
    Ok(Built(deps, payload, scopes'))
  }

  /** The payload and the scopes, once the image is resolved. */
  function Assembled(ctx: Context, d: DockerSpec, sccache: bool, skip: bool, image: Value, env: map<string, Value>,
                     scopes: seq<string>, expires: string): (DockerPayload, seq<string>)
  {
    var cache := if d.caches.Some? then Some(CacheMap(ctx.graph.trustDomain, d.caches.value, skip)) else None;
    var cacheScopes := if d.caches.Some? then CacheScopes(ctx.graph.trustDomain, d.caches.value, skip) else [];
    var untrusted := cache.Some? && cache.value != map[] && skip;
    var artifacts := if d.artifacts.Some? then Some(ArtifactMap(d.artifacts.value, expires)) else None;
    (DockerPayload(image, DockerEnv(ctx, env, d, sccache, untrusted), d.command, d.maxRunTime,
                   ExitStatus(d.retryExitStatus, d.purgeCachesExitStatus), artifacts, cache,
                   Features(d, sccache), Capabilities(Devices(d), On(d.privileged))),
     scopes + FeatureScopes(ctx, d, sccache) + cacheScopes)
  }

  /** An in-tree image makes a task depend on its image-building task under
      the very name the payload's task reference points at. */
  lemma InTreeImageReferencesDependency(ctx: Context, t: TaskDesc, scopes: seq<string>, expires: string, name: string)
    requires t.worker.DockerWorker? && t.worker.docker.image == Some(Obj(map["in-tree" := Str(name)]))
    requires DockerBuilt(ctx, t, scopes, expires).Ok?
    ensures var b := DockerBuilt(ctx, t, scopes, expires).value;
            && b.payload.image.Obj? && "taskId" in b.payload.image.fields
            && b.payload.image.fields["taskId"] == Obj(map["task-reference" := Str("<" + DockerImageDependency + ">")])
            && DockerImageDependency in b.dependencies
            && b.dependencies[DockerImageDependency] == "build-docker-image-" + name
  {
  }

  /** The untrusted-caches flag is raised exactly when some cache is mounted
      in an untrusted environment; otherwise a task's own value (if any) is kept. */
  lemma UntrustedCachesFlag(ctx: Context, t: TaskDesc, scopes: seq<string>, expires: string)
    requires t.worker.DockerWorker? && DockerBuilt(ctx, t, scopes, expires).Ok?
    ensures var b := DockerBuilt(ctx, t, scopes, expires).value;
            var d := t.worker.docker;
            var raised := b.payload.cache.Some? && b.payload.cache.value != map[] && SkipUntrusted(ctx.params) == Ok(true);
            && (raised ==> UntrustedCachesVar in b.payload.env && b.payload.env[UntrustedCachesVar] == Str("1"))
            && (!raised ==> (UntrustedCachesVar in b.payload.env <==> UntrustedCachesVar in d.env.value))
            && (!raised && UntrustedCachesVar in d.env.value ==>
                  b.payload.env[UntrustedCachesVar] == d.env.value[UntrustedCachesVar])
  {
  }

  /** With the proxy asked for, directly or through sccache, the payload's
      proxy URL is the one without the trailing slash. */
  lemma ProxyUrlWithoutSlash(ctx: Context, t: TaskDesc, scopes: seq<string>, expires: string)
    requires t.worker.DockerWorker? && DockerBuilt(ctx, t, scopes, expires).Ok?
    requires On(t.worker.docker.taskclusterProxy) || On(t.needsSccache)
    ensures var b := DockerBuilt(ctx, t, scopes, expires).value;
            ProxyUrlVar in b.payload.env && b.payload.env[ProxyUrlVar] == Str("http://taskcluster") &&
            "taskclusterProxy" in b.payload.features
  {
  }

  /** The worker's feature flags, in the source's order: each sets a feature
      and may set an environment variable or append a scope. */
  method SetFlags(ctx: Context, d: DockerSpec, env: map<string, Value>, scopes: seq<string>)
    returns (env': map<string, Value>, features: set<string>, scopes': seq<string>)
    ensures env' == FlagEnv(ctx, env, d)
    ensures features == FlagFeatures(d)
    ensures scopes' == scopes + PtraceScopes(d)
  {
    env' := env[RootUrlVar := Str(ctx.rootUrl)];
    features := {};
    scopes' := scopes;
    if On(d.relengapiProxy) {
      features := features + {"relengAPIProxy"};
    }
    if On(d.taskclusterProxy) {
      features := features + {"taskclusterProxy"};
      env' := env'[ProxyUrlVar := Str("http://taskcluster/")];
    }
    if On(d.allowPtrace) {
      features := features + {"allowPtrace"};
      scopes' := scopes' + ["docker-worker:feature:allowPtrace"];
    }
    if On(d.chainOfTrust) {
      features := features + {"chainOfTrust"};
    }
    if On(d.dockerInDocker) {
      features := features + {"dind"};
    }
  }

  /** sccache, and the proxy URL the proxy feature needs. */
  method SetSccache(ctx: Context, sccache: bool, env: map<string, Value>, features: set<string>, scopes: seq<string>)
    returns (env': map<string, Value>, features': set<string>, scopes': seq<string>)
    ensures features' == features + (if sccache then {"taskclusterProxy"} else {})
    ensures env' == SccacheEnv(env, sccache, "taskclusterProxy" in features')
    ensures scopes' == scopes + SccacheScopes(ctx, sccache)
  {
    features' := features;
    scopes' := scopes;
    if sccache {
      features' := features' + {"taskclusterProxy"};
      scopes' := scopes' +
        ["assume:project:taskcluster:" + ctx.graph.trustDomain + ":level-" + ctx.params.level + "-sccache-buckets"];
      env' := env["USE_SCCACHE" := Str("1")]["SCCACHE_IDLE_TIMEOUT" := Str("0")];
    } else {
      env' := env["SCCACHE_DISABLE" := Str("1")];
    }
    if "taskclusterProxy" in features' {
      env' := env'[ProxyUrlVar := Str("http://taskcluster")];
    }
  }

  /** The capabilities loop over audio and video, then `privileged`. */
  method SetCapabilities(d: DockerSpec, scopes: seq<string>) returns (devices: set<string>, scopes': seq<string>)
    ensures devices == Devices(d)
    ensures scopes' == scopes + CapabilityScopes(d)
  {
    devices := {};
    scopes' := scopes;
    if On(d.loopbackAudio) {
      devices := devices + {"loopbackAudio"};
      scopes' := scopes' + ["docker-worker:capability:device:loopbackAudio"];
    }
    if On(d.loopbackVideo) {
      devices := devices + {"loopbackVideo"};
      scopes' := scopes' + ["docker-worker:capability:device:loopbackVideo"];
    }
    if On(d.privileged) {
      scopes' := scopes' + ["docker-worker:capability:privileged"];
    }
  }

  /** The artifacts loop: one entry per artifact, by name. */
  method GatherArtifacts(arts: seq<ArtifactSpec>, expires: string) returns (m: map<string, ArtifactOut>)
    ensures m == ArtifactMap(arts, expires)
  {
    m := map[];
    for i := 0 to |arts|
      invariant m == ArtifactMap(arts[..i], expires)
    {
      assert arts[..i + 1][..i] == arts[..i];
      m := m[arts[i].name := ArtifactOut(arts[i].path, arts[i].artifactType, expires)];
    }
    assert arts[..|arts|] == arts;
  }

  /** The caches loop: kept caches are mounted under their versioned name and
      granted a scope, in order. */
  method GatherCaches(trustDomain: string, cs: seq<CacheSpec>, skipUntrusted: bool)
    returns (m: map<string, string>, scopes: seq<string>)
    ensures m == CacheMap(trustDomain, cs, skipUntrusted)
    ensures scopes == CacheScopes(trustDomain, cs, skipUntrusted)
  {
    m := map[];
    scopes := [];
    for i := 0 to |cs|
      invariant m == CacheMap(trustDomain, cs[..i], skipUntrusted)
      invariant scopes == CacheScopes(trustDomain, cs[..i], skipUntrusted)
    {
      assert cs[..i + 1][..i] == cs[..i];
      if !(On(cs[i].skipUntrusted) && skipUntrusted) {
        var name := trustDomain + "-" + cs[i].name + "-v3";
        m := m[name := cs[i].mountPoint];
        scopes := scopes + ["docker-worker:cache:" + name];
      }
    }
    assert cs[..|cs|] == cs;
  }

  /** `build_docker_worker_payload`, step by step. */
  method BuildDockerWorkerPayload(ctx: Context, t: TaskDesc, scopes: seq<string>, expires: string) returns (r: Result<Built>)
    requires t.worker.DockerWorker?
    ensures r == DockerBuilt(ctx, t, scopes, expires)
  {
    var d := t.worker.docker;
    var skip :- SkipUntrusted(ctx.params);
    if d.image.None? {
      return Fail(MissingKey("docker-image"));
    }
    var resolved :- ResolveImage(d.image.value);
    var deps := t.dependencies;
    if resolved.dependency.Some? {
      deps := deps[DockerImageDependency := resolved.dependency.value];
    }
    if d.env.None? {
      return Fail(MissingKey("env"));
    }
    var payload, newScopes := AssemblePayload(ctx, d, On(t.needsSccache), skip, resolved.image, d.env.value, scopes, expires);
    r := Ok(Built(deps, payload, newScopes));
  }

  /** The rest of the builder: features, capabilities, artifacts, caches. */
  method AssemblePayload(ctx: Context, d: DockerSpec, sccache: bool, skip: bool, image: Value, env0: map<string, Value>,
                         scopes: seq<string>, expires: string)
    returns (payload: DockerPayload, newScopes: seq<string>)
    ensures (payload, newScopes) == Assembled(ctx, d, sccache, skip, image, env0, scopes, expires)
  {
    var env, features;
    env, features, newScopes := SetFlags(ctx, d, env0, scopes);
    env, features, newScopes := SetSccache(ctx, sccache, env, features, newScopes);
    var devices;
    devices, newScopes := SetCapabilities(d, newScopes);
    var artifacts: Option<map<string, ArtifactOut>> := None;
    if d.artifacts.Some? {
      var m := GatherArtifacts(d.artifacts.value, expires);
      artifacts := Some(m);
    }
    var cache: Option<map<string, string>> := None;
    var cacheScopes: seq<string> := [];
    if d.caches.Some? {
      var m;
      m, cacheScopes := GatherCaches(ctx.graph.trustDomain, d.caches.value, skip);
      cache := Some(m);
    }
    assert newScopes == scopes + FeatureScopes(ctx, d, sccache);
    newScopes := newScopes + cacheScopes;
    if cache.Some? && cache.value != map[] && skip {
      env := env[UntrustedCachesVar := Str("1")];
    }
    payload := DockerPayload(image, env, d.command, d.maxRunTime,
                             ExitStatus(d.retryExitStatus, d.purgeCachesExitStatus), artifacts, cache,
                             features, Capabilities(devices, On(d.privileged)));
  }

  // ----- the registry -----------------------------------------------------

  /** The builders this file registers. */
  datatype Builder = DockerWorkerBuilder | InvalidBuilder | AlwaysOptimizedBuilder

  const PayloadBuilders: map<string, Builder> :=
    map[DockerWorkerName := DockerWorkerBuilder, InvalidName := InvalidBuilder,
        AlwaysOptimizedName := AlwaysOptimizedBuilder]

  /** A worker's builder is registered here exactly for the three
      implementations this file knows, and it is the right one. */
  lemma RegistryMatchesWorker(w: Worker)
    ensures Implementation(w) in PayloadBuilders <==> w.DockerWorker? || w.InvalidWorker? || w.AlwaysOptimizedWorker?
    ensures w.DockerWorker? ==> PayloadBuilders[Implementation(w)] == DockerWorkerBuilder
    ensures w.InvalidWorker? ==> PayloadBuilders[Implementation(w)] == InvalidBuilder
    ensures w.AlwaysOptimizedWorker? ==> PayloadBuilders[Implementation(w)] == AlwaysOptimizedBuilder
  {
    if w.ScriptWorker? {
      match w.kind
      case ScriptworkerSigning =>
      case Beetmover =>
      case BeetmoverPushToRelease =>
      case BeetmoverMaven =>
    }
  }
}
