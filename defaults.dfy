/** The first two stages: `set_defaults` (task.py:486-520) fills absent keys,
    `task_name_from_label` (task.py:524-532) derives the label. */
module Defaults {
  import opened Results
  import opened Json
  import opened Records

  /** `d.setdefault(key, default)` on an optional key. */
  function Filled<T>(o: Option<T>, default: T): Option<T> {
    Some(o.GetOr(default))
  }

  /** `after` is what `setdefault` leaves: the old value if there was one,
      the default otherwise. */
  predicate FilledFrom<T(==)>(before: Option<T>, after: Option<T>, default: T) {
    && after.Some?
    && (before.Some? ==> after == before)
    && (before.None? ==> after == Some(default))
  }

  function DefaultedCache(c: CacheSpec): CacheSpec {
    c.(skipUntrusted := Filled(c.skipUntrusted, false))
  }

  function DefaultedDocker(d: DockerSpec): DockerSpec {
    d.(relengapiProxy := Filled(d.relengapiProxy, false),
       chainOfTrust := Filled(d.chainOfTrust, false),
       taskclusterProxy := Filled(d.taskclusterProxy, false),
       allowPtrace := Filled(d.allowPtrace, false),
       loopbackVideo := Filled(d.loopbackVideo, false),
       loopbackAudio := Filled(d.loopbackAudio, false),
       dockerInDocker := Filled(d.dockerInDocker, false),
       privileged := Filled(d.privileged, false),
       env := Filled(d.env, map[]),
       caches := match d.caches
                 case None => None
                 case Some(cs) => Some(seq(|cs|, i requires 0 <= i < |cs| => DefaultedCache(cs[i]))))
  }

  /** The generic-worker rule: `os-groups` only on Windows. */
  predicate OsGroupsMisused(w: Worker) {
    w.GenericWorker? && w.osGroups.Some? && w.osGroups.value != [] && w.os != Some("windows")
  }

  /** The implementation-specific worker defaults. */
  function DefaultedWorker(w: Worker): Result<Worker> {
    match w
    case DockerWorker(d) => Ok(DockerWorker(DefaultedDocker(d)))
    case GenericWorker(os, env, groups, cot) =>
      var groups' := groups.GetOr([]);
      if groups' != [] && os != Some("windows") then
        if os.None? then Fail(MissingKey("os")) else Fail(OsGroupsNotOnWindows(os.value))
      else Ok(GenericWorker(os, Filled(env, map[]), Some(groups'), Filled(cot, false)))
    case ScriptWorker(k, maxRunTime) => Ok(ScriptWorker(k, Filled(maxRunTime, 600)))
    case PushApk(commit) => Ok(PushApk(Filled(commit, false)))
    case InvalidWorker => Ok(w)
    case AlwaysOptimizedWorker => Ok(w)
    case OtherWorker(_) => Ok(w)
  }

  /** One record through `set_defaults`. */
  function Defaulted(t: TaskDesc): (r: Result<TaskDesc>)
    ensures r.Fail? <==> OsGroupsMisused(t.worker)
    ensures r.Fail? ==>
              r.error == if t.worker.os.None? then MissingKey("os") else OsGroupsNotOnWindows(t.worker.os.value)
    ensures r.Ok? ==>
              && FilledFrom(t.alwaysTarget, r.value.alwaysTarget, false)
              && FilledFrom(t.optimization, r.value.optimization, Null)
              && FilledFrom(t.needsSccache, r.value.needsSccache, false)
              && Implementation(r.value.worker) == Implementation(t.worker)
              && r.value == t.(alwaysTarget := r.value.alwaysTarget,
                               optimization := r.value.optimization,
                               needsSccache := r.value.needsSccache,
                               worker := r.value.worker)
  {
    var w :- DefaultedWorker(t.worker);
    Ok(t.(alwaysTarget := Filled(t.alwaysTarget, false),
          optimization := Filled(t.optimization, Null),
          needsSccache := Filled(t.needsSccache, false),
          worker := w))
  }

  /** The docker-worker defaults only fill what is absent: every flag present
      keeps its value, every absent flag becomes False, each cache keeps its
      name and mount point while gaining `skip-untrusted` only when it lacks it,
      and every other key (the image, artifacts, command, run time and both exit
      status lists) is left as it was. */
  lemma DockerDefaultsFillOnlyAbsent(t: TaskDesc)
    requires t.worker.DockerWorker?
    ensures Defaulted(t).Ok? && Defaulted(t).value.worker.DockerWorker?
    ensures var d, d' := t.worker.docker, Defaulted(t).value.worker.docker;
            && FilledFrom(d.relengapiProxy, d'.relengapiProxy, false)
            && FilledFrom(d.chainOfTrust, d'.chainOfTrust, false)
            && FilledFrom(d.taskclusterProxy, d'.taskclusterProxy, false)
            && FilledFrom(d.allowPtrace, d'.allowPtrace, false)
            && FilledFrom(d.loopbackVideo, d'.loopbackVideo, false)
            && FilledFrom(d.loopbackAudio, d'.loopbackAudio, false)
            && FilledFrom(d.dockerInDocker, d'.dockerInDocker, false)
            && FilledFrom(d.privileged, d'.privileged, false)
            && FilledFrom(d.env, d'.env, map[])
            && d'.image == d.image && d'.artifacts == d.artifacts && d'.command == d.command
            && d'.maxRunTime == d.maxRunTime
            && d'.retryExitStatus == d.retryExitStatus
            && d'.purgeCachesExitStatus == d.purgeCachesExitStatus
            && d' == d.(relengapiProxy := d'.relengapiProxy, chainOfTrust := d'.chainOfTrust,
                        taskclusterProxy := d'.taskclusterProxy, allowPtrace := d'.allowPtrace,
                        loopbackVideo := d'.loopbackVideo, loopbackAudio := d'.loopbackAudio,
                        dockerInDocker := d'.dockerInDocker, privileged := d'.privileged,
                        env := d'.env, caches := d'.caches)
            && (d.caches.None? <==> d'.caches.None?)
            && (d.caches.Some? ==>
                  && |d'.caches.value| == |d.caches.value|
                  && forall i | 0 <= i < |d.caches.value| ::
                       var c, c' := d.caches.value[i], d'.caches.value[i];
                       && c'.name == c.name && c'.mountPoint == c.mountPoint && c'.cacheType == c.cacheType
                       && FilledFrom(c.skipUntrusted, c'.skipUntrusted, false))
  {
  }

  /** The other workers' defaults are filled only where absent as well:
      generic-worker `env`, `os-groups` and `chain-of-trust` (after the
      Windows check, which reads `os` and raises a KeyError when it is
      missing), the scriptworker kinds' `max-run-time` of 600, push-apk's
      `commit`; every other implementation is left as it is. */
  lemma WorkerDefaultsFillOnlyAbsent(t: TaskDesc)
    requires !t.worker.DockerWorker?
    ensures var w, r := t.worker, Defaulted(t);
            && (w.GenericWorker? ==>
                  && (r.Fail? <==> w.osGroups.Some? && w.osGroups.value != [] && w.os != Some("windows"))
                  && (r.Ok? ==>
                        var w' := r.value.worker;
                        && w'.GenericWorker? && w'.os == w.os
                        && FilledFrom(w.env, w'.env, map[])
                        && FilledFrom(w.osGroups, w'.osGroups, [])
                        && FilledFrom(w.chainOfTrust, w'.chainOfTrust, false)))
            && (w.ScriptWorker? ==>
                  r.Ok? && r.value.worker.ScriptWorker? && r.value.worker.kind == w.kind &&
                  FilledFrom(w.maxRunTime, r.value.worker.maxRunTime, 600))
            && (w.PushApk? ==>
                  r.Ok? && r.value.worker.PushApk? && FilledFrom(w.commit, r.value.worker.commit, false))
            && (w.InvalidWorker? || w.AlwaysOptimizedWorker? || w.OtherWorker? ==>
                  r.Ok? && r.value.worker == w)
  {
  }

  /** Running the stage twice changes nothing more: every default is already there. */
  lemma DefaultedIdempotent(t: TaskDesc)
    requires Defaulted(t).Ok?
    ensures Defaulted(Defaulted(t).value) == Defaulted(t)
  {
    var t' := Defaulted(t).value;
    match t.worker
    case DockerWorker(d) =>
      var d' := DefaultedDocker(d);
      assert DefaultedDocker(d') == d' by {
        if d.caches.Some? {
          var cs := d'.caches.value;
          assert seq(|cs|, i requires 0 <= i < |cs| => DefaultedCache(cs[i])) == cs;
        }
      }
    case _ =>
  }

  /** `set_defaults`, one record at a time: the worker's caches are given
      `skip-untrusted` in a loop, as the source does. */
  method SetDefaults(task: TaskDesc) returns (r: Result<TaskDesc>)
    ensures r == Defaulted(task)
  {
    var t := task.(alwaysTarget := Filled(task.alwaysTarget, false),
                   optimization := Filled(task.optimization, Null),
                   needsSccache := Filled(task.needsSccache, false));
    match t.worker {
      case DockerWorker(d) =>
        var d' := d.(caches := None);
        d' := DefaultedDocker(d');
        if d.caches.Some? {
          var cs := d.caches.value;
          var done: seq<CacheSpec> := [];
          for i := 0 to |cs|
            invariant |done| == i
            invariant forall j | 0 <= j < i :: done[j] == DefaultedCache(cs[j])
          {
            done := done + [DefaultedCache(cs[i])];
          }
          assert done == seq(|cs|, i requires 0 <= i < |cs| => DefaultedCache(cs[i]));
          d' := d'.(caches := Some(done));
        }
        r := Ok(t.(worker := DockerWorker(d')));
      case GenericWorker(os, env, groups, cot) =>
        var groups' := if groups.Some? then groups.value else [];
        if groups' != [] && os != Some("windows") {
          if os.None? {
            r := Fail(MissingKey("os"));
          } else {
            r := Fail(OsGroupsNotOnWindows(os.value));
          }
          return;
        }
        r := Ok(t.(worker := GenericWorker(os, Filled(env, map[]), Some(groups'), Filled(cot, false))));
      case ScriptWorker(k, maxRunTime) =>
        r := Ok(t.(worker := ScriptWorker(k, Filled(maxRunTime, 600))));
      case PushApk(commit) =>
        r := Ok(t.(worker := PushApk(Filled(commit, false))));
      case InvalidWorker =>
        r := Ok(t);
      case AlwaysOptimizedWorker =>
        r := Ok(t);
      case OtherWorker(_) =>
        r := Ok(t);
    }
  }

  // ----- task_name_from_label ---------------------------------------------

  /** One record through `task_name_from_label`. */
  function Named(kind: string, t: TaskDesc): (r: Result<TaskDesc>)
    ensures r.Fail? <==> t.taskLabel.None? && t.name.None?
    ensures r.Fail? ==> r.error == NeitherNameNorLabel
    ensures r.Ok? && t.taskLabel.Some? ==> r.value.taskLabel == t.taskLabel
    ensures r.Ok? && t.taskLabel.None? ==> r.value.taskLabel == Some(kind + "-" + t.name.value)
    ensures r.Ok? ==> (r.value.name.None? <==> t.name.None? || t.name.value != "")
    ensures r.Ok? ==> r.value.name.Some? ==> r.value.name == t.name
    ensures r.Ok? ==> r.value == t.(taskLabel := r.value.taskLabel, name := r.value.name)
  {
    if t.taskLabel.None? && t.name.None? then Fail(NeitherNameNorLabel)
    else
      var labelled := if t.taskLabel.None? then t.(taskLabel := Some(kind + "-" + t.name.value)) else t;
      if t.name.Some? && t.name.value != "" then Ok(labelled.(name := None)) else Ok(labelled)
  }

  /** A derived label carries the kind and then the name: the name is what
      follows the first `-` after the kind. */
  lemma DerivedLabelNamesTask(kind: string, t: TaskDesc)
    requires t.taskLabel.None? && t.name.Some?
    ensures Named(kind, t).Ok?
    ensures var l := Named(kind, t).value.taskLabel.value;
            |l| == |kind| + 1 + |t.name.value| && l[..|kind|] == kind && l[|kind|] == '-' &&
            l[|kind| + 1..] == t.name.value
  {
  }
}
