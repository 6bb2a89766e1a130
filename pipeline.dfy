/** The transform sequence of task.py: every stage from `set_defaults` to
    `check_task_dependencies`, in the order they are added, each run over the
    whole stream of records. A stage yields every record it is given, in
    order, or stops the run at the first record it fails on. */
module Pipeline {
  import opened Results
  import opened Records
  import opened Defaults
  import opened Indexing
  import opened Build
  import opened Checks
  import Payloads
  import opened Validation

  /** A stage as a map over the stream: every record's outcome, in order,
      or the first failure. */
  function Stage<A, B>(f: A -> Result<B>, xs: seq<A>): Result<seq<B>> {
    Collect(Outcomes(f, xs))
  }

  /** Every record's own outcome, in order. */
  function Outcomes<A, B>(f: A -> Result<B>, xs: seq<A>): seq<Result<B>> {
    seq(|xs|, i requires 0 <= i < |xs| => f(xs[i]))
  }

  /** The next stage, run on the records the previous one yielded. */
  function Then<A, B>(r: Result<seq<A>>, f: A -> Result<B>): Result<seq<B>> {
    match r
    case Fail(e) => Fail(e)
    case Ok(xs) => Stage(f, xs)
  }

  /** One record through two steps in a row. */
  function Compose<A, B, C>(f: A -> Result<B>, g: B -> Result<C>): A -> Result<C> {
    a => match f(a)
         case Fail(e) => Fail(e)
         case Ok(b) => g(b)
  }

  // ----- the stages, one record at a time ---------------------------------

  function DefaultsStep(): TaskDesc -> Result<TaskDesc> {
    t => Defaulted(t)
  }

  function LabelStep(ctx: Context): TaskDesc -> Result<TaskDesc> {
    t => Named(ctx.kind, t)
  }

  function ValidateStep(ctx: Context): TaskDesc -> Result<TaskDesc> {
    t => Validated(ctx, t)
  }

  function IndexStep(ctx: Context): TaskDesc -> Result<TaskDesc> {
    t => Indexed(ctx, t)
  }

  function BuildStep(ctx: Context): TaskDesc -> Result<TaskOut> {
    t => TaskBuilt(ctx, t)
  }

  function ChainOfTrustStep(): TaskOut -> Result<TaskOut> {
    o => ChainOfTrust(o)
  }

  function IdentifierStep(): TaskOut -> Result<TaskOut> {
    o => IdentifiersChecked(o)
  }

  function DependencyStep(ctx: Context): TaskOut -> Result<TaskOut> {
    o => DependenciesChecked(ctx.maxDependencies, ctx.kind, o)
  }

  /** The whole sequence, stage after stage. */
  function Transformed(ctx: Context, ts: seq<TaskDesc>): Result<seq<TaskOut>> {
    var described := Then(Then(Then(Stage(DefaultsStep(), ts), LabelStep(ctx)), ValidateStep(ctx)), IndexStep(ctx));
    Then(Then(Then(Then(described, BuildStep(ctx)), ChainOfTrustStep()), IdentifierStep()), DependencyStep(ctx))
  }

  /** One record through every stage. */
  function RecordPath(ctx: Context): TaskDesc -> Result<TaskOut> {
    var described := Compose(Compose(Compose(DefaultsStep(), LabelStep(ctx)), ValidateStep(ctx)), IndexStep(ctx));
    Compose(Compose(Compose(Compose(described, BuildStep(ctx)), ChainOfTrustStep()), IdentifierStep()), DependencyStep(ctx))
  }

  // ----- laziness ---------------------------------------------------------

  /** Two runs that succeed together and then yield the same records. */
  ghost predicate Agree<T>(r1: Result<T>, r2: Result<T>) {
    (r1.Ok? <==> r2.Ok?) && (r1.Ok? ==> r1 == r2)
  }

  /** Running two stages one after the other over the stream, or running
      every record through both before the next record starts, succeeds in
      the same cases with the same records. */
  lemma ThenStage<A, B, C>(f: A -> Result<B>, g: B -> Result<C>, xs: seq<A>)
    ensures Agree(Then(Stage(f, xs), g), Stage(Compose(f, g), xs))
  {
    var rs := Outcomes(f, xs);
    var cs := Outcomes(Compose(f, g), xs);
    CollectOk(rs);
    CollectOk(cs);
    if Collect(rs).Ok? {
      var ys := Collect(rs).value;
      var gs := Outcomes(g, ys);
      CollectOk(gs);
      forall i | 0 <= i < |xs|
        ensures cs[i] == gs[i]
      {
        assert f(xs[i]) == Ok(ys[i]);
        assert Compose(f, g)(xs[i]) == g(ys[i]);
      }
      assert cs == gs;
    } else {
      var k :| 0 <= k < |rs| && rs[k].Fail?;
      assert rs[k] == f(xs[k]);
      assert cs[k] == Compose(f, g)(xs[k]);
      assert cs[k].Fail?;
      assert Then(Stage(f, xs), g).Fail?;
    }
  }

  lemma ThenAgree<A, B>(r1: Result<seq<A>>, r2: Result<seq<A>>, g: A -> Result<B>)
    requires Agree(r1, r2)
    ensures Agree(Then(r1, g), Then(r2, g))
  {
  }

  /** The source's stages are generators, so each record passes through
      every stage before the next one starts. Running them stage by stage
      instead succeeds exactly when that does, with the same records. */
  lemma {:induction false} StageByStageIsRecordByRecord(ctx: Context, ts: seq<TaskDesc>)
    ensures Agree(Transformed(ctx, ts), Stage(RecordPath(ctx), ts))
  {
    var d := DefaultsStep();
    var l := LabelStep(ctx);
    var v := ValidateStep(ctx);
    var x := IndexStep(ctx);
    var b := BuildStep(ctx);
    var c := ChainOfTrustStep();
    var n := IdentifierStep();
    var p := DependencyStep(ctx);
    var s1 := Then(Stage(d, ts), l);
    ThenStage(d, l, ts);
    var dl := Compose(d, l);
    ThenAgree(s1, Stage(dl, ts), v);
    ThenStage(dl, v, ts);
    var s2 := Then(s1, v);
    var dlv := Compose(dl, v);
    ThenAgree(s2, Stage(dlv, ts), x);
    ThenStage(dlv, x, ts);
    var s3 := Then(s2, x);
    var dlvx := Compose(dlv, x);
    ThenAgree(s3, Stage(dlvx, ts), b);
    ThenStage(dlvx, b, ts);
    var s4 := Then(s3, b);
    var upToB := Compose(dlvx, b);
    ThenAgree(s4, Stage(upToB, ts), c);
    ThenStage(upToB, c, ts);
    var s5 := Then(s4, c);
    var upToC := Compose(upToB, c);
    ThenAgree(s5, Stage(upToC, ts), n);
    ThenStage(upToC, n, ts);
    var s6 := Then(s5, n);
    var upToN := Compose(upToC, n);
    ThenAgree(s6, Stage(upToN, ts), p);
    ThenStage(upToN, p, ts);
  }

  /** A successful run yields one task per description, in order, each the
      description's own path through the stages. */
  lemma TransformedPerRecord(ctx: Context, ts: seq<TaskDesc>)
    requires Transformed(ctx, ts).Ok?
    ensures |Transformed(ctx, ts).value| == |ts|
    ensures forall i | 0 <= i < |ts| :: RecordPath(ctx)(ts[i]) == Ok(Transformed(ctx, ts).value[i])
  {
    StageByStageIsRecordByRecord(ctx, ts);
    assert Transformed(ctx, ts) == Collect(Outcomes(RecordPath(ctx), ts));
    CollectOk(Outcomes(RecordPath(ctx), ts));
  }

  // ----- the stages over the stream ---------------------------------------

  method RunSetDefaults(ts: seq<TaskDesc>) returns (r: Result<seq<TaskDesc>>)
    ensures r == Stage(DefaultsStep(), ts)
  {
    ghost var outcomes := Outcomes(DefaultsStep(), ts);
    var out: seq<TaskDesc> := [];
    for i := 0 to |ts|
      invariant |out| == i
      invariant forall j | 0 <= j < i :: outcomes[j] == Ok(out[j])
    {
      assert outcomes[i] == DefaultsStep()(ts[i]);
      assert DefaultsStep()(ts[i]) == Defaulted(ts[i]);
      var one := SetDefaults(ts[i]);
      if one.Fail? {
        CollectFirstFailure(outcomes, i);
        return Fail(one.error);
      }
      Extend(outcomes, out, one.value);
      out := out + [one.value];
    }
    CollectAll(outcomes, out);
    r := Ok(out);
  }

  method RunTaskNameFromLabel(ctx: Context, ts: seq<TaskDesc>) returns (r: Result<seq<TaskDesc>>)
    ensures r == Stage(LabelStep(ctx), ts)
  {
    ghost var outcomes := Outcomes(LabelStep(ctx), ts);
    var out: seq<TaskDesc> := [];
    for i := 0 to |ts|
      invariant |out| == i
      invariant forall j | 0 <= j < i :: outcomes[j] == Ok(out[j])
    {
      assert outcomes[i] == LabelStep(ctx)(ts[i]);
      assert LabelStep(ctx)(ts[i]) == Named(ctx.kind, ts[i]);
      var t := ts[i];
      if t.taskLabel.None? && t.name.None? {
        CollectFirstFailure(outcomes, i);
        return Fail(NeitherNameNorLabel);
      }
      if t.taskLabel.None? {
        t := t.(taskLabel := Some(ctx.kind + "-" + t.name.value));
      }
      if t.name.Some? && t.name.value != "" {
        t := t.(name := None);
      }
      Extend(outcomes, out, t);
      out := out + [t];
    }
    CollectAll(outcomes, out);
    r := Ok(out);
  }

  method RunValidate(ctx: Context, ts: seq<TaskDesc>) returns (r: Result<seq<TaskDesc>>)
    ensures r == Stage(ValidateStep(ctx), ts)
  {
    ghost var outcomes := Outcomes(ValidateStep(ctx), ts);
    var out: seq<TaskDesc> := [];
    for i := 0 to |ts|
      invariant |out| == i
      invariant forall j | 0 <= j < i :: outcomes[j] == Ok(out[j])
    {
      assert outcomes[i] == ValidateStep(ctx)(ts[i]);
      assert ValidateStep(ctx)(ts[i]) == Validated(ctx, ts[i]);
      var t := ts[i];
      if !WellFormed(t) {
        CollectFirstFailure(outcomes, i);
        return Fail(SchemaViolation(t.taskLabel.GetOr("?no-label?")));
      }
      var name := Implementation(t.worker);
      if name !in Payloads.PayloadBuilders && name !in ctx.externalBuilders {
        CollectFirstFailure(outcomes, i);
        return Fail(UnknownImplementation(name));
      }
      Extend(outcomes, out, t);
      out := out + [t];
    }
    CollectAll(outcomes, out);
    r := Ok(out);
  }

  method RunAddIndexRoutes(ctx: Context, ts: seq<TaskDesc>) returns (r: Result<seq<TaskDesc>>)
    ensures r == Stage(IndexStep(ctx), ts)
  {
    ghost var outcomes := Outcomes(IndexStep(ctx), ts);
    var out: seq<TaskDesc> := [];
    for i := 0 to |ts|
      invariant |out| == i
      invariant forall j | 0 <= j < i :: outcomes[j] == Ok(out[j])
    {
      assert outcomes[i] == IndexStep(ctx)(ts[i]);
      assert IndexStep(ctx)(ts[i]) == Indexed(ctx, ts[i]);
      var one := AddIndexRoutes(ctx, ts[i]);
      if one.Fail? {
        CollectFirstFailure(outcomes, i);
        return Fail(one.error);
      }
      Extend(outcomes, out, one.value);
      out := out + [one.value];
    }
    CollectAll(outcomes, out);
    r := Ok(out);
  }

  /** One more record yielded, in order. */
  lemma Extend<T>(outcomes: seq<Result<T>>, out: seq<T>, v: T)
    requires |out| < |outcomes| && outcomes[|out|] == Ok(v)
    requires forall j | 0 <= j < |out| :: outcomes[j] == Ok(out[j])
    ensures forall j | 0 <= j < |out| + 1 :: outcomes[j] == Ok((out + [v])[j])
  {
  }

  lemma BuildOutcome(ctx: Context, ts: seq<TaskDesc>, i: nat)
    requires i < |ts|
    ensures Outcomes(BuildStep(ctx), ts)[i] == TaskBuilt(ctx, ts[i])
  {
    assert Outcomes(BuildStep(ctx), ts)[i] == BuildStep(ctx)(ts[i]);
  }

  method RunBuildTask(ctx: Context, ts: seq<TaskDesc>) returns (r: Result<seq<TaskOut>>)
    ensures r == Stage(BuildStep(ctx), ts)
  {
    ghost var outcomes := Outcomes(BuildStep(ctx), ts);
    var out: seq<TaskOut> := [];
    for i := 0 to |ts|
      invariant |out| == i
      invariant forall j | 0 <= j < i :: outcomes[j] == Ok(out[j])
    {
      BuildOutcome(ctx, ts, i);
      var one := BuildTask(ctx, ts[i]);
      if one.Fail? {
        CollectFirstFailure(outcomes, i);
        return Fail(one.error);
      }
      Extend(outcomes, out, one.value);
      out := out + [one.value];
    }
    CollectAll(outcomes, out);
    r := Ok(out);
  }

  method RunChainOfTrust(os: seq<TaskOut>) returns (r: Result<seq<TaskOut>>)
    ensures r == Stage(ChainOfTrustStep(), os)
  {
    ghost var outcomes := Outcomes(ChainOfTrustStep(), os);
    var out: seq<TaskOut> := [];
    for i := 0 to |os|
      invariant |out| == i
      invariant forall j | 0 <= j < i :: outcomes[j] == Ok(out[j])
    {
      assert outcomes[i] == ChainOfTrustStep()(os[i]);
      assert ChainOfTrustStep()(os[i]) == ChainOfTrust(os[i]);
      var one := ChainOfTrust(os[i]);
      if one.Fail? {
        CollectFirstFailure(outcomes, i);
        return Fail(one.error);
      }
      Extend(outcomes, out, one.value);
      out := out + [one.value];
    }
    CollectAll(outcomes, out);
    r := Ok(out);
  }

  method RunCheckTaskIdentifiers(os: seq<TaskOut>) returns (r: Result<seq<TaskOut>>)
    ensures r == Stage(IdentifierStep(), os)
  {
    ghost var outcomes := Outcomes(IdentifierStep(), os);
    var out: seq<TaskOut> := [];
    for i := 0 to |os|
      invariant |out| == i
      invariant forall j | 0 <= j < i :: outcomes[j] == Ok(out[j])
    {
      assert outcomes[i] == IdentifierStep()(os[i]);
      assert IdentifierStep()(os[i]) == IdentifiersChecked(os[i]);
      var one := CheckTaskIdentifiers(os[i]);
      if one.Fail? {
        CollectFirstFailure(outcomes, i);
        return Fail(one.error);
      }
      Extend(outcomes, out, one.value);
      out := out + [one.value];
    }
    CollectAll(outcomes, out);
    r := Ok(out);
  }

  method RunCheckTaskDependencies(ctx: Context, os: seq<TaskOut>) returns (r: Result<seq<TaskOut>>)
    ensures r == Stage(DependencyStep(ctx), os)
  {
    ghost var outcomes := Outcomes(DependencyStep(ctx), os);
    var out: seq<TaskOut> := [];
    for i := 0 to |os|
      invariant |out| == i
      invariant forall j | 0 <= j < i :: outcomes[j] == Ok(out[j])
    {
      assert outcomes[i] == DependencyStep(ctx)(os[i]);
      assert DependencyStep(ctx)(os[i]) == DependenciesChecked(ctx.maxDependencies, ctx.kind, os[i]);
      var o := os[i];
      if |o.dependencies| > ctx.maxDependencies {
        CollectFirstFailure(outcomes, i);
        return Fail(TooManyDependencies(ctx.kind, o.taskLabel, |o.dependencies|));
      }
      Extend(outcomes, out, o);
      out := out + [o];
    }
    CollectAll(outcomes, out);
    r := Ok(out);
  }

  /** The transform sequence over a kind's task descriptions. */
  method Transform(ctx: Context, ts: seq<TaskDesc>) returns (r: Result<seq<TaskOut>>)
    ensures r == Transformed(ctx, ts)
  {
    var defaulted :- RunSetDefaults(ts);
    var labelled :- RunTaskNameFromLabel(ctx, defaulted);
    var validated :- RunValidate(ctx, labelled);
    var indexed :- RunAddIndexRoutes(ctx, validated);
    var built :- RunBuildTask(ctx, indexed);
    var attested :- RunChainOfTrust(built);
    var identified :- RunCheckTaskIdentifiers(attested);
    r := RunCheckTaskDependencies(ctx, identified);
  }
}
