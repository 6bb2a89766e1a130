/** The index stage: `add_index_routes` (task.py:569-596) records the index
    rank under `extra.index.rank` and hands tasks with an `index` block to their
    index builder; the only builder, `generic` (task.py:548-566), checks the
    product (`verify_index`, task.py:222-225) and appends the four V2 routes. */
module Indexing {
  import opened Results
  import opened Json
  import opened Records
  import opened Text

  // ----- the rank ---------------------------------------------------------

  /** The tier the default ranking looks at: 3 for a task without treeherder. */
  function RankingTier(t: TaskDesc): int {
    if t.treeherder.Some? then t.treeherder.value.tier else 3
  }

  /** `index.get('rank', 'by-tier')`, with `{}` for an absent index. */
  function RankRule(t: TaskDesc): Rank {
    if t.index.Some? then t.index.value.rank.GetOr(ByTier) else ByTier
  }

  /** The value stored under `extra.index.rank`. */
  function IndexRank(t: TaskDesc, buildDate: int): int {
    match RankRule(t)
    case ByTier => if RankingTier(t) > 1 then 0 else buildDate
    case ByBuildDate => buildDate
    case Fixed(n) => n
  }

  /** The default ranking sorts every tier-2 or tier-3 build (and every build
      without treeherder) below every tier-1 build of a later-than-epoch push. */
  lemma TierOneRanksAbove(u: TaskDesc, v: TaskDesc, buildDate: int)
    requires RankRule(u) == ByTier && RankRule(v) == ByTier
    requires RankingTier(u) <= 1 && RankingTier(v) > 1
    requires buildDate > 0
    ensures IndexRank(u, buildDate) > IndexRank(v, buildDate)
  {
  }

  /** A task without treeherder information is ranked as tier 3: zero under the
      default rule. */
  lemma UnannotatedRanksZero(t: TaskDesc, buildDate: int)
    requires t.treeherder.None? && RankRule(t) == ByTier
    ensures IndexRank(t, buildDate) == 0
  {
  }

  /** `build_date` and integer ranks ignore the tier: changing the treeherder
      block does not move a task in the index. */
  lemma ExplicitRankIgnoresTier(t: TaskDesc, th: Option<TreeherderSpec>, buildDate: int)
    requires RankRule(t) != ByTier
    ensures IndexRank(t.(treeherder := th), buildDate) == IndexRank(t, buildDate)
    ensures RankRule(t) == ByBuildDate ==> IndexRank(t, buildDate) == buildDate
    ensures RankRule(t).Fixed? ==> IndexRank(t, buildDate) == RankRule(t).n
  {
  }

  // ----- the generic index builder ----------------------------------------

  /** `index.{trust-domain}.v2.{project}` followed by `rest`. */
  function RouteHead(rest: string): string {
    FieldAfter("index.", "trust-domain", FieldAfter(".v2.", "project", rest))
  }

  /** `<lit>{product}.{job-name}`, the end of every template. */
  function ProductJob(lit: string): string {
    FieldAfter(lit, "product", FieldAfter(".", "job-name", ""))
  }

  /** The four route templates, in order:
      `index.{trust-domain}.v2.{project}.latest.{product}.{job-name}`,
      `index.{trust-domain}.v2.{project}.pushdate.{build_date_long}.{product}.{job-name}`,
      `index.{trust-domain}.v2.{project}.pushlog-id.{pushlog_id}.{product}.{job-name}` and
      `index.{trust-domain}.v2.{project}.revision.{branch_rev}.{product}.{job-name}`,
      assembled from their literal runs and fields. */
  const V2RouteTemplates: seq<string> := [
    RouteHead(ProductJob(".latest.")),
    RouteHead(FieldAfter(".pushdate.", "build_date_long", ProductJob("."))),
    RouteHead(FieldAfter(".pushlog-id.", "pushlog_id", ProductJob("."))),
    RouteHead(FieldAfter(".revision.", "branch_rev", ProductJob(".")))
  ]

  /** The substitutions: the parameters plus the index's names, the long
      build date, the trust domain and the branch revision (`head_rev`). */
  function Subs(ctx: Context, idx: IndexSpec): map<string, string> {
    var p := ctx.params;
    map["level" := p.level, "project" := p.project, "owner" := p.owner,
        "head_rev" := p.headRev, "pushlog_id" := p.pushlogId,
        "job-name" := idx.jobName, "build_date_long" := ctx.buildDateLong(p.buildDate),
        "product" := idx.product, "trust-domain" := ctx.graph.trustDomain,
        "branch_rev" := p.headRev]
  }

  /** `index.<trust domain>.v2.<project>` followed by `rest`. */
  function RouteText(ctx: Context, rest: string): string {
    "index." + ctx.graph.trustDomain + (".v2." + ctx.params.project + rest)
  }

  /** `<lit><product>.<job name>`. */
  function EndText(lit: string, idx: IndexSpec): string {
    lit + idx.product + ("." + idx.jobName)
  }

  /** The four routes, written out: latest, by push date, by pushlog id and by
      revision, each under the trust domain and project and ending in the
      product and job name. */
  function V2Routes(ctx: Context, idx: IndexSpec): seq<string> {
    [RouteText(ctx, EndText(".latest.", idx)),
     RouteText(ctx, ".pushdate." + ctx.buildDateLong(ctx.params.buildDate) + EndText(".", idx)),
     RouteText(ctx, ".pushlog-id." + ctx.params.pushlogId + EndText(".", idx)),
     RouteText(ctx, ".revision." + ctx.params.headRev + EndText(".", idx))]
  }

  /** Every template formatted with the substitutions, or the first failure. */
  function FormattedRoutes(subs: map<string, string>): Result<seq<string>> {
    Collect(seq(|V2RouteTemplates|, i requires 0 <= i < |V2RouteTemplates| => Format(V2RouteTemplates[i], subs)))
  }

  lemma FormatProductJob(lit: string, ctx: Context, idx: IndexSpec)
    requires BraceFree(lit)
    ensures Format(ProductJob(lit), Subs(ctx, idx)) == Ok(EndText(lit, idx))
  {
    var subs := Subs(ctx, idx);
    assert Format("", subs) == Ok([]);
    FormatFieldAfterOk(".", "job-name", "", subs, []);
    assert "." + idx.jobName + [] == "." + idx.jobName;
    FormatFieldAfterOk(lit, "product", FieldAfter(".", "job-name", ""), subs, "." + idx.jobName);
  }

  lemma FormatRouteHead(rest: string, ctx: Context, idx: IndexSpec, s: string)
    requires Format(rest, Subs(ctx, idx)) == Ok(s)
    ensures Format(RouteHead(rest), Subs(ctx, idx)) == Ok(RouteText(ctx, s))
  {
    var subs := Subs(ctx, idx);
    FormatFieldAfterOk(".v2.", "project", rest, subs, s);
    FormatFieldAfterOk("index.", "trust-domain", FieldAfter(".v2.", "project", rest), subs, ".v2." + ctx.params.project + s);
  }

  /** A template with a middle field: `...{project}<mid>{field}.{product}.{job-name}`. */
  lemma FormatMiddleRoute(mid: string, field: string, ctx: Context, idx: IndexSpec)
    requires BraceFree(mid) && BraceFree(field) && field in Subs(ctx, idx)
    ensures Format(RouteHead(FieldAfter(mid, field, ProductJob("."))), Subs(ctx, idx)) ==
            Ok(RouteText(ctx, mid + Subs(ctx, idx)[field] + EndText(".", idx)))
  {
    FormatProductJob(".", ctx, idx);
    FormatFieldAfterOk(mid, field, ProductJob("."), Subs(ctx, idx), EndText(".", idx));
    FormatRouteHead(FieldAfter(mid, field, ProductJob(".")), ctx, idx, mid + Subs(ctx, idx)[field] + EndText(".", idx));
  }

  /** Formatting template `i` gives route `i`. */
  lemma V2RouteFormatted(ctx: Context, idx: IndexSpec, i: nat)
    requires i < |V2RouteTemplates|
    ensures Format(V2RouteTemplates[i], Subs(ctx, idx)) == Ok(V2Routes(ctx, idx)[i])
  {
    if i == 0 {
      FormatProductJob(".latest.", ctx, idx);
      FormatRouteHead(ProductJob(".latest."), ctx, idx, EndText(".latest.", idx));
    } else if i == 1 {
      FormatMiddleRoute(".pushdate.", "build_date_long", ctx, idx);
    } else if i == 2 {
      FormatMiddleRoute(".pushlog-id.", "pushlog_id", ctx, idx);
    } else {
      FormatMiddleRoute(".revision.", "branch_rev", ctx, idx);
    }
  }

  /** Formatting the templates gives exactly the routes written out above. */
  lemma V2RoutesFormatted(ctx: Context, idx: IndexSpec)
    ensures FormattedRoutes(Subs(ctx, idx)) == Ok(V2Routes(ctx, idx))
  {
    var subs := Subs(ctx, idx);
    var outcomes := seq(|V2RouteTemplates|, i requires 0 <= i < |V2RouteTemplates| => Format(V2RouteTemplates[i], subs));
    forall i | 0 <= i < |outcomes| ensures outcomes[i] == Ok(V2Routes(ctx, idx)[i]) {
      V2RouteFormatted(ctx, idx, i);
    }
    CollectAll(outcomes, V2Routes(ctx, idx));
  }

  /** `add_generic_index_routes` on one task: an unconfigured product is an
      error; otherwise the four V2 routes follow the existing ones, in order. */
  function GenericIndexed(ctx: Context, t: TaskDesc): (r: Result<TaskDesc>)
    requires t.index.Some?
    ensures r.Ok? <==> t.index.value.product in ctx.graph.indexProducts
    ensures r.Fail? ==> r.error == UnsupportedIndexProduct(t.index.value.product)
    ensures r.Ok? ==> r.value == t.(routes := t.routes + V2Routes(ctx, t.index.value))
  {
    var idx := t.index.value;
    if idx.product !in ctx.graph.indexProducts then Fail(UnsupportedIndexProduct(idx.product))
    else
      V2RoutesFormatted(ctx, idx);
      Ok(t.(routes := t.routes + FormattedRoutes(Subs(ctx, idx)).value))
  }

  /** `add_generic_index_routes`: the routes are formatted and appended one
      template at a time. */
  method AddGenericIndexRoutes(ctx: Context, task: TaskDesc) returns (r: Result<TaskDesc>)
    requires task.index.Some?
    ensures r == GenericIndexed(ctx, task)
  {
    var idx := task.index.value;
    if idx.product !in ctx.graph.indexProducts {
      return Fail(UnsupportedIndexProduct(idx.product));
    }
    var subs := Subs(ctx, idx);
    V2RoutesFormatted(ctx, idx);
    var routes := task.routes;
    for i := 0 to |V2RouteTemplates|
      invariant routes == task.routes + V2Routes(ctx, idx)[..i]
    {
      V2RouteFormatted(ctx, idx, i);
      routes := routes + [Format(V2RouteTemplates[i], subs).value];
      assert V2Routes(ctx, idx)[..i + 1] == V2Routes(ctx, idx)[..i] + [V2Routes(ctx, idx)[i]];
    }
    assert V2Routes(ctx, idx)[..|V2RouteTemplates|] == V2Routes(ctx, idx);
    r := Ok(task.(routes := routes));
  }

  // ----- add_index_routes -------------------------------------------------

  datatype IndexBuilder = GenericIndex

  /** The index-builder registry, keyed by `index.type`. */
  const IndexBuilders: map<string, IndexBuilder> := map["generic" := GenericIndex]

  /** The rank is written into `extra.index` before anything else. */
  function Ranked(ctx: Context, t: TaskDesc): Result<TaskDesc> {
    var extra :- UpdateNested(t.extra, "index", map["rank" := Int(IndexRank(t, ctx.params.buildDate))]);
    Ok(t.(extra := extra))
  }

  /** Whether `extra.index` can take the rank: absent, or a mapping. */
  predicate RankSlotFree(t: TaskDesc) {
    "index" !in t.extra || t.extra["index"].Obj?
  }

  /** `add_index_routes` on one task. Failures come in the source's order: an
      `extra.index` that is no mapping, then an unknown index type, then an
      unconfigured product. On success the rank is recorded, the routes of an
      indexed task gain the V2 routes, the `index` block is gone and nothing
      else changes. */
  function Indexed(ctx: Context, t: TaskDesc): (r: Result<TaskDesc>)
    ensures r.Fail? <==>
              || !RankSlotFree(t)
              || (t.index.Some? && (t.index.value.indexType.GetOr("generic") !in IndexBuilders ||
                                    t.index.value.product !in ctx.graph.indexProducts))
    ensures r.Fail? ==>
              r.error == if !RankSlotFree(t) then NotAMapping("index")
                         else if t.index.value.indexType.GetOr("generic") !in IndexBuilders
                         then UnknownIndexType(t.index.value.indexType.value)
                         else UnsupportedIndexProduct(t.index.value.product)
    ensures r.Ok? ==>
              && "index" in r.value.extra && r.value.extra["index"].Obj?
              && "rank" in r.value.extra["index"].fields
              && r.value.extra["index"].fields["rank"] == Int(IndexRank(t, ctx.params.buildDate))
              && r.value.extra.Keys == t.extra.Keys + {"index"}
              && (forall k | k in t.extra && k != "index" :: r.value.extra[k] == t.extra[k])
              && ("index" in t.extra ==>
                    forall k | k in t.extra["index"].fields && k != "rank" ::
                      k in r.value.extra["index"].fields &&
                      r.value.extra["index"].fields[k] == t.extra["index"].fields[k])
              && r.value.routes == t.routes + (if t.index.Some? then V2Routes(ctx, t.index.value) else [])
              && r.value == t.(extra := r.value.extra, routes := r.value.routes, index := None)
  {
    UpdateNestedEffect(t.extra, "index", map["rank" := Int(IndexRank(t, ctx.params.buildDate))]);
    var ranked :- Ranked(ctx, t);
    if t.index.None? then
      assert t.routes + [] == t.routes;
      Ok(ranked)
    else
      var indexType := t.index.value.indexType.GetOr("generic");
      if indexType !in IndexBuilders then Fail(UnknownIndexType(indexType))
      else
        var built :- match IndexBuilders[indexType] case GenericIndex => GenericIndexed(ctx, ranked);
        Ok(built.(index := None))
  }

  /** `add_index_routes` on one task, dispatching to the builder method. */
  method AddIndexRoutes(ctx: Context, task: TaskDesc) returns (r: Result<TaskDesc>)
    ensures r == Indexed(ctx, task)
  {
    var t :- Ranked(ctx, task);
    if task.index.None? {
      return Ok(t);
    }
    var indexType := task.index.value.indexType.GetOr("generic");
    if indexType !in IndexBuilders {
      return Fail(UnknownIndexType(indexType));
    }
    match IndexBuilders[indexType] {
      case GenericIndex =>
        t :- AddGenericIndexRoutes(ctx, t);
    }
    r := Ok(t.(index := None));
  }
}
