/** How many tools one assistant query runs. */
module AssistantPlans {
  import opened Options

  const MAX_TOOL_CALLS := 4

  datatype Tool =
    | GetOsmFeatureDetail | ListAreas | GetDataSourceStatus | GetPolygonLocation | GetPolygonDetail
    | CompareAreas | ResolveArea | SearchFeatures | GetAreaDetail | ListAreaPolygons | GetAreaStatistics
    | GetAreaAnalytics | GetConcept | GetStatisticSeries | DescribeCategory | DescribeMetric
    | ListKnownDatasets | SearchKnowledge

  // ----- running a plan -----

  /** What running a step brings. */
  datatype Outcome = Value(json: string) | ToolError(code: string) | InvalidArguments

  datatype Failure = LimitReached | Failed(code: string) | BadArguments(failedStep: nat)

  datatype Entry = Entry(tool: Tool, json: string)

  /** The results are those of a prefix of the plan that succeeded throughout. */
  predicate Prefix(steps: seq<Tool>, run: nat -> Outcome, results: seq<Entry>) {
    && |results| <= |steps|
    && (forall i | 0 <= i < |results| :: run(i) == Value(results[i].json) && results[i].tool == steps[i])
  }

  /** Runs the steps in order until one fails.  A plan of more than four steps is replaced by
      an empty one. */
  method Answer(planned: seq<Tool>, run: nat -> Outcome) returns (results: seq<Entry>, failure: Option<Failure>)
    ensures |results| <= 4 && Prefix(planned, run, results)
    ensures |planned| > 4 <==> failure == Some(LimitReached)
    ensures |planned| > 4 ==> results == []
    ensures failure == None ==> |results| == |planned|
    ensures failure.Some? && !failure.value.LimitReached? ==>
      && |results| < |planned|
      && !run(|results|).Value?
      && (failure.value.BadArguments? ==> failure.value.failedStep == |results| && run(|results|).InvalidArguments?)
      && (failure.value.Failed? ==> run(|results|) == ToolError(failure.value.code))
  {
    results, failure := [], None;
    var steps := planned;
    if |steps| > MAX_TOOL_CALLS {
      failure := Some(LimitReached);
      steps := [];
    }
    for i := 0 to |steps|
      invariant |results| == i && Prefix(steps, run, results)
      invariant failure == if |planned| > MAX_TOOL_CALLS then Some(LimitReached) else None
    {
      match run(i)
      case ToolError(code) => return results, Some(Failed(code));
      case InvalidArguments => return results, Some(BadArguments(|results|));
      case Value(json) => results := results + [Entry(steps[i], json)];
    }
  }

  // ----- planning without the provider -----

  /** The outcomes of the planner's tests on the normalised question and its context. */
  datatype Signals = Signals(
    forbidden: bool, osmQuestion: bool, ambiguousArea: bool,
    statistics: bool, metricExplanation: bool, metrics: nat, lastMetric: bool, series: bool, statExplanation: bool,
    datasets: bool, explanation: bool, knowledgeComparison: bool, gastronomy: bool, onMap: bool,
    counting: bool, vacancyRate: bool,
    oneCategory: bool, osmDifference: bool, knowledge: bool, exactKnowledge: bool,
    areaList: bool, filterOnly: bool, dataStatus: bool, comparison: bool,
    selectedRadius: bool, areaRadius: bool, radiusInRange: bool,
    childAreas: bool, amenities: bool, step: Option<Tool>, outOfScope: bool)

  /** A plan of known steps, possibly none, or one the provider made. */
  datatype Plan = Local(steps: seq<Tool>) | Provided(steps: seq<Tool>)

  /** The language model: not set up, answering with a valid plan, or raising. */
  datatype Provider = NotConfigured | Answers(steps: seq<Tool>) | Fails

  function Resolve(areas: nat): seq<Tool> { seq(areas, _ => ResolveArea) }

  function StatisticsPlan(s: Signals, areas: nat): Option<Plan> {
    if !s.statistics || areas == 0 then None
    else if s.metricExplanation then Some(Local([GetConcept]))
    else
      var metrics := if s.series && s.metrics == 0 && s.lastMetric then 1 else s.metrics;
      if metrics > 1 then Some(Local([]))
      else if s.series && metrics == 0 then Some(Local([]))
      else
        Some(Local(Resolve(1) + [if s.series then GetStatisticSeries else GetAreaStatistics]
                   + (if s.statExplanation then [GetConcept] else [])))
  }

  function KnowledgePlan(s: Signals, areas: nat): Option<Plan> {
    if s.datasets then Some(Local([ListKnownDatasets]))
    else if areas > 0 && s.knowledgeComparison && s.explanation then
      if areas != 2 then None else Some(Local(Resolve(areas) + [CompareAreas, DescribeMetric]))
    else if areas == 1 && s.explanation && s.gastronomy && s.onMap then
      Some(Local(Resolve(1) + [SearchFeatures, DescribeCategory]))
    else if areas == 1 && s.explanation && s.gastronomy && s.counting then
      Some(Local(Resolve(1) + [GetAreaAnalytics, DescribeCategory]))
    else if areas == 1 && s.explanation && s.vacancyRate then
      Some(Local(Resolve(1) + [GetAreaAnalytics, DescribeMetric]))
    else if !s.explanation then None
    else if s.oneCategory then Some(Local([DescribeCategory]))
    else if s.osmDifference then Some(Local([ListKnownDatasets]))
    else if !s.knowledge then None
    else Some(Local([if s.exactKnowledge then GetConcept else SearchKnowledge]))
  }

  /** The areas compared: those named, else those of the last comparison. */
  function ComparePlan(areas: nat, lastCompared: nat): Plan {
    var n := if areas > 0 then areas else lastCompared;
    if n < 2 || n > 3 then Local([]) else Local(Resolve(n) + [CompareAreas])
  }

  /** Everything but an answer of the provider ends in a plan without steps. */
  function ProviderOrUnsupported(s: Signals, p: Provider): Plan {
    if s.outOfScope then Local([])
    else
      match p
      case NotConfigured => Local([])
      case Answers(steps) => Provided(steps)
      case Fails => Local([])
  }

  function AreaPlan(s: Signals, p: Provider): Plan {
    if s.childAreas then Local(Resolve(1) + [ListAreas])
    else if s.amenities then Local(Resolve(1) + [SearchFeatures])
    else if s.step.Some? then Local(Resolve(1) + [s.step.value])
    else ProviderOrUnsupported(s, p)
  }

  /** The branches in the order they are tried. */
  function PlanQuery(s: Signals, areas: nat, lastCompared: nat, p: Provider): Plan {
    if s.forbidden then Local([])
    else if s.osmQuestion then Local([GetOsmFeatureDetail])
    else if s.ambiguousArea then Local([])
    else if StatisticsPlan(s, areas).Some? then StatisticsPlan(s, areas).value
    else if KnowledgePlan(s, areas).Some? then KnowledgePlan(s, areas).value
    else if s.areaList then Local([ListAreas])
    else if s.filterOnly then Local([])
    else if s.dataStatus then Local([GetDataSourceStatus])
    else if s.selectedRadius then Local(if s.radiusInRange then [GetPolygonLocation] else [])
    else if s.areaRadius then Local(if s.radiusInRange then [GetPolygonDetail, GetPolygonLocation] else [])
    else if s.comparison then ComparePlan(areas, lastCompared)
    else if areas == 0 then ProviderOrUnsupported(s, p)
    else AreaPlan(s, p)
  }

  /** Every plan built without the provider fits the limit, for any number of areas; a full
      plan is a comparison.  Only a longer answer of the provider can exceed it. */
  lemma LocalPlansFit(s: Signals, areas: nat, lastCompared: nat, p: Provider)
    ensures
      var plan := PlanQuery(s, areas, lastCompared, p);
      && (plan.Local? ==> |plan.steps| <= 4)
      && (plan.Local? && |plan.steps| == 4 ==> CompareAreas in plan.steps)
      && (plan.Provided? ==> p == Answers(plan.steps) && !s.outOfScope)
  {
    var steps := PlanQuery(s, areas, lastCompared, p).steps;
    if |steps| == MAX_TOOL_CALLS {
      assert steps[2] in steps && steps[3] in steps;
    }
  }

  // ----- which plan -----

  /** The question stays with the planner: it is refused, unclear, or one of the known kinds. */
  predicate Known(s: Signals, areas: nat) {
    || s.forbidden || s.osmQuestion || s.ambiguousArea
    || (s.statistics && areas > 0)
    || s.datasets || (s.explanation && KnownExplanation(s, areas))
    || s.areaList || s.filterOnly || s.dataStatus || s.selectedRadius || s.areaRadius || s.comparison
    || (areas > 0 && (s.childAreas || s.amenities || s.step.Some?))
  }

  /** An explanation of two areas or in one area comes first; but a comparison of another number of
      areas is no explanation. */
  predicate KnownExplanation(s: Signals, areas: nat) {
    if areas > 0 && s.knowledgeComparison then areas == 2
    else
      || (areas == 1 && ((s.gastronomy && (s.onMap || s.counting)) || s.vacancyRate))
      || s.oneCategory || s.osmDifference || s.knowledge
  }

  /** The provider makes the plan exactly when it answers a question within scope that is of no
      known kind. */
  lemma ProvidedIff(s: Signals, areas: nat, lastCompared: nat, p: Provider, steps: seq<Tool>)
    ensures PlanQuery(s, areas, lastCompared, p) == Provided(steps) <==>
      p == Answers(steps) && !s.outOfScope && !Known(s, areas)
  {
  }

  /** Without the provider, a question of no known kind, a refused and an unclear one run no tool. */
  lemma NoSteps(s: Signals, areas: nat, lastCompared: nat, p: Provider)
    ensures s.forbidden ==> PlanQuery(s, areas, lastCompared, p) == Local([])
    ensures s.ambiguousArea && !s.osmQuestion ==> PlanQuery(s, areas, lastCompared, p) == Local([])
    ensures !Known(s, areas) && (s.outOfScope || !p.Answers?) ==> PlanQuery(s, areas, lastCompared, p) == Local([])
  {
  }

  /** Areas are compared only two or three at a time, each resolved first: the areas named, or
      those of the last comparison when none is named. */
  lemma ComparesResolved(s: Signals, areas: nat, lastCompared: nat, p: Provider, i: nat)
    requires s.step != Some(CompareAreas)
    requires PlanQuery(s, areas, lastCompared, p).Local?
    requires i < |PlanQuery(s, areas, lastCompared, p).steps|
    requires PlanQuery(s, areas, lastCompared, p).steps[i] == CompareAreas
    ensures i in {2, 3} && i == if areas > 0 then areas else lastCompared
    ensures forall j | 0 <= j < i :: PlanQuery(s, areas, lastCompared, p).steps[j] == ResolveArea
  {
  }

  /** A question in which the planner recognises nothing. */
  const NOTHING := Signals(
    false, false, false, false, false, 0, false, false, false, false, false, false, false, false, false, false,
    false, false, false, false, false, false, false, false, false, false, false, false, false, None, false)

  /** Questions of one kind and their plans. */
  lemma Questions(p: Provider)
    ensures PlanQuery(NOTHING.(osmQuestion := true), 1, 0, p) == Local([GetOsmFeatureDetail])
    ensures PlanQuery(NOTHING.(areaList := true), 1, 0, p) == Local([ListAreas])
    ensures PlanQuery(NOTHING.(filterOnly := true), 1, 0, p) == Local([])
    ensures PlanQuery(NOTHING.(dataStatus := true), 1, 0, p) == Local([GetDataSourceStatus])
    ensures PlanQuery(NOTHING.(datasets := true), 0, 0, p) == Local([ListKnownDatasets])
  {
  }

  lemma QuestionsAboutAreas(p: Provider, tool: Tool)
    ensures PlanQuery(NOTHING.(childAreas := true), 1, 0, p).steps == [ResolveArea, ListAreas]
    ensures PlanQuery(NOTHING.(amenities := true), 1, 0, p).steps == [ResolveArea, SearchFeatures]
    ensures PlanQuery(NOTHING.(step := Some(tool)), 1, 0, p).steps == [ResolveArea, tool]
  {
  }

  /** Two or three areas are compared, others are not: those named, else those compared last. */
  lemma QuestionsToCompare(areas: nat, lastCompared: nat, p: Provider)
    ensures
      var n := if areas > 0 then areas else lastCompared;
      var steps := PlanQuery(NOTHING.(comparison := true), areas, lastCompared, p).steps;
      && (n == 2 ==> steps == [ResolveArea, ResolveArea, CompareAreas])
      && (n == 3 ==> steps == [ResolveArea, ResolveArea, ResolveArea, CompareAreas])
      && (n !in {2, 3} ==> steps == [])
  {
  }

  lemma QuestionsAboutRadius(p: Provider)
    ensures
      var near := NOTHING.(radiusInRange := true);
      && PlanQuery(near.(selectedRadius := true), 0, 0, p).steps == [GetPolygonLocation]
      && PlanQuery(near.(areaRadius := true), 0, 0, p).steps == [GetPolygonDetail, GetPolygonLocation]
      && PlanQuery(NOTHING.(selectedRadius := true), 0, 0, p) == Local([])
      && PlanQuery(NOTHING.(areaRadius := true), 0, 0, p) == Local([])
  {
  }

  lemma QuestionsAboutStatistics(p: Provider)
    ensures
      var asked := NOTHING.(statistics := true);
      && PlanQuery(asked.(metricExplanation := true), 1, 0, p).steps == [GetConcept]
      && PlanQuery(asked, 1, 0, p).steps == [ResolveArea, GetAreaStatistics]
      && PlanQuery(asked.(metrics := 1, series := true), 1, 0, p).steps == [ResolveArea, GetStatisticSeries]
      && PlanQuery(asked.(lastMetric := true, series := true), 1, 0, p).steps == [ResolveArea, GetStatisticSeries]
      && PlanQuery(asked.(series := true), 1, 0, p) == Local([])
      && PlanQuery(asked.(metrics := 2), 1, 0, p) == Local([])
      && PlanQuery(asked.(metrics := 1, statExplanation := true), 1, 0, p).steps
         == [ResolveArea, GetAreaStatistics, GetConcept]
  {
  }

  lemma QuestionsForExplanation(p: Provider)
    ensures
      var asked := NOTHING.(explanation := true);
      && PlanQuery(asked.(oneCategory := true), 0, 0, p).steps == [DescribeCategory]
      && PlanQuery(asked.(osmDifference := true), 0, 0, p).steps == [ListKnownDatasets]
      && PlanQuery(asked.(knowledge := true), 0, 0, p).steps == [SearchKnowledge]
      && PlanQuery(asked.(knowledge := true, exactKnowledge := true), 0, 0, p).steps == [GetConcept]
      && PlanQuery(asked.(vacancyRate := true), 1, 0, p).steps == [ResolveArea, GetAreaAnalytics, DescribeMetric]
      && PlanQuery(asked.(gastronomy := true, onMap := true), 1, 0, p).steps
         == [ResolveArea, SearchFeatures, DescribeCategory]
      && PlanQuery(asked.(gastronomy := true, counting := true), 1, 0, p).steps
         == [ResolveArea, GetAreaAnalytics, DescribeCategory]
      && PlanQuery(asked.(knowledgeComparison := true), 2, 0, p).steps
         == [ResolveArea, ResolveArea, CompareAreas, DescribeMetric]
  {
  }

  /** One whole query: at most four tools run, and the limit is reported exactly when the
      provider answered a question that reached it with more than four steps. */
  method AnswerQuery(s: Signals, areas: nat, lastCompared: nat, p: Provider, run: nat -> Outcome)
    returns (results: seq<Entry>, failure: Option<Failure>)
    ensures |results| <= 4
    ensures Prefix(PlanQuery(s, areas, lastCompared, p).steps, run, results)
    ensures failure == Some(LimitReached) <==>
      PlanQuery(s, areas, lastCompared, p).Provided? && p.Answers? && |p.steps| > 4
  {
    LocalPlansFit(s, areas, lastCompared, p);
    results, failure := Answer(PlanQuery(s, areas, lastCompared, p).steps, run);
  }
}
