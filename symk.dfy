/** The two SymK engines: the optimal engine, whose anytime mode reports
    optimal plans only, and the top-k engine, whose anytime mode reports plans
    of increasing cost. One class stands for both, told apart by its variant;
    the configuration and command building it delegates to `SymKMixin`. */
module SymK {
  import opened Wrappers
  import opened Strings
  import opened Problems
  import opened SymKBase

  /** `SymKOptimalPDDLPlanner` or its subclass `SymKPDDLPlanner`. */
  datatype Variant = OptimalEngine | TopKEngine

  /** The framework's guarantees for anytime planners. */
  datatype AnytimeGuarantee = IncreasingQuality | OptimalPlans

  /** The framework's guarantees for one-shot planners. */
  datatype OptimalityGuarantee = SatisficingGuarantee | OptimalGuarantee

  /** `ensures`: only the optimal engine promises anything in anytime mode,
      namely that every reported plan is optimal. */
  function Ensures(v: Variant, g: AnytimeGuarantee): (r: bool)
    ensures r <==> v == OptimalEngine && g == OptimalPlans
  {
    match v
    case OptimalEngine => g == OptimalPlans
    case TopKEngine => false
  }

  /** `satisfies`: in one-shot mode both engines are optimal, so every
      optimality guarantee is met. */
  function Satisfies(v: Variant, g: OptimalityGuarantee): (r: bool)
    ensures r
  {
    true
  }

  // ---------------------------------------------------------------------
  // The hooks of the incremental plan parser

  /** The marker that opens a plan in the solver's output. */
  const StartingPlanStr: string := "New plan"

  /** The marker that closes a plan in the solver's output. */
  const EndingPlanStr: string := "step(s)"

  /** One line of a plan in the solver's output, turned into an action:
      timestamp lines give nothing, every other line gives its text before the
      first `(`, stripped and put in parentheses. */
  function ParsePlanLine(planLine: string): (r: string)
    ensures StartsWith(planLine, "[t=") ==> r == ""
    ensures !StartsWith(planLine, "[t=") ==>
              |r| >= 2 && r[0] == '(' && r[|r| - 1] == ')' && '(' !in r[1..] && |r| <= |planLine| + 2 &&
              var name := r[1..|r| - 1];
              name == [] || (!IsSpace(name[0]) && !IsSpace(name[|name| - 1]))
  {
    if StartsWith(planLine, "[t=") then ""
    else
      var name := Strip(BeforeFirst(planLine, '('));
      var r := "(" + name + ")";
      assert r[1..] == name + ")";
      assert r[1..|r| - 1] == name;
      r
  }

  /** The solver writes a plan step as the action followed by its cost in
      parentheses; parsing gives back the action in parentheses. */
  lemma ParseStepLine(action: string, cost: string)
    requires action != [] && action[0] != '[' && '(' !in action
    requires !IsSpace(action[0]) && !IsSpace(action[|action| - 1])
    ensures ParsePlanLine(action + " (" + cost + ")") == "(" + action + ")"
  {
    var line := action + " (" + cost + ")";
    assert line == (action + " ") + ("(" + cost + ")");
    assert line[0] == action[0] && "[t="[0] == '[';
    assert !StartsWith(line, "[t=");
    FindAfterPrefix(action + " ", "(" + cost + ")", '(');
    assert BeforeFirst(line, '(') == action + " ";
    StripOneTrailingSpace(action);
  }

  /** The value of a parsed line in general: a line that is not a timestamp
      line and consists of white space, an action name, white space and then
      nothing or a `(`-led remainder gives the name in parentheses; a name
      that is empty (the line has only white space before the first `(`)
      gives `()`. */
  lemma ParsePlanLineValue(lead: string, name: string, trail: string, rest: string)
    requires AllSpace(lead) && AllSpace(trail)
    requires name == [] || (!IsSpace(name[0]) && !IsSpace(name[|name| - 1]))
    requires '(' !in name
    requires rest == [] || rest[0] == '('
    requires !StartsWith(lead + name + trail + rest, "[t=")
    ensures ParsePlanLine(lead + name + trail + rest) == "(" + name + ")"
  {
    var pre := lead + name + trail;
    assert '(' !in pre by {
      forall k | 0 <= k < |pre| ensures pre[k] != '(' {
        if k < |lead| { assert pre[k] == lead[k]; }
        else if k < |lead| + |name| { assert pre[k] == name[k - |lead|]; }
        else { assert pre[k] == trail[k - |lead| - |name|]; }
      }
    }
    if rest == [] {
      assert pre + rest == pre;
    } else {
      FindAfterPrefix(pre, rest, '(');
      assert (pre + rest)[..|pre|] == pre;
    }
    assert BeforeFirst(pre + rest, '(') == pre;
    StripSurrounded(lead, name, trail);
  }

  // ---------------------------------------------------------------------
  // Default configurations

  /** The default one-shot configuration: bidirectional symbolic search with
      the given cost bound. */
  function DefaultSearchConfig(bound: InputValue): (r: string)
    ensures '(' in r && EngineName(r) == "sym-bd" && Parameters(r) == "(bound=" + bound.ToString() + ")"
  {
    var p := "(bound=" + bound.ToString() + ")";
    FindAfterPrefix("sym-bd", p, '(');
    "sym-bd" + p
  }

  /** The parameter part of the default anytime configurations. */
  function AnytimeParameters(tail: string, plans: InputValue, bound: InputValue): string {
    "(plan_selection=top_k(num_plans=" + (plans.ToString() + (",dump_plans=true),bound=" + bound.ToString() + tail))
  }

  /** The default anytime configuration: top-k search for the given number of
      plans within the given cost bound, with the `symq` engine for the optimal
      variant and the `symk` engine for the top-k variant. */
  function DefaultAnytimeConfig(v: Variant, plans: InputValue, bound: InputValue): (r: string)
    ensures '(' in r && EngineName(r) == (if v == OptimalEngine then "symq-bd" else "symk-bd")
    ensures Contains(r, EngineMarker(v))
  {
    var e := DefaultAnytimeEngine(v);
    var p := AnytimeParameters(if v == OptimalEngine then ",quality=1.0)" else ")", plans, bound);
    DefaultAnytimeEngineFacts(v, p);
    e + p
  }

  /** `symq-bd` for the optimal variant, `symk-bd` for the top-k variant. */
  function DefaultAnytimeEngine(v: Variant): string {
    if v == OptimalEngine then "symq-bd" else "symk-bd"
  }

  lemma DefaultAnytimeEngineFacts(v: Variant, p: string)
    requires |p| > 0 && p[0] == '('
    ensures '(' in DefaultAnytimeEngine(v) + p && EngineName(DefaultAnytimeEngine(v) + p) == DefaultAnytimeEngine(v)
    ensures Contains(DefaultAnytimeEngine(v) + p, EngineMarker(v))
  {
    var e := DefaultAnytimeEngine(v);
    assert forall k | 0 <= k < |e| :: e[k] != '(';
    SplitConfig(e, p);
    assert e == EngineMarker(v) + "-bd";
    assert e + p == EngineMarker(v) + ("-bd" + p);
    ContainsPrefix(EngineMarker(v), "-bd" + p);
  }

  lemma NoCommaInValue(v: InputValue)
    ensures ',' !in v.ToString()
  {
    if v.Finite? {
      assert forall k :: 0 <= k < |v.ToString()| ==> IsDigit(v.ToString()[k]) || v.ToString()[k] == '-';
    }
  }

  /** The default one-shot configuration determines the cost bound in it. */
  lemma DefaultSearchConfigDeterminesBound(b1: InputValue, b2: InputValue)
    requires DefaultSearchConfig(b1) == DefaultSearchConfig(b2)
    ensures b1 == b2
  {
    CancelAffixes("sym-bd", "(bound=" + b1.ToString() + ")", "(bound=" + b2.ToString() + ")", "");
    CancelAffixes("(bound=", b1.ToString(), b2.ToString(), ")");
    InputValueToStringInjective(b1, b2);
  }

  /** The default anytime configuration determines the plan count and the
      cost bound in it. */
  lemma DefaultAnytimeConfigDeterminesValues(v: Variant, n1: InputValue, b1: InputValue, n2: InputValue, b2: InputValue)
    requires DefaultAnytimeConfig(v, n1, b1) == DefaultAnytimeConfig(v, n2, b2)
    ensures n1 == n2 && b1 == b2
  {
    var e := DefaultAnytimeEngine(v);
    var tail := if v == OptimalEngine then ",quality=1.0)" else ")";
    var p1, p2 := AnytimeParameters(tail, n1, b1), AnytimeParameters(tail, n2, b2);
    assert e + p1 + "" == e + p2 + "";
    CancelAffixes(e, p1, p2, "");
    AnytimeParametersDetermineValues(tail, n1, b1, n2, b2);
  }

  lemma AnytimeParametersDetermineValues(tail: string, n1: InputValue, b1: InputValue, n2: InputValue, b2: InputValue)
    requires AnytimeParameters(tail, n1, b1) == AnytimeParameters(tail, n2, b2)
    ensures n1 == n2 && b1 == b2
  {
    var mid := ",dump_plans=true),bound=";
    var head := "(plan_selection=top_k(num_plans=";
    var r1 := n1.ToString() + (mid + b1.ToString() + tail);
    var r2 := n2.ToString() + (mid + b2.ToString() + tail);
    assert head + r1 + "" == head + r2 + "";
    CancelAffixes(head, r1, r2, "");
    NoCommaInValue(n1);
    NoCommaInValue(n2);
    SplitAtSeparator(',', n1.ToString(), mid + b1.ToString() + tail, n2.ToString(), mid + b2.ToString() + tail);
    CancelAffixes(mid, b1.ToString(), b2.ToString(), tail);
    InputValueToStringInjective(n1, n2);
    InputValueToStringInjective(b1, b2);
  }

  // ---------------------------------------------------------------------
  // Oversubscription mode

  /** The engine family a variant's anytime configuration must name. */
  function EngineMarker(v: Variant): string {
    if Ensures(v, OptimalPlans) then "symq" else "symk"
  }

  /** The oversubscription engine for a variant's anytime mode:
      `symq-osp-fw` or `symk-osp-fw`. */
  function OspAnytimeEngine(v: Variant): string {
    EngineMarker(v) + "-osp-fw"
  }

  /** What the configuration must satisfy for the switch into
      oversubscription mode: both search strings have a parameter part, and the
      anytime one names the variant's engine family. */
  predicate OspConfigReady(v: Variant, c: SolverConfig) {
    c.searchConfig.Some? && '(' in c.searchConfig.value &&
    c.anytimeSearchConfig.Some? && '(' in c.anytimeSearchConfig.value &&
    Contains(c.anytimeSearchConfig.value, EngineMarker(v))
  }

  /** The configuration after the switch into oversubscription mode, which
      is again ready for the switch. */
  function OspConfig(v: Variant, c: SolverConfig): (r: SolverConfig)
    requires OspConfigReady(v, c)
    ensures OspConfigReady(v, r)
  {
    OspSearchReplacement(c.searchConfig.value);
    OspAnytimeReplacement(v, c.anytimeSearchConfig.value);
    c.(driverOptions := Some(["--translate", "--search"]),
       searchConfig := Some(ReplaceSearchEngineInConfig(c.searchConfig.value, "sym-osp-fw")),
       anytimeSearchConfig := Some(ReplaceSearchEngineInConfig(c.anytimeSearchConfig.value, OspAnytimeEngine(v))))
  }

  /** What the switch does: the driver runs only translation and search, the
      one-shot engine becomes `sym-osp-fw` and the anytime engine the
      variant's oversubscription engine, both with their parameters kept, and
      nothing else changes. */
  lemma OspConfigEffect(v: Variant, c: SolverConfig)
    requires OspConfigReady(v, c)
    ensures var r := OspConfig(v, c);
            r.driverOptions == Some(["--translate", "--search"]) &&
            r.searchConfig.Some? && EngineName(r.searchConfig.value) == "sym-osp-fw" &&
            Parameters(r.searchConfig.value) == Parameters(c.searchConfig.value) &&
            r.anytimeSearchConfig.Some? && EngineName(r.anytimeSearchConfig.value) == OspAnytimeEngine(v) &&
            Parameters(r.anytimeSearchConfig.value) == Parameters(c.anytimeSearchConfig.value) &&
            r.translateOptions == c.translateOptions && r.preprocessOptions == c.preprocessOptions &&
            r.searchTimeLimit == c.searchTimeLimit && r.logLevel == c.logLevel
  {
    OspSearchReplacement(c.searchConfig.value);
    OspAnytimeReplacement(v, c.anytimeSearchConfig.value);
  }

  lemma OspSearchReplacement(config: string)
    requires '(' in config
    ensures var r := ReplaceSearchEngineInConfig(config, "sym-osp-fw");
            '(' in r && EngineName(r) == "sym-osp-fw" && Parameters(r) == Parameters(config)
  {
    OspEnginesHaveNoParameters(OptimalEngine);
  }

  /** The variant's oversubscription engine keeps the parameters and still
      names the variant's engine family. */
  lemma OspAnytimeReplacement(v: Variant, config: string)
    requires '(' in config
    ensures var r := ReplaceSearchEngineInConfig(config, OspAnytimeEngine(v));
            '(' in r && EngineName(r) == OspAnytimeEngine(v) && Parameters(r) == Parameters(config) &&
            Contains(r, EngineMarker(v))
  {
    OspEnginesHaveNoParameters(v);
    OspAnytimeEngineNamesFamily(v, Parameters(config));
  }

  lemma OspAnytimeEngineNamesFamily(v: Variant, params: string)
    ensures Contains(OspAnytimeEngine(v) + params, EngineMarker(v))
  {
    assert OspAnytimeEngine(v) + params == EngineMarker(v) + ("-osp-fw" + params);
    ContainsPrefix(EngineMarker(v), "-osp-fw" + params);
  }

  /** Switching into oversubscription mode a second time changes nothing. */
  lemma OspConfigIdempotent(v: Variant, c: SolverConfig)
    requires OspConfigReady(v, c)
    ensures OspConfig(v, OspConfig(v, c)) == OspConfig(v, c)
  {
    var r := OspConfig(v, c);
    OspEnginesHaveNoParameters(v);
    ReplaceTwice(c.searchConfig.value, "sym-osp-fw", "sym-osp-fw");
    ReplaceTwice(c.anytimeSearchConfig.value, OspAnytimeEngine(v), OspAnytimeEngine(v));
    assert OspConfig(v, r).searchConfig == r.searchConfig;
    assert OspConfig(v, r).anytimeSearchConfig == r.anytimeSearchConfig;
  }

  lemma OspEnginesHaveNoParameters(v: Variant)
    ensures '(' !in "sym-osp-fw" && '(' !in OspAnytimeEngine(v)
  {
    assert forall k | 0 <= k < |"sym-osp-fw"| :: "sym-osp-fw"[k] != '(';
    assert forall k | 0 <= k < |OspAnytimeEngine(v)| :: OspAnytimeEngine(v)[k] != '(';
  }

  /** The default configurations of either variant are ready for the switch. */
  lemma DefaultConfigsOspReady(v: Variant, plans: InputValue, bound: InputValue, c: SolverConfig)
    requires c.searchConfig == Some(DefaultSearchConfig(bound))
    requires c.anytimeSearchConfig == Some(DefaultAnytimeConfig(v, plans, bound))
    ensures OspConfigReady(v, c)
  {
  }

  /** Where `_solve` hands the problem on: to the oversubscription path of
      this adapter or to the framework's generic PDDL planner. */
  datatype SolveRoute = OspTask | FrameworkSolve

  // ---------------------------------------------------------------------
  // The engine object

  class SymKPlanner {
    const variant: Variant
    const base: SymKMixin

    /** Both search configurations are set (the constructor fills in the
        defaults) and the guarantees are the ones an engine ever holds. */
    ghost predicate Valid()
      reads this, base
    {
      base.Valid() && base.searchConfig.Some? && base.anytimeSearchConfig.Some?
    }

    /** Builds either engine. A missing one-shot configuration becomes
        `sym-bd(bound=B)`, a missing anytime configuration the variant's
        top-k configuration with plan count N and bound B; N and B are the
        given values or `infinity`. */
    constructor (variant: Variant, searchConfig: Option<string> := None, anytimeSearchConfig: Option<string> := None,
                 driverOptions: Option<seq<string>> := None, translateOptions: Option<seq<string>> := None,
                 preprocessOptions: Option<seq<string>> := None, searchTimeLimit: Option<string> := None,
                 numberOfPlans: Option<int> := None, planCostBound: Option<int> := None,
                 logLevel: string := "info")
      requires numberOfPlans.Some? ==> numberOfPlans.value >= 1
      requires planCostBound.Some? ==> planCostBound.value >= 0
      ensures this.variant == variant && fresh(base) && Valid()
      ensures var plans, bound := FormatInputValue(numberOfPlans, 1), FormatInputValue(planCostBound, 0);
              base.Config() == SolverConfig(
                Some(searchConfig.GetOr(DefaultSearchConfig(bound))),
                Some(anytimeSearchConfig.GetOr(DefaultAnytimeConfig(variant, plans, bound))),
                driverOptions, translateOptions, preprocessOptions, searchTimeLimit, logLevel)
      ensures base.guaranteeNoPlanFound == UnsolvableProven && base.guaranteeMetricsTask == SolvedOptimally
    {
      var plans := FormatInputValue(numberOfPlans, 1);
      var bound := FormatInputValue(planCostBound, 0);
      var search := searchConfig.GetOr(DefaultSearchConfig(bound));
      var anytime := anytimeSearchConfig.GetOr(DefaultAnytimeConfig(variant, plans, bound));
      this.variant := variant;
      base := new SymKMixin(Some(search), Some(anytime), driverOptions, translateOptions,
                            preprocessOptions, searchTimeLimit, logLevel);
    }

    /** What a solve call needs: an oversubscription problem must have no
        hard goals and a configuration ready for the switch. */
    ghost predicate SolvePrecondition(problem: Problem)
      reads this, base
    {
      HasOversubscription(problem.qualityMetrics) ==>
        problem.goals == [] && OspConfigReady(variant, base.Config())
    }

    /** The switch into oversubscription mode inside `_solve`: the driver
        options become `--translate --search`, and both search engines are
        replaced by their oversubscription counterparts (`sym-osp-fw` and
        `symq-osp-fw` or `symk-osp-fw`, chosen by whether the engine
        promises optimal plans). The guarantees are untouched. */
    method SwitchToOsp()
      requires OspConfigReady(variant, base.Config())
      modifies base
      ensures base.Config() == OspConfig(variant, old(base.Config()))
      ensures base.guaranteeNoPlanFound == old(base.guaranteeNoPlanFound)
      ensures base.guaranteeMetricsTask == old(base.guaranteeMetricsTask)
    {
      var before := base.Config();
      var c := OspConfig(variant, before);
      assert c == before.(driverOptions := c.driverOptions, searchConfig := c.searchConfig,
                          anytimeSearchConfig := c.anytimeSearchConfig);
      base.driverOptions, base.searchConfig, base.anytimeSearchConfig :=
        c.driverOptions, c.searchConfig, c.anytimeSearchConfig;
    }

    /** The bookkeeping of a solve call before any file is written: the top-k
        variant sets the status of a plan for a problem with metrics
        (satisficing in anytime mode, optimal otherwise), and an
        oversubscription problem switches the configuration into
        oversubscription mode. The switch stays in effect for later calls. */
    method Solve(problem: Problem, anytime: bool) returns (route: SolveRoute)
      requires Valid() && SolvePrecondition(problem)
      modifies base
      ensures Valid()
      ensures route == (if HasOversubscription(problem.qualityMetrics) then OspTask else FrameworkSolve)
      ensures base.Config() == if HasOversubscription(problem.qualityMetrics)
                               then OspConfig(variant, old(base.Config())) else old(base.Config())
      ensures base.guaranteeNoPlanFound == old(base.guaranteeNoPlanFound)
      ensures base.guaranteeMetricsTask ==
                if variant == TopKEngine then (if anytime then SolvedSatisficing else SolvedOptimally)
                else old(base.guaranteeMetricsTask)
      ensures SolvePrecondition(problem)
    {
      if variant == TopKEngine {
        if anytime {
          base.guaranteeMetricsTask := SolvedSatisficing;
        } else {
          base.guaranteeMetricsTask := SolvedOptimally;
        }
      }
      if HasOversubscription(problem.qualityMetrics) {
        SwitchToOsp();
        route := OspTask;
      } else {
        route := FrameworkSolve;
      }
    }

    /** An engine built with every default: its base command holds no driver
        options and no time limit, and logs at level `info`. */
    static method DefaultEngineBaseCommand(interpreter: string, downward: string, planFilename: string)
      returns (cmd: seq<string>)
      requires interpreter != ""
      ensures cmd == [interpreter, downward, "--plan-file", planFilename, "--log-level", "info"]
    {
      var engine := new SymKPlanner(OptimalEngine);
      cmd := engine.base.BaseCmd(interpreter, downward, planFilename);
    }

    /** The final status of an oversubscription run: a timeout unless the
        solver still exited with code 0 (an absent exit code counts as not 0);
        otherwise the exit-code classification. */
    function OspTaskStatus(problem: Problem, plan: Option<Plan>, timeoutOccurred: bool, retval: Option<int>)
      : (r: PlanGenerationResultStatus)
      requires Valid()
      reads this, base
      ensures r == Timeout <==> timeoutOccurred && retval != Some(0)
      ensures r != Timeout ==> r == base.ResultStatus(problem, plan, retval)
    {
      if timeoutOccurred && retval != Some(0) then Timeout
      else
        base.Classification(problem, plan, retval);
        base.ResultStatus(problem, plan, retval)
    }
  }
}
