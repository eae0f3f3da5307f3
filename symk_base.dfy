/** The solver-independent half of the SymK adapter: its configuration, the
    argument vectors given to the solver's driver script, the classification
    of the solver's exit code, and two small helpers for configuration
    strings. */
module SymKBase {
  import opened Wrappers
  import opened Strings
  import opened Problems

  /** The framework's result statuses. */
  datatype PlanGenerationResultStatus =
    | SolvedSatisficing
    | SolvedOptimally
    | UnsolvableProven
    | UnsolvableIncompletely
    | Timeout
    | InternalError
    | Intermediate

  /** The configuration fields of an engine. Driver options are a list of
      tokens, which is how the oversubscription mode sets them. */
  datatype SolverConfig = SolverConfig(
    searchConfig: Option<string>,
    anytimeSearchConfig: Option<string>,
    driverOptions: Option<seq<string>>,
    translateOptions: Option<seq<string>>,
    preprocessOptions: Option<seq<string>>,
    searchTimeLimit: Option<string>,
    logLevel: string)

  /** One-shot planning or anytime (plan-streaming) planning. */
  datatype Mode = OneShot | Anytime

  // ---------------------------------------------------------------------
  // The argument vector

  function DriverTokens(c: SolverConfig): seq<string> {
    c.driverOptions.GetOr([])
  }

  function TimeLimitTokens(c: SolverConfig): seq<string> {
    if c.searchTimeLimit.Some? then ["--search-time-limit", c.searchTimeLimit.value] else []
  }

  /** The tokens common to every invocation: interpreter, driver script, plan
      file, driver options, time limit, log level. */
  function BaseCommand(c: SolverConfig, interpreter: string, downward: string, planFilename: string): (cmd: seq<string>)
    ensures |cmd| >= 6 + |DriverTokens(c)|
    ensures cmd[..4] == [interpreter, downward, "--plan-file", planFilename]
    ensures cmd[4..4 + |DriverTokens(c)|] == DriverTokens(c)
    ensures c.searchTimeLimit.None? <==> |cmd| == 6 + |DriverTokens(c)|
    ensures c.searchTimeLimit.Some? ==>
              |cmd| == 8 + |DriverTokens(c)| &&
              cmd[4 + |DriverTokens(c)|..6 + |DriverTokens(c)|] == ["--search-time-limit", c.searchTimeLimit.value]
    ensures cmd[|cmd| - 2..] == ["--log-level", c.logLevel]
  {
    [interpreter, downward, "--plan-file", planFilename] + DriverTokens(c) + TimeLimitTokens(c) + ["--log-level", c.logLevel]
  }

  /** `[flag] + options` when the option list is truthy (present and non-empty). */
  function OptionsBlock(flag: string, options: Option<seq<string>>): (r: seq<string>)
    ensures r == [] <==> options.None? || options.value == []
    ensures r != [] ==> r[0] == flag && r[1..] == options.value
  {
    if options.Some? && options.value != [] then [flag] + options.value else []
  }

  /** `["--search-options", "--search"]` followed by the whitespace-separated
      tokens of the configuration, when the configuration is truthy. */
  function SearchBlock(config: Option<string>): (r: seq<string>)
    ensures r == [] <==> config.None? || config.value == ""
    ensures r != [] ==> |r| >= 2 && r[..2] == ["--search-options", "--search"]
    ensures forall i :: 2 <= i < |r| ==> IsWord(r[i])
  {
    if config.Some? && config.value != "" then ["--search-options", "--search"] + Split(config.value) else []
  }

  /** Which of the two search configurations a mode uses. */
  function SearchConfigFor(c: SolverConfig, mode: Mode): Option<string> {
    if mode == OneShot then c.searchConfig else c.anytimeSearchConfig
  }

  /** Everything before the search block: the base command, the domain and
      problem files, then the translator and preprocessor options. */
  function CommandBeforeSearch(c: SolverConfig, interpreter: string, downward: string,
                               domainFilename: string, problemFilename: string, planFilename: string): seq<string>
  {
    BaseCommand(c, interpreter, downward, planFilename) + [domainFilename, problemFilename]
    + OptionsBlock("--translate-options", c.translateOptions)
    + OptionsBlock("--preprocess-options", c.preprocessOptions)
  }

  /** The full argument vector of an invocation in the given mode. */
  function Command(c: SolverConfig, mode: Mode, interpreter: string, downward: string,
                   domainFilename: string, problemFilename: string, planFilename: string): (cmd: seq<string>)
    ensures var base := BaseCommand(c, interpreter, downward, planFilename);
            |base| + 2 <= |cmd| && cmd[..|base|] == base && cmd[|base|..|base| + 2] == [domainFilename, problemFilename]
    ensures var search := SearchBlock(SearchConfigFor(c, mode));
            |search| <= |cmd| && cmd[|cmd| - |search|..] == search
  {
    var base := BaseCommand(c, interpreter, downward, planFilename);
    var cmd := CommandBeforeSearch(c, interpreter, downward, domainFilename, problemFilename, planFilename)
               + SearchBlock(SearchConfigFor(c, mode));
    assert cmd[..|base|] == base;
    cmd
  }

  /** Every invocation starts with the interpreter, the driver script and the plan file. */
  lemma CommandStartsWithInterpreter(c: SolverConfig, mode: Mode, interpreter: string, downward: string,
                                     domainFilename: string, problemFilename: string, planFilename: string)
    ensures Command(c, mode, interpreter, downward, domainFilename, problemFilename, planFilename)[..4]
            == [interpreter, downward, "--plan-file", planFilename]
  {
    var cmd := Command(c, mode, interpreter, downward, domainFilename, problemFilename, planFilename);
    var base := BaseCommand(c, interpreter, downward, planFilename);
    assert cmd[..4] == cmd[..|base|][..4];
  }

  /** The translator and preprocessor blocks sit between the problem file and
      the search block, each present exactly when its option list is
      non-empty and then followed by that list verbatim. */
  lemma OptionBlocksLayout(c: SolverConfig, mode: Mode, interpreter: string, downward: string,
                           domainFilename: string, problemFilename: string, planFilename: string)
    ensures var cmd := Command(c, mode, interpreter, downward, domainFilename, problemFilename, planFilename);
            var b := |BaseCommand(c, interpreter, downward, planFilename)| + 2;
            var t := OptionsBlock("--translate-options", c.translateOptions);
            var p := OptionsBlock("--preprocess-options", c.preprocessOptions);
            var s := SearchBlock(SearchConfigFor(c, mode));
            |cmd| == b + |t| + |p| + |s| &&
            cmd[b..b + |t|] == t && cmd[b + |t|..b + |t| + |p|] == p
  {
    var cmd := Command(c, mode, interpreter, downward, domainFilename, problemFilename, planFilename);
    var base := BaseCommand(c, interpreter, downward, planFilename) + [domainFilename, problemFilename];
    var t := OptionsBlock("--translate-options", c.translateOptions);
    var p := OptionsBlock("--preprocess-options", c.preprocessOptions);
    var s := SearchBlock(SearchConfigFor(c, mode));
    assert cmd == base + t + p + s;
    assert cmd[|base|..|base| + |t|] == t;
    assert cmd[|base| + |t|..|base| + |t| + |p|] == p;
  }

  /** The search block closes the command, carrying the split configuration;
      without a truthy configuration neither search flag is emitted. */
  lemma SearchBlockClosesCommand(c: SolverConfig, mode: Mode, interpreter: string, downward: string,
                                 domainFilename: string, problemFilename: string, planFilename: string)
    ensures var cmd := Command(c, mode, interpreter, downward, domainFilename, problemFilename, planFilename);
            var config := SearchConfigFor(c, mode);
            if config.Some? && config.value != "" then
              var tokens := Split(config.value);
              |cmd| >= |tokens| + 2 &&
              cmd[|cmd| - |tokens| - 2..|cmd| - |tokens|] == ["--search-options", "--search"] &&
              cmd[|cmd| - |tokens|..] == tokens
            else
              cmd == CommandBeforeSearch(c, interpreter, downward, domainFilename, problemFilename, planFilename)
  {
    var cmd := Command(c, mode, interpreter, downward, domainFilename, problemFilename, planFilename);
    var before := CommandBeforeSearch(c, interpreter, downward, domainFilename, problemFilename, planFilename);
    var config := SearchConfigFor(c, mode);
    if config.Some? && config.value != "" {
      var tokens := Split(config.value);
      assert cmd == before + ["--search-options", "--search"] + tokens;
      assert cmd[|cmd| - |tokens| - 2..|cmd| - |tokens|] == ["--search-options", "--search"];
    } else {
      assert cmd == before + [];
    }
  }

  /** A search configuration without whitespace, such as `sym-bd(bound=10)`,
      appears verbatim right after `--search`, as the last token. */
  lemma SearchConfigFollowsSearchFlag(c: SolverConfig, mode: Mode, interpreter: string, downward: string,
                                      domainFilename: string, problemFilename: string, planFilename: string)
    requires SearchConfigFor(c, mode).Some? && IsWord(SearchConfigFor(c, mode).value)
    ensures var cmd := Command(c, mode, interpreter, downward, domainFilename, problemFilename, planFilename);
            |cmd| >= 3 && cmd[|cmd| - 3..] == ["--search-options", "--search", SearchConfigFor(c, mode).value]
  {
    SplitWord(SearchConfigFor(c, mode).value);
  }

  /** The one-shot and the anytime invocation agree on every token before the
      search block; they differ only in which configuration that block splits. */
  lemma ModesDifferOnlyInSearchBlock(c: SolverConfig, interpreter: string, downward: string,
                                     domainFilename: string, problemFilename: string, planFilename: string)
    ensures var before := CommandBeforeSearch(c, interpreter, downward, domainFilename, problemFilename, planFilename);
            var oneShot := Command(c, OneShot, interpreter, downward, domainFilename, problemFilename, planFilename);
            var anytime := Command(c, Anytime, interpreter, downward, domainFilename, problemFilename, planFilename);
            oneShot[..|before|] == anytime[..|before|] == before &&
            oneShot[|before|..] == SearchBlock(c.searchConfig) &&
            anytime[|before|..] == SearchBlock(c.anytimeSearchConfig)
    ensures c.searchConfig == c.anytimeSearchConfig ==>
              Command(c, OneShot, interpreter, downward, domainFilename, problemFilename, planFilename)
              == Command(c, Anytime, interpreter, downward, domainFilename, problemFilename, planFilename)
  {
    var before := CommandBeforeSearch(c, interpreter, downward, domainFilename, problemFilename, planFilename);
    var oneShot := Command(c, OneShot, interpreter, downward, domainFilename, problemFilename, planFilename);
    var anytime := Command(c, Anytime, interpreter, downward, domainFilename, problemFilename, planFilename);
    assert oneShot == before + SearchBlock(c.searchConfig);
    assert anytime == before + SearchBlock(c.anytimeSearchConfig);
  }

  // ---------------------------------------------------------------------
  // The engine object

  /** The configuration and guarantees of a SymK engine, with the operations
      that build its invocations and classify their outcome. */
  class SymKMixin {
    var searchConfig: Option<string>
    var anytimeSearchConfig: Option<string>
    var driverOptions: Option<seq<string>>
    var translateOptions: Option<seq<string>>
    var preprocessOptions: Option<seq<string>>
    var searchTimeLimit: Option<string>
    var logLevel: string
    /** The status reported when the solver terminates normally without a plan. */
    var guaranteeNoPlanFound: PlanGenerationResultStatus
    /** The status reported for a plan of a problem with quality metrics. */
    var guaranteeMetricsTask: PlanGenerationResultStatus

    /** The guarantees an engine ever holds: no plan after a normal
        termination proves unsolvability, and a plan for a problem with
        metrics is optimal or satisficing. */
    ghost predicate Valid()
      reads this
    {
      guaranteeNoPlanFound == UnsolvableProven &&
      (guaranteeMetricsTask == SolvedOptimally || guaranteeMetricsTask == SolvedSatisficing)
    }

    /** The configuration fields as one value. */
    function Config(): SolverConfig
      reads this
    {
      SolverConfig(searchConfig, anytimeSearchConfig, driverOptions, translateOptions,
                   preprocessOptions, searchTimeLimit, logLevel)
    }

    constructor (searchConfig: Option<string> := None, anytimeSearchConfig: Option<string> := None,
                 driverOptions: Option<seq<string>> := None, translateOptions: Option<seq<string>> := None,
                 preprocessOptions: Option<seq<string>> := None, searchTimeLimit: Option<string> := None,
                 logLevel: string := "info")
      ensures Config() == SolverConfig(searchConfig, anytimeSearchConfig, driverOptions, translateOptions,
                                       preprocessOptions, searchTimeLimit, logLevel)
      ensures guaranteeNoPlanFound == UnsolvableProven && guaranteeMetricsTask == SolvedOptimally
      ensures Valid()
    {
      this.searchConfig := searchConfig;
      this.anytimeSearchConfig := anytimeSearchConfig;
      this.driverOptions := driverOptions;
      this.translateOptions := translateOptions;
      this.preprocessOptions := preprocessOptions;
      this.searchTimeLimit := searchTimeLimit;
      this.logLevel := logLevel;
      guaranteeNoPlanFound := UnsolvableProven;
      guaranteeMetricsTask := SolvedOptimally;
    }

    /** The tokens every invocation starts with. The interpreter path and the
        driver script path are given by the caller. */
    method BaseCmd(interpreter: string, downward: string, planFilename: string) returns (cmd: seq<string>)
      requires interpreter != ""
      ensures cmd == BaseCommand(Config(), interpreter, downward, planFilename)
    {
      cmd := [interpreter, downward, "--plan-file", planFilename];
      if driverOptions.Some? {
        cmd := cmd + driverOptions.value;
      }
      if searchTimeLimit.Some? {
        cmd := cmd + ["--search-time-limit", searchTimeLimit.value];
      }
      cmd := cmd + ["--log-level", logLevel];
    }

    /** The one-shot invocation. */
    method GetCmd(interpreter: string, downward: string,
                  domainFilename: string, problemFilename: string, planFilename: string) returns (cmd: seq<string>)
      requires interpreter != ""
      ensures cmd == Command(Config(), OneShot, interpreter, downward, domainFilename, problemFilename, planFilename)
    {
      cmd := BaseCmd(interpreter, downward, planFilename);
      cmd := cmd + [domainFilename, problemFilename];
      if translateOptions.Some? && translateOptions.value != [] {
        cmd := cmd + ["--translate-options"] + translateOptions.value;
      }
      if preprocessOptions.Some? && preprocessOptions.value != [] {
        cmd := cmd + ["--preprocess-options"] + preprocessOptions.value;
      }
      assert cmd == CommandBeforeSearch(Config(), interpreter, downward, domainFilename, problemFilename, planFilename);
      if searchConfig.Some? && searchConfig.value != "" {
        cmd := cmd + ["--search-options", "--search"] + Split(searchConfig.value);
      }
      assert cmd == CommandBeforeSearch(Config(), interpreter, downward, domainFilename, problemFilename, planFilename)
                    + SearchBlock(SearchConfigFor(Config(), OneShot));
    }

    /** The anytime invocation: the same tokens, with the anytime configuration. */
    method GetAnytimeCmd(interpreter: string, downward: string,
                         domainFilename: string, problemFilename: string, planFilename: string) returns (cmd: seq<string>)
      requires interpreter != ""
      ensures cmd == Command(Config(), Anytime, interpreter, downward, domainFilename, problemFilename, planFilename)
    {
      cmd := BaseCmd(interpreter, downward, planFilename);
      cmd := cmd + [domainFilename, problemFilename];
      if translateOptions.Some? && translateOptions.value != [] {
        cmd := cmd + ["--translate-options"] + translateOptions.value;
      }
      if preprocessOptions.Some? && preprocessOptions.value != [] {
        cmd := cmd + ["--preprocess-options"] + preprocessOptions.value;
      }
      assert cmd == CommandBeforeSearch(Config(), interpreter, downward, domainFilename, problemFilename, planFilename);
      if anytimeSearchConfig.Some? && anytimeSearchConfig.value != "" {
        cmd := cmd + ["--search-options", "--search"] + Split(anytimeSearchConfig.value);
      }
      assert cmd == CommandBeforeSearch(Config(), interpreter, downward, domainFilename, problemFilename, planFilename)
                    + SearchBlock(SearchConfigFor(Config(), Anytime));
    }

    /** The status of a finished run from the solver's exit code (absent on
        the legacy path), whether a plan was read back, and the problem's
        quality metrics. Exit codes follow the Fast Downward convention. */
    function ResultStatus(problem: Problem, plan: Option<Plan>, retval: Option<int>): (r: PlanGenerationResultStatus)
      reads this
      ensures SearchTerminated(retval) && plan.None? ==> r == guaranteeNoPlanFound
      ensures SearchTerminated(retval) && plan.Some? && problem.qualityMetrics != [] ==> r == guaranteeMetricsTask
      ensures SearchTerminated(retval) && plan.Some? && problem.qualityMetrics == [] ==> r == SolvedSatisficing
      ensures retval == Some(10) || retval == Some(11) ==> r == UnsolvableProven
      ensures retval == Some(12) ==> r == UnsolvableIncompletely
      ensures !SearchTerminated(retval) && !ProvesUnsolvable(retval) && retval != Some(12) ==> r == InternalError
    {
      if retval.None? then
        if plan.None? then guaranteeNoPlanFound else Solved(problem.qualityMetrics)
      else if 0 <= retval.value <= 3 then
        if plan.None? then guaranteeNoPlanFound else Solved(problem.qualityMetrics)
      else if retval.value == 10 || retval.value == 11 then
        UnsolvableProven
      else if retval.value == 12 then
        UnsolvableIncompletely
      else
        InternalError
    }

    /** The status of a plan after a normal termination: satisficing for a
        problem without quality metrics, the engine's guarantee for one with
        metrics; on a valid engine either way a solved status. */
    function Solved(metrics: seq<QualityMetric>): (r: PlanGenerationResultStatus)
      reads this
      ensures metrics == [] ==> r == SolvedSatisficing
      ensures metrics != [] ==> r == guaranteeMetricsTask
      ensures Valid() ==> r == SolvedOptimally || r == SolvedSatisficing
    {
      if metrics != [] then guaranteeMetricsTask else SolvedSatisficing
    }

    /** On a valid engine, each final status has exactly one cause: solved
        means a plan after a normal termination, a proof of unsolvability is a
        normal termination without a plan or exit code 10 or 11, and so on;
        a timeout or an intermediate status never comes out of it. */
    lemma Classification(problem: Problem, plan: Option<Plan>, retval: Option<int>)
      requires Valid()
      ensures var r := ResultStatus(problem, plan, retval);
              (r == SolvedOptimally || r == SolvedSatisficing <==> SearchTerminated(retval) && plan.Some?) &&
              (r == SolvedOptimally ==> problem.qualityMetrics != [] && guaranteeMetricsTask == SolvedOptimally) &&
              (r == UnsolvableProven <==> (SearchTerminated(retval) && plan.None?) || ProvesUnsolvable(retval)) &&
              (r == UnsolvableIncompletely <==> retval == Some(12)) &&
              (r == InternalError <==> !SearchTerminated(retval) && !ProvesUnsolvable(retval) && retval != Some(12)) &&
              r != Timeout && r != Intermediate
    {
    }
  }

  /** An absent exit code (legacy path) or one of 0 to 3: the search ended normally. */
  predicate SearchTerminated(retval: Option<int>) {
    retval.None? || 0 <= retval.value <= 3
  }

  /** Exit codes 10 and 11: the solver proved the task unsolvable. */
  predicate ProvesUnsolvable(retval: Option<int>) {
    retval == Some(10) || retval == Some(11)
  }

  // ---------------------------------------------------------------------
  // Configuration string helpers

  /** A plan count or cost bound as it is written into a configuration:
      either `infinity` or a number. */
  datatype InputValue = Infinity | Finite(n: int) {
    function ToString(): (s: string) {
      if Infinity? then "infinity" else IntToString(n)
    }
  }

  /** Different values are written differently, so a configuration string
      determines the values embedded in it. */
  lemma InputValueToStringInjective(a: InputValue, b: InputValue)
    requires a.ToString() == b.ToString()
    ensures a == b
  {
    InfinityStartsWithI(a);
    InfinityStartsWithI(b);
    if a.Finite? {
      IntToStringInjective(a.n, b.n);
    }
  }

  lemma InfinityStartsWithI(v: InputValue)
    ensures v.ToString()[0] == 'i' <==> v.Infinity?
  {
    if v.Finite? {
      assert IsDigit(v.ToString()[0]) || v.ToString()[0] == '-';
    }
  }

  /** `None` becomes `infinity`; a given value must be at least `minValue`
      and is kept. */
  function FormatInputValue(value: Option<int>, minValue: int): (r: InputValue)
    requires value.Some? ==> value.value >= minValue
    ensures r.Infinity? <==> value.None?
    ensures value.Some? ==> r == Finite(value.value) && r.n >= minValue
  {
    if value.None? then Infinity else Finite(value.value)
  }

  /** The engine name of a configuration: everything before its first `(`. */
  function EngineName(config: string): string
    requires '(' in config
  {
    config[..Find(config, '(').value]
  }

  /** The parameter part of a configuration: everything from its first `(`. */
  function Parameters(config: string): (p: string)
    requires '(' in config
    ensures |p| > 0 && p[0] == '('
    ensures EngineName(config) + p == config
  {
    config[Find(config, '(').value..]
  }

  /** An engine name without `(` followed by a parameter part splits back
      into the two. */
  lemma SplitConfig(engine: string, params: string)
    requires '(' !in engine && |params| > 0 && params[0] == '('
    ensures '(' in engine + params
    ensures EngineName(engine + params) == engine && Parameters(engine + params) == params
  {
    FindAfterPrefix(engine, params, '(');
    var c := engine + params;
    assert c[..|engine|] == engine && c[|engine|..] == params;
  }

  /** Puts `newEngine` in place of the configuration's engine name. */
  function ReplaceSearchEngineInConfig(searchConfig: string, newEngine: string): (r: string)
    requires '(' in searchConfig
    ensures '(' in r
    ensures r == newEngine + Parameters(searchConfig)
    ensures '(' !in newEngine ==> EngineName(r) == newEngine && Parameters(r) == Parameters(searchConfig)
  {
    var r := newEngine + searchConfig[Find(searchConfig, '(').value..];
    assert r[|newEngine|] == '(';
    if '(' in newEngine then r
    else FindAfterPrefix(newEngine, Parameters(searchConfig), '('); r
  }

  /** Replacing the engine twice is replacing it once with the second engine. */
  lemma ReplaceTwice(searchConfig: string, first: string, second: string)
    requires '(' in searchConfig && '(' !in first
    ensures ReplaceSearchEngineInConfig(ReplaceSearchEngineInConfig(searchConfig, first), second)
            == ReplaceSearchEngineInConfig(searchConfig, second)
  {
  }
}
