# up-symk: a Dafny model of the SymK adapter

up-symk connects the SymK planner, a Fast Downward derivative for optimal
and top-k planning, to the Unified Planning framework. The adapter does
four things, and this project models each of them.

- It builds the argument vector that runs the solver's driver script, in
  one-shot mode or anytime (plan-streaming) mode.
- It maps the solver's exit code, and whether a plan file was read back, to
  a framework result status.
- It picks default search configurations and recognises plan lines in the
  solver's output.
- It handles oversubscription tasks (tasks with soft goals that carry
  utilities and no hard goals), in two steps:
  - it switches both search engines to their oversubscription versions;
  - it rewrites the written PDDL problem file so that the `:goal` line is
    replaced by a `(:utility ...)` section and a fixed `(:bound ...)`
    section.

The modules:

- `Wrappers`: `Option` and `Result`.
- `Strings`: the Python string operations the adapter relies on, stated in
  Dafny. They cover `str.split()`, `str.strip()`, `str.find`, `split("(")[0]`,
  `startswith`, substring `in` and `str(int)`, and come with their
  properties. One example: splitting a space-joined list of words gives the
  words back.
- `Problems`: the parts of the framework's problem, metric and plan objects
  that the adapter reads.
- `SymKBase` models `up_symk/symk_base.py`:
  - the class `SymKMixin`, with its configuration fields, its command
    methods and its exit-code classification;
  - the configuration-string helpers `replace_search_engine_in_config` and
    `format_input_value`.
- `SymK` models `up_symk/symk.py`:
  - the two engine classes, `SymKOptimalPDDLPlanner` and its subclass
    `SymKPDDLPlanner`, as one class `SymKPlanner` with a `variant` constant;
  - their guarantees, default configurations, plan-line parsing, the
    switch into oversubscription mode, and the final status of an
    oversubscription run.
- `OspPddlWriter` models `up_symk/osp_pddl_writer.py`:
  - the writer's constructor, which picks and filters the quality metrics;
  - the utility and bound sections;
  - the line replacement in the problem file, with the file modelled as an
    array of lines.

Modelling notes:

- Composition stands in for Python's multiple inheritance. A `SymKPlanner`
  holds a `SymKMixin` object, `base`, whose fields the solve step updates
  in place. Its `Config()` function packs the seven configuration fields
  into a `SolverConfig` value. The pure functions `BaseCommand` and
  `Command` over that value specify the command methods.
- The choice between the `symq` and `symk` oversubscription engines follows
  the code. It asks whether the engine promises optimal plans in anytime
  mode (`Ensures(v, OptimalPlans)`). That holds for the optimal engine and
  for no other.
- Python `assert` statements become `requires` clauses. These include:
  - at most two metrics in the writer;
  - an oversubscription metric present in the writer;
  - no hard goals in an oversubscription task;
  - a `(` in a configuration whose engine is replaced;
  - `symq`/`symk` in the anytime configuration;
  - the minimum values in `format_input_value`.
- The one exception the core raises on purpose is
  `UPUnsupportedProblemTypeError`, raised for a soft goal that is not a
  plain fluent. It is the error case of a `Result`.

Behaviour worth noting:

- In the plan-line parser, the part before the first `(` is stripped and
  put in parentheses. A line that begins with `(`, such as `(move a b)`,
  therefore gives `()`. A SymK step line such as `move a b (1)` gives
  `(move a b)` (`SymK.ParsePlanLineValue`, `SymK.ParseStepLine`).
- When no line contains `:goal`, `replace_line_with_string` leaves the file
  unchanged. There is no error (`OspPddlWriter.ReplacedLinesNoMatch`).
- A search configuration made only of white space is truthy. It adds
  `--search-options --search` with no tokens after it (`SymKBase.SearchBlock`).

## Model

| member | source | states |
|---|---|---|
| SymKBase.SymKMixin.constructor | up_symk/symk_base.py:26-45 | the fields hold the given configuration (every option absent and log level `info` by default); a plan not found is proven unsolvable and a plan for a task with metrics is optimal |
| SymKBase.BaseCommand | up_symk/symk_base.py:47-56 | the vector starts with interpreter, driver script, `--plan-file` and the plan file; the driver options follow; `--search-time-limit` and its value appear exactly when a limit is set; it ends with `--log-level` and the level |
| SymKBase.SymKMixin.BaseCmd | up_symk/symk_base.py:47-56 | the command built field by field equals `BaseCommand` of the engine's configuration |
| SymKBase.OptionsBlock | up_symk/symk_base.py:63-66 | the block is empty exactly when the option list is absent or empty; otherwise it is the flag followed by the list |
| SymKBase.SearchBlock | up_symk/symk_base.py:67-68 | the block is empty exactly when the configuration is absent or empty; otherwise it starts with `--search-options --search` and every later token is a non-empty word without white space |
| SymKBase.Command | up_symk/symk_base.py:58-69 | the full vector starts with the base command followed by the domain and problem files, and ends with the search block of the mode's configuration |
| SymKBase.SymKMixin.GetCmd | up_symk/symk_base.py:58-69 | the one-shot command equals `Command` in one-shot mode |
| SymKBase.SymKMixin.GetAnytimeCmd | up_symk/symk_base.py:71-85 | the anytime command equals `Command` in anytime mode, which uses the anytime search configuration |
| SymKBase.CommandStartsWithInterpreter | up_symk/symk_base.py:50-61 | every command in either mode starts with interpreter, driver script, `--plan-file` and the plan file |
| SymKBase.OptionBlocksLayout | up_symk/symk_base.py:61-66 | the translator block and then the preprocessor block sit between the problem file and the search block, with nothing else in between |
| SymKBase.SearchBlockClosesCommand | up_symk/symk_base.py:67-69 | with a non-empty configuration the command ends with `--search-options --search` followed by the configuration's whitespace-separated tokens; otherwise neither flag is emitted and the command ends after the option blocks |
| SymKBase.SearchConfigFollowsSearchFlag | up_symk/symk_base.py:67-68 | a configuration without white space, such as `sym-bd(bound=10)`, is the last token, right after `--search-options --search` |
| SymKBase.ModesDifferOnlyInSearchBlock | up_symk/symk_base.py:71-85 | the one-shot and anytime commands agree up to the search block, and are equal when both modes use the same configuration |
| SymKBase.SymKMixin.Solved | up_symk/symk_base.py:94-98 | a plan for a problem without metrics is satisficing, one for a problem with metrics gets the engine's metrics guarantee; on a valid engine the status is solved optimally or satisficing |
| SymKBase.SymKMixin.ResultStatus | up_symk/symk_base.py:87-117 | the Fast Downward exit-code table: a normal end (no code, or 0 to 3) gives the no-plan status without a plan, and the metrics status or satisficing with one; 10 and 11 give proven unsolvable; 12 gives incompletely unsolvable; any other code gives internal error |
| SymKBase.SymKMixin.Classification | up_symk/symk_base.py:94-117 | on a valid engine each status has exactly one cause, in both directions: solved iff a normal end with a plan; proven unsolvable iff a normal end without a plan or code 10/11; a timeout or intermediate status is never produced |
| SymKBase.InputValueToStringInjective | up_symk/symk_base.py:135-139 | different plan counts or bounds, `infinity` included, are written differently |
| SymKBase.FormatInputValue | up_symk/symk_base.py:135-139 | an absent value becomes `infinity`; a given value, at least the minimum, is kept |
| SymKBase.Parameters | up_symk/symk_base.py:120-132 | the part from the first `(` starts with `(`, and the engine name followed by it is the configuration |
| SymKBase.SplitConfig | up_symk/symk_base.py:120-132 | an engine name without `(` followed by a parameter part splits back into exactly those two |
| SymKBase.ReplaceSearchEngineInConfig | up_symk/symk_base.py:120-132 | the result is the new engine followed by the old parameter part; for an engine without `(`, that engine is the result's engine name and the parameters are kept |
| Strings.Split | up_symk/symk_base.py:68 | every token is a non-empty word without white space, and the tokens concatenated are the non-space characters of the string |
| Strings.SplitJoinSpaced | up_symk/symk_base.py:68 | splitting a space-joined list of words gives the words back |
| Strings.SplitSpaceCons | up_symk/symk_base.py:68 | leading white space is dropped by `split()` |
| Strings.SplitWordCons | up_symk/symk_base.py:68 | a non-white-space run that ends at white space or at the end of the string is the next token, so tokens are maximal runs |
| Strings.Strip | up_symk/symk.py:93 | the result is the string without its leading and trailing white space: it neither starts nor ends with white space |
| Strings.StripSurrounded | up_symk/symk.py:93 | `strip()` of white space, a text with no white space at either end, and white space gives exactly that text |
| Strings.Find | up_symk/symk_base.py:122 | `None` iff the character does not occur; otherwise the index of its first occurrence |
| Strings.IntToStringInjective | up_symk/symk.py:54 | different integers are printed differently |
| SymK.Ensures | up_symk/symk.py:125-129 | only the optimal engine promises anything in anytime mode, and that is optimal plans; the top-k engine (lines 319-321) promises nothing |
| SymK.Satisfies | up_symk/symk.py:95-97 | both engines meet every one-shot optimality guarantee (also lines 314-316) |
| SymK.ParsePlanLine | up_symk/symk.py:90-93 | a timestamp line gives the empty action; any other line gives a parenthesised name with no `(` inside, no surrounding white space and at most two characters longer than the line |
| SymK.ParsePlanLineValue | up_symk/symk.py:90-93 | for every non-timestamp line of the form white space, name, white space, then nothing or a `(`-led rest, the parse is `(name)`; only white space before the first `(` gives `()` |
| SymK.ParseStepLine | up_symk/symk.py:90-93 | a solver step line `action (cost)` gives `(action)` |
| SymK.DefaultSearchConfig | up_symk/symk.py:53-54 | the default one-shot configuration has engine `sym-bd` and parameters `(bound=B)` |
| SymK.DefaultSearchConfigDeterminesBound | up_symk/symk.py:50-54 | the default one-shot configuration determines its bound |
| SymK.DefaultAnytimeConfig | up_symk/symk.py:56-57 | the default anytime configuration has engine `symq-bd` for the optimal variant and `symk-bd` for the top-k variant (lines 294-295), and names the variant's engine family |
| SymK.DefaultAnytimeEngineFacts | up_symk/symk.py:294-295 | the variant's default anytime engine name is the engine name of its configuration and contains the engine family |
| SymK.DefaultAnytimeConfigDeterminesValues | up_symk/symk.py:56-57 | the default anytime configuration determines both the plan count and the bound |
| SymK.DefaultConfigsOspReady | up_symk/symk.py:159-168 | the default configurations of either variant satisfy the assertions of the oversubscription switch |
| SymK.SymKPlanner.constructor | up_symk/symk.py:36-68 | missing configurations become the defaults for the formatted plan count and bound; the rest is passed on unchanged; every option is absent and the log level `info` by default |
| SymK.SymKPlanner.DefaultEngineBaseCommand | up_symk/symk.py:36-68 | an engine built with every default has the base command interpreter, driver script, `--plan-file`, plan file, `--log-level info` (as `_base_cmd`, symk_base.py:47-56, builds it) |
| SymK.OspConfig | up_symk/symk.py:152-168 | the switched configuration is again ready for the switch |
| SymK.OspConfigEffect | up_symk/symk.py:152-168 | driver options become `--translate --search`; the one-shot engine becomes `sym-osp-fw` and the anytime engine `symq-osp-fw` or `symk-osp-fw`; both keep their parameters; nothing else changes |
| SymK.OspAnytimeReplacement | up_symk/symk.py:159-168 | the anytime engine replacement keeps the parameters and still names the variant's engine family |
| SymK.OspConfigIdempotent | up_symk/symk.py:155-168 | switching a second time changes nothing |
| SymK.SymKPlanner.SwitchToOsp | up_symk/symk.py:152-168 | the engine's new configuration is `OspConfig` of the old one; the guarantees are untouched |
| Problems.HasOversubscription | up_symk/symk.py:141-144 | true iff some metric of the problem is an oversubscription metric |
| SymK.SymKPlanner.Solve | up_symk/symk.py:141-176 | an oversubscription problem goes to the oversubscription path with the switched configuration, any other to the framework unchanged; the top-k variant first sets the metrics status to satisficing in anytime mode and optimal otherwise (lines 333-336) |
| SymK.SymKPlanner.OspTaskStatus | up_symk/symk.py:262-271 | timeout iff a timeout occurred and the exit code is not 0; otherwise the exit-code classification |
| OspPddlWriter.FirstOfKind | up_symk/osp_pddl_writer.py:18-31 | `None` iff no metric has the kind; otherwise the first metric of that kind |
| OspPddlWriter.WithoutOversubscription | up_symk/osp_pddl_writer.py:37-44 | the filtered list is no longer than the original, and strictly shorter when the original has an oversubscription metric |
| OspPddlWriter.WithoutOversubscriptionMembers | up_symk/osp_pddl_writer.py:40-42 | a metric is kept iff it is in the original list and is not an oversubscription metric |
| OspPddlWriter.WithoutOversubscriptionAppend | up_symk/osp_pddl_writer.py:40-42 | filtering splits over concatenation, so the kept metrics stay in their order |
| OspPddlWriter.WithoutOversubscriptionKeeps | up_symk/osp_pddl_writer.py:40-42 | a list without oversubscription metrics is kept whole |
| OspPddlWriter.WithoutOversubscriptionIdempotent | up_symk/osp_pddl_writer.py:37-44 | filtering twice is filtering once |
| OspPddlWriter.NewOspWriter | up_symk/osp_pddl_writer.py:9-50 | the writer keeps the original problem, its first metric of each kind and the soft goals, and hands on the problem with only the non-oversubscription metrics, of which there is at most one |
| OspPddlWriter.UtilPddl | up_symk/osp_pddl_writer.py:61-70 | a term exists iff the fact is a plain fluent, otherwise the unsupported-type error; a term is parenthesised |
| OspPddlWriter.UtilPddlInjective | up_symk/osp_pddl_writer.py:61-70 | different plain soft goals give different terms |
| OspPddlWriter.Terms | up_symk/osp_pddl_writer.py:72-74 | the terms exist iff every soft goal is a plain fluent, otherwise the unsupported-type error |
| OspPddlWriter.TermsAppend | up_symk/osp_pddl_writer.py:72-74 | the terms of two runs of goals are the terms of each, one after the other |
| OspPddlWriter.TermsSnoc | up_symk/osp_pddl_writer.py:73-74 | one more goal appends a space and its term, or gives the error |
| OspPddlWriter.Utility | up_symk/osp_pddl_writer.py:72-75 | the section exists iff every soft goal is a plain fluent; it is `(:utility`, the terms, `)` and a newline |
| OspPddlWriter.ReplacementText | up_symk/osp_pddl_writer.py:77-81 | the replacement is the utility section followed by ` (:bound 2147483646)` and a newline, or the error |
| OspPddlWriter.UtilityText | up_symk/osp_pddl_writer.py:72-75 | the loop returns the utility section, or raises at the first goal that is not a plain fluent |
| OspPddlWriter.UtilityExample | up_symk/osp_pddl_writer.py:61-75 | two soft goals on `at` give `(:utility (= (at x) 5) (= (at y) 3))` |
| OspPddlWriter.ReplacedLines | up_symk/osp_pddl_writer.py:88-90 | the number of lines is kept; each line containing the target becomes the new string, and every other line is unchanged |
| OspPddlWriter.ReplacedLinesNoMatch | up_symk/osp_pddl_writer.py:88-90 | a file without the target is left unchanged |
| OspPddlWriter.ReplacedLinesIdempotent | up_symk/osp_pddl_writer.py:88-90 | replacing a second time changes nothing |
| OspPddlWriter.ReplaceLineWithString | up_symk/osp_pddl_writer.py:84-93 | the lines after the call are `ReplacedLines` of the lines before |
| OspPddlWriter.WriteProblem | up_symk/osp_pddl_writer.py:57-81 | it succeeds iff every soft goal is a plain fluent; on success the `:goal` line is replaced by the utility and bound sections; on the error the lines are untouched |

## Left out

- Running the solver: `subprocess`, `asyncio`, `select`, and the
  `UP_USE_ASYNCIO_PDDL_PLANNER` environment variable. They are I/O and
  concurrency. A run's outcome (timeout flag, exit code, plan read back)
  enters `OspTaskStatus` as parameters.
- Temporary directories and the reading and writing of files. A problem
  file is modelled as its array of lines. `write_domain`/`_write_domain`
  only delegate to the framework's writer and flush.
- The framework's PDDL writer, `problem.clone()`, `_plan_from_file` and the
  plan-streaming machinery that calls the parser hooks. These are not part
  of this model. A fact is a fluent name with its arguments already
  printed.
- `pkg_resources.resource_filename` and `sys.executable`. They are
  environment lookups and become the `downward` and `interpreter`
  parameters. The non-empty-interpreter assertion becomes a `requires`.
- `name`, `get_credits`, `supported_kind` and `supports`. They are constant
  metadata, with no behaviour to prove.
- The logs of a run (`LogMessage`) and the `log_messages` argument of
  `_result_status`. The status does not depend on them.
- SymK.SymKPlanner.Solve: it returns which path the problem takes instead of
  calling `_solve_osp_task` or the framework's `_solve`, whose work is in
  the items above. Its contract states only the state changes made before
  that call.
- Utilities are integers. The framework's `Fraction` utilities are not
  modelled.
- `symk_driver_options` is annotated `str` but is used as a list of tokens,
  which is how the oversubscription switch sets it. It is modelled as an
  optional list.
