/** The PDDL writer for oversubscription tasks: it drops the oversubscription
    metric from the problem handed to the framework's writer, and replaces the
    `:goal` section of the written problem file by a `(:utility ...)` section
    built from the soft goals and a fixed `(:bound ...)` section. The problem
    file is modelled as its sequence of lines. */
module OspPddlWriter {
  import opened Wrappers
  import opened Strings
  import opened Problems

  // ---------------------------------------------------------------------
  // The constructor: picking and filtering the quality metrics

  /** The metric classes the constructor looks for. */
  datatype MetricKind = OversubscriptionKind | ActionCostsKind | PlanLengthKind

  predicate IsKind(m: QualityMetric, k: MetricKind) {
    match k
    case OversubscriptionKind => m.Oversubscription?
    case ActionCostsKind => m.MinimizeActionCosts?
    case PlanLengthKind => m.MinimizeSequentialPlanLength?
  }

  /** `next((qm for qm in metrics if isinstance(qm, K)), None)`: the first
      metric of the kind, or `None` when there is none. */
  function FirstOfKind(metrics: seq<QualityMetric>, k: MetricKind): (r: Option<QualityMetric>)
    ensures r.None? <==> forall i | 0 <= i < |metrics| :: !IsKind(metrics[i], k)
    ensures r.Some? ==> exists i | 0 <= i < |metrics| ::
              metrics[i] == r.value && IsKind(metrics[i], k) &&
              forall j | 0 <= j < i :: !IsKind(metrics[j], k)
  {
    if metrics == [] then None
    else if IsKind(metrics[0], k) then
      assert metrics[0] == metrics[0];
      Some(metrics[0])
    else
      var r := FirstOfKind(metrics[1..], k);
      if r.Some? then
        var i :| 0 <= i < |metrics[1..]| && metrics[1..][i] == r.value && IsKind(metrics[1..][i], k) &&
                 forall j | 0 <= j < i :: !IsKind(metrics[1..][j], k);
        assert metrics[i + 1] == r.value;
        assert forall j | 0 <= j < i + 1 :: !IsKind(metrics[j], k) by {
          forall j | 0 <= j < i + 1 ensures !IsKind(metrics[j], k) {
            if j > 0 { assert metrics[j] == metrics[1..][j - 1]; }
          }
        }
        r
      else
        assert forall i | 0 <= i < |metrics[1..]| :: metrics[1..][i] == metrics[i + 1];
        r
  }

  /** The metrics of the rewritten problem: the original ones without the
      oversubscription metrics, in their original order. */
  function WithoutOversubscription(metrics: seq<QualityMetric>): (r: seq<QualityMetric>)
    ensures |r| <= |metrics|
    ensures HasOversubscription(metrics) ==> |r| < |metrics|
  {
    if metrics == [] then []
    else
      var rest := WithoutOversubscription(metrics[1..]);
      OversubscriptionInTail(metrics);
      if metrics[0].Oversubscription? then rest else [metrics[0]] + rest
  }

  lemma OversubscriptionInTail(metrics: seq<QualityMetric>)
    requires metrics != []
    ensures HasOversubscription(metrics) && !metrics[0].Oversubscription? ==> HasOversubscription(metrics[1..])
  {
    if HasOversubscription(metrics) && !metrics[0].Oversubscription? {
      var i :| 0 <= i < |metrics| && metrics[i].Oversubscription?;
      assert metrics[1..][i - 1].Oversubscription?;
    }
  }

  /** The kept metrics are exactly the original ones that are not
      oversubscription metrics. */
  lemma {:induction false} WithoutOversubscriptionMembers(metrics: seq<QualityMetric>, m: QualityMetric)
    ensures m in WithoutOversubscription(metrics) <==> m in metrics && !m.Oversubscription?
  {
    if metrics != [] {
      WithoutOversubscriptionMembers(metrics[1..], m);
      assert metrics == [metrics[0]] + metrics[1..];
    }
  }

  /** Filtering splits over concatenation, so the kept metrics stay in the
      order they had. */
  lemma {:induction false} WithoutOversubscriptionAppend(a: seq<QualityMetric>, b: seq<QualityMetric>)
    ensures WithoutOversubscription(a + b) == WithoutOversubscription(a) + WithoutOversubscription(b)
  {
    if a != [] {
      DropAppend(a, b);
      WithoutOversubscriptionAppend(a[1..], b);
    } else {
      assert a + b == b;
    }
  }

  /** Metrics without an oversubscription metric are kept as they are. */
  lemma {:induction false} WithoutOversubscriptionKeeps(metrics: seq<QualityMetric>)
    requires !HasOversubscription(metrics)
    ensures WithoutOversubscription(metrics) == metrics
  {
    if metrics != [] {
      assert !metrics[0].Oversubscription?;
      assert !HasOversubscription(metrics[1..]) by {
        forall i | 0 <= i < |metrics[1..]| ensures !metrics[1..][i].Oversubscription? {
          assert metrics[1..][i] == metrics[i + 1];
        }
      }
      WithoutOversubscriptionKeeps(metrics[1..]);
    }
  }

  /** Filtering twice is filtering once. */
  lemma WithoutOversubscriptionIdempotent(metrics: seq<QualityMetric>)
    ensures WithoutOversubscription(WithoutOversubscription(metrics)) == WithoutOversubscription(metrics)
  {
    var r := WithoutOversubscription(metrics);
    assert !HasOversubscription(r) by {
      forall i | 0 <= i < |r| ensures !r[i].Oversubscription? {
        WithoutOversubscriptionMembers(metrics, r[i]);
      }
    }
    WithoutOversubscriptionKeeps(r);
  }

  lemma DropAppend<T>(a: seq<T>, b: seq<T>)
    requires a != []
    ensures a + b == [a[0]] + (a[1..] + b) && (a + b)[0] == a[0] && (a + b)[1..] == a[1..] + b
  {
  }

  lemma TakeOneMore<T>(s: seq<T>, i: nat)
    requires i < |s|
    ensures s[..i + 1] == s[..i] + [s[i]]
  {
  }

  /** The writer's state after construction. */
  datatype OspWriter = OspWriter(
    originalProblem: Problem,
    ospMetric: QualityMetric,
    planCostMetric: Option<QualityMetric>,
    planLengthMetric: Option<QualityMetric>,
    goals: seq<SoftGoal>,
    problem: Problem)

  /** `OspPDDLWriter.__init__`: the problem may have at most two metrics, one
      of them an oversubscription metric. The writer remembers the first
      metric of each kind and the soft goals, and hands on a copy of the
      problem without the oversubscription metric, which then has at most one
      metric left. */
  method NewOspWriter(problem: Problem) returns (w: OspWriter)
    requires |problem.qualityMetrics| <= 2
    requires HasOversubscription(problem.qualityMetrics)
    ensures w.originalProblem == problem
    ensures FirstOfKind(problem.qualityMetrics, OversubscriptionKind) == Some(w.ospMetric)
    ensures w.ospMetric.Oversubscription? && w.goals == w.ospMetric.goals
    ensures w.planCostMetric == FirstOfKind(problem.qualityMetrics, ActionCostsKind)
    ensures w.planLengthMetric == FirstOfKind(problem.qualityMetrics, PlanLengthKind)
    ensures w.problem == problem.(qualityMetrics := WithoutOversubscription(problem.qualityMetrics))
    ensures |w.problem.qualityMetrics| <= 1
  {
    var metrics := problem.qualityMetrics;
    var osp := FirstOfKind(metrics, OversubscriptionKind);
    var planCost := FirstOfKind(metrics, ActionCostsKind);
    var planLength := FirstOfKind(metrics, PlanLengthKind);
    var kept: seq<QualityMetric> := [];
    for i := 0 to |metrics|
      invariant kept == WithoutOversubscription(metrics[..i])
    {
      TakeOneMore(metrics, i);
      WithoutOversubscriptionAppend(metrics[..i], [metrics[i]]);
      if !metrics[i].Oversubscription? {
        kept := kept + [metrics[i]];
      }
    }
    assert metrics[..|metrics|] == metrics;
    w := OspWriter(problem, osp.value, planCost, planLength, osp.value.goals,
                   problem.(qualityMetrics := kept));
  }

  // ---------------------------------------------------------------------
  // The utility and bound sections

  /** The exception raised for a soft goal that is not a plain fluent
      (`UPUnsupportedProblemTypeError`). */
  datatype WriterError = UnsupportedProblemType {

    /** The text the exception carries. */
    function Message(): string {
      UnsupportedGoalMessage
    }
  }

  const UnsupportedGoalMessage: string :=
    "Symk currently only supports fluents in the oversubscribed goal description. " +
    "Please use another oversubscription engine or define the oversubscribed goal definition " +
    "via derived predicates that can capture complex conditions."

  const UnsupportedGoal: WriterError := UnsupportedProblemType

  /** The line the utility and bound sections replace. */
  const GoalAnchor: string := ":goal"

  /** The bound section written into every task: the plan cost bound is the
      largest 32-bit signed integer minus one, as the real bound is passed to
      the search engine. */
  const BoundString: string := " (:bound 2147483646)\n"

  /** `get_util_pddl`: a soft goal as `(= (<fluent> <args>) <utility>)`; a
      fact that is not a plain fluent raises. */
  function UtilPddl(goal: SoftGoal): (r: Result<string, WriterError>)
    ensures r.Ok? <==> goal.0.FluentFact?
    ensures r.Err? ==> r.error == UnsupportedGoal
    ensures r.Ok? ==> |r.value| > 0 && r.value[0] == '(' && r.value[|r.value| - 1] == ')'
  {
    match goal.0
    case FluentFact(fluent, args) =>
      var s := "(= (" + fluent + " " + args + ") " + IntToString(goal.1) + ")";
      assert s[0] == '(';
      Ok(s)
    case ComplexFact => Err(UnsupportedGoal)
  }

  /** A fluent name without spaces and arguments without `)`: the soft goals
      a PDDL problem can hold. */
  predicate PlainGoal(goal: SoftGoal) {
    goal.0.FluentFact? && ' ' !in goal.0.fluent && ')' !in goal.0.args
  }

  /** The utility term loses nothing: different plain soft goals give
      different terms. */
  lemma UtilPddlInjective(g1: SoftGoal, g2: SoftGoal)
    requires PlainGoal(g1) && PlainGoal(g2)
    requires UtilPddl(g1) == UtilPddl(g2)
    ensures g1 == g2
  {
    UtilPddlShape(g1);
    UtilPddlShape(g2);
    TermTextInjective(g1.0.fluent, g1.0.args, IntToString(g1.1), g2.0.fluent, g2.0.args, IntToString(g2.1));
    IntToStringInjective(g1.1, g2.1);
  }

  lemma UtilPddlShape(g: SoftGoal)
    requires g.0.FluentFact?
    ensures UtilPddl(g).Ok?
    ensures UtilPddl(g).value == TermText(g.0.fluent, g.0.args, IntToString(g.1))
  {
  }

  /** The term text, grouped from the right for the cancellation steps. */
  function TermText(fluent: string, args: string, utility: string): string {
    "(= (" + (fluent + (" " + (args + (") " + utility + ")")))) + ""
  }

  lemma TermTextInjective(n1: string, a1: string, w1: string, n2: string, a2: string, w2: string)
    requires ' ' !in n1 && ' ' !in n2 && ')' !in a1 && ')' !in a2
    requires TermText(n1, a1, w1) == TermText(n2, a2, w2)
    ensures n1 == n2 && a1 == a2 && w1 == w2
  {
    var x1, x2 := ") " + w1 + ")", ") " + w2 + ")";
    CancelAffixes("(= (", n1 + (" " + (a1 + x1)), n2 + (" " + (a2 + x2)), "");
    SplitAtSeparator(' ', n1, " " + (a1 + x1), n2, " " + (a2 + x2));
    assert " " + (a1 + x1) + "" == " " + (a2 + x2) + "";
    CancelAffixes(" ", a1 + x1, a2 + x2, "");
    SplitAtSeparator(')', a1, x1, a2, x2);
    CancelAffixes(") ", w1, w2, ")");
  }

  /** Every soft goal is a plain fluent application. */
  predicate AllFluent(goals: seq<SoftGoal>) {
    forall i | 0 <= i < |goals| :: goals[i].0.FluentFact?
  }

  /** The terms of the soft goals in order, each preceded by a space, or the
      error of the first goal that is not a plain fluent. */
  function Terms(goals: seq<SoftGoal>): (r: Result<string, WriterError>)
    ensures r.Ok? <==> AllFluent(goals)
    ensures r.Err? ==> r.error == UnsupportedGoal
  {
    if goals == [] then Ok("")
    else
      var init, last := goals[..|goals| - 1], goals[|goals| - 1];
      assert AllFluent(goals) <==> AllFluent(init) && last.0.FluentFact? by {
        assert forall i | 0 <= i < |init| :: init[i] == goals[i];
      }
      match Terms(init)
      case Err(e) => Err(e)
      case Ok(t) =>
        match UtilPddl(last)
        case Err(e) => Err(e)
        case Ok(u) => Ok(t + " " + u)
  }

  /** The terms of two runs of goals are the terms of each, one after the other. */
  lemma {:induction false} TermsAppend(a: seq<SoftGoal>, b: seq<SoftGoal>)
    requires Terms(a).Ok? && Terms(b).Ok?
    ensures Terms(a + b) == Ok(Terms(a).value + Terms(b).value)
  {
    if b == [] {
      assert a + b == a;
      assert Terms(a).value + "" == Terms(a).value;
    } else {
      TermsOfInit(b);
      TermsAppend(a, b[..|b| - 1]);
      TermsAppendLast(a, b);
    }
  }

  /** The step of `TermsAppend` for the last goal of `b`. */
  lemma TermsAppendLast(a: seq<SoftGoal>, b: seq<SoftGoal>)
    requires b != [] && Terms(a).Ok? && Terms(b).Ok? && Terms(b[..|b| - 1]).Ok?
    requires Terms(a + b[..|b| - 1]) == Ok(Terms(a).value + Terms(b[..|b| - 1]).value)
    ensures Terms(a + b) == Ok(Terms(a).value + Terms(b).value)
  {
    var init, last := b[..|b| - 1], b[|b| - 1];
    SplitLast(b);
    AppendSnoc(a, init, last);
    TermsSnoc(init, last);
    TermsSnoc(a + init, last);
    var ta, ti, u := Terms(a).value, Terms(init).value, UtilPddl(last).value;
    AppendAssociative(ti, " ", u);
    AppendAssociative(ta + ti, " ", u);
    AppendAssociative(ta, ti, " " + u);
  }

  /** One more goal adds its term at the end. */
  lemma TermsSnoc(init: seq<SoftGoal>, goal: SoftGoal)
    ensures Terms(init + [goal]) ==
              if Terms(init).Ok? && UtilPddl(goal).Ok? then Ok(Terms(init).value + " " + UtilPddl(goal).value)
              else Err(UnsupportedGoal)
  {
    SnocParts(init, goal);
  }

  lemma SnocParts<T>(s: seq<T>, x: T)
    ensures (s + [x])[..|s|] == s && (s + [x])[|s|] == x
  {
  }

  lemma SplitLast<T>(s: seq<T>)
    requires s != []
    ensures s == s[..|s| - 1] + [s[|s| - 1]]
  {
  }

  lemma AppendSnoc<T>(a: seq<T>, s: seq<T>, x: T)
    ensures a + (s + [x]) == (a + s) + [x]
  {
  }

  lemma AppendAssociative(x: string, y: string, z: string)
    ensures x + y + z == x + (y + z)
  {
  }

  /** The goals before the last one have terms whenever all goals do. */
  lemma TermsOfInit(goals: seq<SoftGoal>)
    requires goals != [] && Terms(goals).Ok?
    ensures Terms(goals[..|goals| - 1]).Ok? && UtilPddl(goals[|goals| - 1]).Ok?
    ensures Terms(goals).value == Terms(goals[..|goals| - 1]).value + " " + UtilPddl(goals[|goals| - 1]).value
  {
  }

  /** The utility section: `(:utility`, the terms, `)` and a newline. */
  function Utility(goals: seq<SoftGoal>): (r: Result<string, WriterError>)
    ensures r.Ok? <==> AllFluent(goals)
    ensures r.Err? ==> r.error == UnsupportedGoal
    ensures r.Ok? ==> StartsWith(r.value, "(:utility") && r.value == "(:utility" + Terms(goals).value + ")\n"
  {
    match Terms(goals)
    case Err(e) => Err(e)
    case Ok(t) => Ok("(:utility" + t + ")\n")
  }

  /** The text that replaces the goal line: the utility section followed by
      the bound section. */
  function ReplacementText(goals: seq<SoftGoal>): (r: Result<string, WriterError>)
    ensures r.Ok? <==> Utility(goals).Ok?
    ensures r.Err? ==> r.error == UnsupportedGoal
    ensures r.Ok? ==> r.value == Utility(goals).value + BoundString
  {
    match Utility(goals)
    case Err(e) => Err(e)
    case Ok(u) => Ok(u + BoundString)
  }

  /** The loop of `_write_problem` that accumulates the utility section,
      raising at the first soft goal that is not a plain fluent. */
  method UtilityText(goals: seq<SoftGoal>) returns (r: Result<string, WriterError>)
    ensures r == Utility(goals)
  {
    var util := "(:utility";
    for i := 0 to |goals|
      invariant Terms(goals[..i]).Ok? && util == "(:utility" + Terms(goals[..i]).value
    {
      var term := UtilPddl(goals[i]);
      if term.Err? {
        return Err(term.error);
      }
      assert goals[..i + 1][..i] == goals[..i];
      util := util + " " + term.value;
    }
    assert goals[..|goals|] == goals;
    r := Ok(util + ")\n");
  }

  /** Two soft goals on `at`, written as the solver expects them. */
  lemma UtilityExample()
    ensures Utility([(FluentFact("at", "x"), 5), (FluentFact("at", "y"), 3)])
            == Ok("(:utility (= (at x) 5) (= (at y) 3))\n")
  {
    var g1, g2 := (FluentFact("at", "x"), 5), (FluentFact("at", "y"), 3);
    assert IntToString(5) == "5" && IntToString(3) == "3";
    assert UtilPddl(g1) == Ok("(= (" + "at" + " " + "x" + ") " + "5" + ")");
    assert UtilPddl(g2) == Ok("(= (" + "at" + " " + "y" + ") " + "3" + ")");
    TermsSnoc([], g1);
    TermsSnoc([g1], g2);
    assert [] + [g1] == [g1] && [g1] + [g2] == [g1, g2];
    var u1, u2 := "(= (at x) 5)", "(= (at y) 3)";
    assert UtilPddl(g1).value == u1 && UtilPddl(g2).value == u2;
    assert Terms([g1, g2]) == Ok("" + " " + u1 + " " + u2);
    ExampleText(u1, u2);
  }

  lemma ExampleText(u1: string, u2: string)
    requires u1 == "(= (at x) 5)" && u2 == "(= (at y) 3)"
    ensures "(:utility" + ("" + " " + u1 + " " + u2) + ")\n" == "(:utility (= (at x) 5) (= (at y) 3))\n"
  {
  }

  // ---------------------------------------------------------------------
  // Replacing the goal line

  /** Every line that contains the target becomes the new string; every
      other line stays as it is. */
  function ReplacedLines(lines: seq<string>, target: string, newString: string): (r: seq<string>)
    ensures |r| == |lines|
    ensures forall i | 0 <= i < |lines| ::
              r[i] == (if Contains(lines[i], target) then newString else lines[i])
  {
    if lines == [] then []
    else [if Contains(lines[0], target) then newString else lines[0]]
         + ReplacedLines(lines[1..], target, newString)
  }

  /** A file without the target is left unchanged. */
  lemma ReplacedLinesNoMatch(lines: seq<string>, target: string, newString: string)
    requires forall i | 0 <= i < |lines| :: !Contains(lines[i], target)
    ensures ReplacedLines(lines, target, newString) == lines
  {
  }

  /** Replacing a second time changes nothing. */
  lemma ReplacedLinesIdempotent(lines: seq<string>, target: string, newString: string)
    ensures var once := ReplacedLines(lines, target, newString);
            ReplacedLines(once, target, newString) == once
  {
  }

  /** `replace_line_with_string` over the lines of the file. */
  method ReplaceLineWithString(lines: array<string>, target: string, newString: string)
    modifies lines
    ensures lines[..] == ReplacedLines(old(lines[..]), target, newString)
  {
    for i := 0 to lines.Length
      invariant forall k | 0 <= k < i ::
                  lines[k] == (if Contains(old(lines[k]), target) then newString else old(lines[k]))
      invariant forall k | i <= k < lines.Length :: lines[k] == old(lines[k])
    {
      if Contains(lines[i], target) {
        lines[i] := newString;
      }
    }
  }

  /** `_write_problem` after the framework has written the problem: the goal
      line is replaced by the utility and bound sections. A soft goal that is
      not a plain fluent raises before the file is touched again. */
  method WriteProblem(w: OspWriter, lines: array<string>) returns (r: Result<(), WriterError>)
    modifies lines
    ensures r.Ok? <==> ReplacementText(w.goals).Ok?
    ensures r.Err? ==> r.error == UnsupportedGoal && lines[..] == old(lines[..])
    ensures r.Ok? ==> lines[..] == ReplacedLines(old(lines[..]), GoalAnchor, ReplacementText(w.goals).value)
  {
    var util := UtilityText(w.goals);
    if util.Err? {
      return Err(util.error);
    }
    ReplaceLineWithString(lines, GoalAnchor, util.value + BoundString);
    r := Ok(());
  }
}
