/** The parts of the planning framework's problem and plan objects that the
    adapter looks at. The framework itself (expressions, fluents, PDDL
    serialisation) is outside this model; a fact is reduced to what the
    oversubscription writer needs from it. */
module Problems {

  /** A goal fact. `FluentFact` is a plain fluent application, given by the
      fluent's name and its arguments already printed and separated by spaces;
      `ComplexFact` stands for every other Boolean expression (a conjunction,
      a negation, ...), on which asking for the fluent fails. */
  datatype Fact = FluentFact(fluent: string, args: string) | ComplexFact

  /** A soft goal of an oversubscription metric: a fact and its utility. */
  type SoftGoal = (Fact, int)

  /** The quality metrics the engine distinguishes. `Oversubscription` keeps
      its goal dictionary as the sequence of its items in iteration order. */
  datatype QualityMetric =
    | Oversubscription(goals: seq<SoftGoal>)
    | MinimizeActionCosts
    | MinimizeSequentialPlanLength
    | OtherMetric

  /** A planning problem: its hard goals and its quality metrics, in order. */
  datatype Problem = Problem(goals: seq<Fact>, qualityMetrics: seq<QualityMetric>)

  /** A plan, as the sequence of its action instances. */
  datatype Plan = Plan(actions: seq<string>)

  /** Whether some metric of the list is an oversubscription metric, scanned
      from the front and stopping at the first one found. */
  predicate HasOversubscription(metrics: seq<QualityMetric>): (r: bool)
    ensures r <==> exists i | 0 <= i < |metrics| :: metrics[i].Oversubscription?
  {
    if metrics == [] then false
    else if metrics[0].Oversubscription? then true
    else
      var r := HasOversubscription(metrics[1..]);
      assert forall i | 1 <= i < |metrics| :: metrics[i] == metrics[1..][i - 1];
      r
  }
}
