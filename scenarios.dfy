/** `simulate_scenario`: recognizes one of three what-if scenarios in free
    text and reports the feature it would change and the changed value. */
module Scenarios {
  import opened Options
  import opened Text
  import opened FeatureSchema

  /** `{"scenario", "modified_feature", "modified_value"}`; the two optional
      fields are both absent for an unrecognized scenario. */
  datatype ScenarioResult = ScenarioResult(
    description: string,
    modifiedFeature: Option<string>,
    modifiedValue: Option<real>)

  const UnknownScenario := ScenarioResult("Unknown scenario", None, None)

  /** `simulate_scenario`: an `if/elif` chain over the lower-cased text with
      no fallthrough; the reported value is the input scaled and is not
      clamped at 0. */
  function SimulateScenario(f: Features, scenario: string): (r: ScenarioResult)
    ensures r.modifiedFeature.None? <==> r.modifiedValue.None?
    ensures r.modifiedFeature.None? ==> r == UnknownScenario
    ensures r.modifiedFeature.Some? ==>
      r.modifiedFeature.value in {MonthlyIncome, DebtRatio, RevolvingUtilization}
    ensures r.modifiedFeature == Some(MonthlyIncome) ==>
      r.modifiedValue == Some(Get(f, MonthlyIncome) * 1.2) && r.description == "20% income increase"
    ensures r.modifiedFeature == Some(DebtRatio) ==>
      r.modifiedValue == Some(Get(f, DebtRatio) * 0.7) && r.description == "30% debt reduction"
    ensures r.modifiedFeature == Some(RevolvingUtilization) ==>
      r.modifiedValue == Some(Get(f, RevolvingUtilization) * 0.5)
      && r.description == "50% credit utilization reduction"
  {
    var text := Lower(scenario);
    if Contains(text, "income") then
      if Contains(scenario, "20%") then
        ScenarioResult("20% income increase", Some(MonthlyIncome), Some(Get(f, MonthlyIncome) * 1.2))
      else UnknownScenario
    else if Contains(text, "debt") then
      if Contains(text, "reduce") then
        ScenarioResult("30% debt reduction", Some(DebtRatio), Some(Get(f, DebtRatio) * 0.7))
      else UnknownScenario
    else if Contains(text, "utilization") then
      ScenarioResult("50% credit utilization reduction", Some(RevolvingUtilization),
                     Some(Get(f, RevolvingUtilization) * 0.5))
    else UnknownScenario
  }

  /** The first keyword decides which scenario is reported: text mentioning
      "income" gives the income scenario or nothing, text mentioning "debt"
      (and not "income") the debt scenario or nothing, whatever else it says;
      only text mentioning neither can reach the utilization scenario. */
  lemma ScenarioNoFallthrough(f: Features, scenario: string)
    ensures var text := Lower(scenario);
      var r := SimulateScenario(f, scenario);
      && (Contains(text, "income") ==>
            r.modifiedFeature == (if Contains(scenario, "20%") then Some(MonthlyIncome) else None))
      && (!Contains(text, "income") && Contains(text, "debt") ==>
            r.modifiedFeature == (if Contains(text, "reduce") then Some(DebtRatio) else None))
      && (!Contains(text, "income") && !Contains(text, "debt") ==>
            r.modifiedFeature == (if Contains(text, "utilization") then Some(RevolvingUtilization) else None))
      && (r.modifiedFeature.Some? ==> r.modifiedFeature.value in Schema)
  {
  }

  /** The reported value is not clamped: a negative debt ratio or a negative
      utilization is reported scaled, and so still negative. */
  lemma ScenarioValueNotClamped(f: Features, scenario: string)
    ensures var r := SimulateScenario(f, scenario);
      r.modifiedFeature == Some(DebtRatio) && Get(f, DebtRatio) < 0.0 ==> r.modifiedValue.value < 0.0
    ensures var r := SimulateScenario(f, scenario);
      r.modifiedFeature == Some(RevolvingUtilization) && Get(f, RevolvingUtilization) < 0.0
      ==> r.modifiedValue.value < 0.0
  {
  }
}
