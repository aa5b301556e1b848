/** `CreditAgent.process_query`: scores an applicant with the classifier,
    then assembles the reasoning trace, the risk factors, the optional
    recommendations and the list of tools used; any failure of the
    classifier turns into the error response. */
module CreditAgent {
  import opened Options
  import opened Text
  import opened FeatureSchema
  import opened RiskAnalysis
  import opened Advice
  import opened Scenarios
  import opened FeatureExplanations

  /** What `model.predict_proba(frame)[0, 1]` yields: the probability of
      serious delinquency, or the message of the exception it raised. */
  datatype Prediction = Scored(p: real) | Raised(message: string)

  /** The agent's two collaborators: the classifier, seen as a function of
      the single-row record, and the optional feature-importance table the
      tools were built with. Neither changes after construction. */
  datatype Agent = Agent(
    model: seq<Column> -> Prediction,
    importance: Option<seq<ImportanceRow>>)

  /** The response dictionary. */
  datatype AgentResponse = AgentResponse(
    probability: real,
    riskLevel: string,
    reasoning: seq<string>,
    riskFactors: seq<string>,
    recommendations: seq<string>,
    toolsUsed: seq<string>)

  // ---------------------------------------------------------------------
  // Risk level
  // ---------------------------------------------------------------------

  /** `_get_risk_level`: four half-open bands with boundaries 0.1, 0.3 and
      0.7, each boundary belonging to the band above it. */
  function RiskLevel(p: real): (level: string)
    ensures level == "Low Risk" <==> p < 0.1
    ensures level == "Medium Risk" <==> 0.1 <= p < 0.3
    ensures level == "High Risk" <==> 0.3 <= p < 0.7
    ensures level == "Very High Risk" <==> 0.7 <= p
  {
    if p < 0.1 then "Low Risk"
    else if p < 0.3 then "Medium Risk"
    else if p < 0.7 then "High Risk"
    else "Very High Risk"
  }

  /** The bands ranked from least to most severe. */
  function Severity(level: string): nat
  {
    if level == "Low Risk" then 0
    else if level == "Medium Risk" then 1
    else if level == "High Risk" then 2
    else 3
  }

  /** A higher probability never gets a milder label. */
  lemma RiskLevelMonotone(p: real, q: real)
    requires p <= q
    ensures Severity(RiskLevel(p)) <= Severity(RiskLevel(q))
  {
  }

  // ---------------------------------------------------------------------
  // The reasoning trace
  // ---------------------------------------------------------------------

  /** `"  • " + line`. */
  function Bullet(line: string): string
  {
    "  • " + line
  }

  function Bullets(lines: seq<string>): (r: seq<string>)
    ensures |r| == |lines|
  {
    seq(|lines|, i requires 0 <= i < |lines| => Bullet(lines[i]))
  }

  /** A header followed by one bullet per line, or nothing for no lines. */
  function Section(header: string, lines: seq<string>): seq<string>
  {
    if lines == [] then [] else [header] + Bullets(lines)
  }

  const FactorsHeader := "Key risk factors identified:"
  const ExplanationsHeader := "Most influential factors:"
  const RecommendationsNote := "Personalized recommendations generated"
  const ExplainNote := "Detailed explanation provided based on feature importance and risk factors"

  predicate AsksWhatIf(query: string)
  {
    Contains(Lower(query), "what if")
  }

  predicate AsksForAdvice(query: string)
  {
    var q := Lower(query);
    Contains(q, "recommend") || Contains(q, "improve") || Contains(q, "suggest")
  }

  predicate AsksToExplain(query: string)
  {
    Contains(Lower(query), "explain")
  }

  /** Whether the query asked for a scenario the simulator recognized. */
  predicate ScenarioRun(features: Features, query: string)
  {
    AsksWhatIf(query) && SimulateScenario(features, query).modifiedFeature.Some?
  }

  /** The assessment and classification lines every scored trace opens with. */
  function Opening(fmt: NumberFormats, p: real): seq<string>
  {
    ["Initial assessment: " + fmt.percent(p) + " probability of serious delinquency",
     "Risk classification: " + RiskLevel(p)]
  }

  /** The line reporting a recognized what-if scenario, if any. */
  function ScenarioNote(features: Features, query: string): seq<string>
  {
    if ScenarioRun(features, query)
    then ["Scenario analysis: " + SimulateScenario(features, query).description] else []
  }

  function AdviceNote(query: string): seq<string>
  {
    if AsksForAdvice(query) then [RecommendationsNote] else []
  }

  function ExplainRequestNote(query: string): seq<string>
  {
    if AsksToExplain(query) then [ExplainNote] else []
  }

  /** Reference definition of the reasoning trace for a scored applicant. */
  function Trace(agent: Agent, features: Features, query: string, fmt: NumberFormats, p: real): seq<string>
  {
    Opening(fmt, p)
    + Section(FactorsHeader, RiskFactors(features, fmt))
    + Section(ExplanationsHeader, Explanations(features, agent.importance, fmt))
    + ScenarioNote(features, query)
    + AdviceNote(query)
    + ExplainRequestNote(query)
  }

  /** The tools a scored query reports. */
  function ToolsUsed(features: Features, query: string): seq<string>
  {
    ["risk_analysis"] + (if ScenarioRun(features, query) then ["scenario_simulation"] else [])
  }

  /** The recommendations a scored query reports. */
  function RequestedAdvice(query: string, factors: seq<string>, p: real): seq<string>
  {
    if AsksForAdvice(query) then Recommendations(factors, p) else []
  }

  /** The response of the `except` branch. */
  function ErrorResponse(message: string): AgentResponse
  {
    AgentResponse(0.0, "Error", ["Error processing query: " + message], [], [], ["error_handling"])
  }

  /** The response of the `try` block once the classifier has scored the
      applicant with probability `p`. */
  function ScoredResponse(agent: Agent, features: Features, query: string, fmt: NumberFormats, p: real): AgentResponse
  {
    AgentResponse(
      p,
      RiskLevel(p),
      Trace(agent, features, query, fmt, p),
      RiskFactors(features, fmt),
      RequestedAdvice(query, RiskFactors(features, fmt), p),
      ToolsUsed(features, query))
  }

  /** Reference definition of `process_query`. */
  function QueryResponse(agent: Agent, features: Features, query: string, fmt: NumberFormats): AgentResponse
  {
    match agent.model(FeaturesToRecord(features))
    case Raised(message) => ErrorResponse(message)
    case Scored(p) => ScoredResponse(agent, features, query, fmt, p)
  }

  // ---------------------------------------------------------------------
  // Properties of the response
  // ---------------------------------------------------------------------

  /** A failing classifier yields the fixed error response carrying its
      message, and a working one never yields the "Error" label. */
  lemma ErrorExactlyOnFailure(agent: Agent, features: Features, query: string, fmt: NumberFormats)
    ensures var r := QueryResponse(agent, features, query, fmt);
      (r.riskLevel == "Error" <==> agent.model(FeaturesToRecord(features)).Raised?)
    ensures var r := QueryResponse(agent, features, query, fmt);
      agent.model(FeaturesToRecord(features)).Raised? ==>
        && r.probability == 0.0
        && |r.reasoning| == 1
        && IsPrefix("Error processing query: ", r.reasoning[0])
        && r.riskFactors == [] && r.recommendations == []
        && r.toolsUsed == ["error_handling"]
  {
    var r := QueryResponse(agent, features, query, fmt);
    match agent.model(FeaturesToRecord(features))
    case Raised(message) =>
      assert ("Error processing query: " + message)[..|"Error processing query: "|] == "Error processing query: ";
    case Scored(p) =>
      assert r.riskLevel == RiskLevel(p);
  }

  /** On success the tools are the risk analysis, followed by the scenario
      simulator exactly when a what-if scenario was recognized. */
  lemma ToolsReported(agent: Agent, features: Features, query: string, fmt: NumberFormats)
    requires agent.model(FeaturesToRecord(features)).Scored?
    ensures var tools := QueryResponse(agent, features, query, fmt).toolsUsed;
      && tools[0] == "risk_analysis"
      && (tools == ["risk_analysis"] || tools == ["risk_analysis", "scenario_simulation"])
      && ("scenario_simulation" in tools <==>
            AsksWhatIf(query) && SimulateScenario(features, query).modifiedFeature.Some?)
  {
    assert QueryResponse(agent, features, query, fmt).toolsUsed == ToolsUsed(features, query);
    ToolsUsedShape(features, query);
  }

  /** The two possible tool lists. */
  lemma ToolsUsedShape(features: Features, query: string)
    ensures var tools := ToolsUsed(features, query);
      && tools[0] == "risk_analysis"
      && (tools == ["risk_analysis"] || tools == ["risk_analysis", "scenario_simulation"])
      && ("scenario_simulation" in tools <==> ScenarioRun(features, query))
  {
    assert |"risk_analysis"| != |"scenario_simulation"|;
  }

  /** On success recommendations are present exactly when the query asks for
      advice, and then they are what `generate_recommendations` makes of the
      reported factors and probability. */
  lemma AdviceReported(agent: Agent, features: Features, query: string, fmt: NumberFormats)
    requires agent.model(FeaturesToRecord(features)).Scored?
    ensures var r := QueryResponse(agent, features, query, fmt);
      && (r.recommendations != [] <==> AsksForAdvice(query))
      && (AsksForAdvice(query) ==> r.recommendations == Recommendations(r.riskFactors, r.probability))
  {
    var p := agent.model(FeaturesToRecord(features)).p;
    RecommendationsShape(RiskFactors(features, fmt), p);
  }

  /** The trace opens with the assessment and the classification, then the
      factor header, and the i-th factor is the (i+3)-th line. */
  lemma TraceLeadsWithFactors(agent: Agent, features: Features, query: string, fmt: NumberFormats, p: real)
    ensures var t := Trace(agent, features, query, fmt, p);
      var factors := RiskFactors(features, fmt);
      && |t| >= 2
      && t[0] == "Initial assessment: " + fmt.percent(p) + " probability of serious delinquency"
      && t[1] == "Risk classification: " + RiskLevel(p)
      && (factors != [] ==>
            |t| >= 3 + |factors|
            && t[2] == FactorsHeader
            && forall i :: 0 <= i < |factors| ==> t[3 + i] == Bullet(factors[i]))
  {
    LeadLayout(Opening(fmt, p), RiskFactors(features, fmt),
      Section(ExplanationsHeader, Explanations(features, agent.importance, fmt)),
      ScenarioNote(features, query), AdviceNote(query), ExplainRequestNote(query));
  }

  /** The layout of any trace-shaped list: the opening lines, then the
      factors section, then whatever follows. */
  lemma LeadLayout(opening: seq<string>, factors: seq<string>,
                   a: seq<string>, b: seq<string>, c: seq<string>, d: seq<string>)
    requires |opening| == 2
    ensures var t := opening + Section(FactorsHeader, factors) + a + b + c + d;
      && |t| >= 2 && t[0] == opening[0] && t[1] == opening[1]
      && (factors != [] ==>
            |t| >= 3 + |factors|
            && t[2] == FactorsHeader
            && forall i :: 0 <= i < |factors| ==> t[3 + i] == Bullet(factors[i]))
  {
  }

  /** The trace closes with one line per honoured request, the explanation
      request last. */
  lemma TraceClosesWithRequests(agent: Agent, features: Features, query: string, fmt: NumberFormats, p: real)
    ensures var t := Trace(agent, features, query, fmt, p);
      && (AsksToExplain(query) ==> t[|t| - 1] == ExplainNote)
      && (!AsksToExplain(query) && AsksForAdvice(query) ==> t[|t| - 1] == RecommendationsNote)
  {
  }

  // ---------------------------------------------------------------------
  // The operation
  // ---------------------------------------------------------------------

  /** `for line in lines: reasoning.append(f"  • {line}")`. */
  method AppendBullets(reasoning: seq<string>, lines: seq<string>) returns (out: seq<string>)
    ensures out == reasoning + Bullets(lines)
  {
    out := reasoning;
    var i := 0;
    while i < |lines|
      invariant 0 <= i <= |lines|
      invariant out == reasoning + Bullets(lines[..i])
    {
      assert Bullets(lines[..i + 1]) == Bullets(lines[..i]) + [Bullet(lines[i])];
      out := out + ["  • " + lines[i]];
      i := i + 1;
    }
    assert lines[..i] == lines;
  }

  /** `if lines: reasoning.append(header)` followed by the bullet loop. */
  method AppendSection(reasoning: seq<string>, header: string, lines: seq<string>)
    returns (out: seq<string>)
    ensures out == reasoning + Section(header, lines)
  {
    out := reasoning;
    if lines != [] {
      out := out + [header];
      out := AppendBullets(out, lines);
    }
  }

  /** The "Handle specific queries" part of `process_query`: the scenario,
      the recommendations and the explanation request, in that order. */
  method HandleRequests(features: Features, query: string, probability: real, riskFactors: seq<string>,
                        reasoning: seq<string>, toolsUsed: seq<string>)
    returns (newReasoning: seq<string>, newTools: seq<string>, recommendations: seq<string>)
    ensures newReasoning ==
      reasoning + ScenarioNote(features, query) + AdviceNote(query) + ExplainRequestNote(query)
    ensures newTools == toolsUsed + (if ScenarioRun(features, query) then ["scenario_simulation"] else [])
    ensures recommendations == RequestedAdvice(query, riskFactors, probability)
  {
    newReasoning := reasoning;
    newTools := toolsUsed;
    var queryLower := Lower(query);
    if Contains(queryLower, "what if") {
      var scenario := SimulateScenario(features, query);
      if scenario.modifiedFeature.Some? {
        newReasoning := newReasoning + ["Scenario analysis: " + scenario.description];
        newTools := newTools + ["scenario_simulation"];
      }
    }
    assert newReasoning == reasoning + ScenarioNote(features, query);
    ghost var withScenario := newReasoning;

    recommendations := [];
    if Contains(queryLower, "recommend") || Contains(queryLower, "improve") || Contains(queryLower, "suggest") {
      recommendations := GenerateRecommendations(riskFactors, probability);
      newReasoning := newReasoning + ["Personalized recommendations generated"];
    }
    assert newReasoning == withScenario + AdviceNote(query);
    ghost var withAdvice := newReasoning;

    if Contains(queryLower, "explain") {
      newReasoning := newReasoning + ["Detailed explanation provided based on feature importance and risk factors"];
    }
    assert newReasoning == withAdvice + ExplainRequestNote(query);
  }

  /** The first part of the `try` block: the risk analysis and the opening,
      factor and explanation lines of the trace. */
  method Assess(agent: Agent, features: Features, fmt: NumberFormats, probability: real)
    returns (riskFactors: seq<string>, reasoning: seq<string>)
    ensures riskFactors == RiskFactors(features, fmt)
    ensures reasoning == Opening(fmt, probability) + Section(FactorsHeader, RiskFactors(features, fmt))
      + Section(ExplanationsHeader, Explanations(features, agent.importance, fmt))
  {
    var riskLevel := RiskLevel(probability);
    riskFactors := AnalyzeRiskFactors(features, probability, fmt);

    reasoning := [];
    reasoning := reasoning + ["Initial assessment: " + fmt.percent(probability) + " probability of serious delinquency"];
    reasoning := reasoning + ["Risk classification: " + riskLevel];
    assert reasoning == Opening(fmt, probability);
    reasoning := AppendSection(reasoning, FactorsHeader, riskFactors);

    var explanations := GetFeatureExplanations(features, agent.importance, fmt);
    reasoning := AppendSection(reasoning, ExplanationsHeader, explanations);
  }

  /** The `try` block of `process_query` after the classifier returned `p`. */
  method RespondToScore(agent: Agent, features: Features, query: string, fmt: NumberFormats, probability: real)
    returns (response: AgentResponse)
    ensures response == ScoredResponse(agent, features, query, fmt, probability)
  {
    var riskFactors, reasoning := Assess(agent, features, fmt, probability);
    var toolsUsed := ["risk_analysis"];

    var recommendations;
    reasoning, toolsUsed, recommendations :=
      HandleRequests(features, query, probability, riskFactors, reasoning, toolsUsed);

    response := AgentResponse(probability, RiskLevel(probability), reasoning, riskFactors, recommendations, toolsUsed);
  }

  /** `process_query`: the classifier scores the single-row record; if it
      raises, the `except` branch answers with the error response, otherwise
      the `try` block runs to completion. */
  method ProcessQuery(agent: Agent, features: Features, query: string, fmt: NumberFormats)
    returns (response: AgentResponse)
    ensures response == QueryResponse(agent, features, query, fmt)
  {
    var record := FeaturesToRecord(features);
    var prediction := agent.model(record);
    if prediction.Raised? {
      return AgentResponse(0.0, "Error", ["Error processing query: " + prediction.message], [], [],
                           ["error_handling"]);
    }
    response := RespondToScore(agent, features, query, fmt, prediction.p);
  }
}
