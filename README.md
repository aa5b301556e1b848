# Agentic credit scoring: the agent, its tools and the model registry

This project models the decision core of an agentic credit-scoring service in
Dafny and proves properties of it.

- **The credit agent.** Given an applicant's feature vector and a free-text
  query, it scores the applicant with a trained classifier. It then builds a
  structured response:
  - the probability and a four-band risk label;
  - a reasoning trace;
  - the risk factors found by a fixed rule table;
  - advice, when the query asks for it;
  - the list of tools that were used.
- **The agent's tools:**
  - the risk-factor rules;
  - the recommendation rules, triggered by the probability and by keywords in the factor sentences;
  - the what-if scenario simulator;
  - the explanations built from the feature-importance table and the feature catalogue.
- **The model registry.** An insertion-ordered dictionary of trained models.
  It supports registration, lookup, loading by name, picking the best model
  by a metric, and performance updates.

Module layout:

| file | module | models |
|---|---|---|
| `options.dfy` | `Options` | `Option` and `Result` |
| `text.dfy` | `Text` | ASCII `lower()`, the substring test `in`, `str(n)` for naturals, and the Python number formats, which are left uninterpreted |
| `feature_schema.dfy` | `FeatureSchema` | the ten named features, the default of 0, and `_features_to_dataframe` |
| `risk_analysis.dfy` | `RiskAnalysis` | `analyze_risk_factors` |
| `advice.dfy` | `Advice` | `generate_recommendations` |
| `scenarios.dfy` | `Scenarios` | `simulate_scenario` |
| `feature_explanations.dfy` | `FeatureExplanations` | `feature_descriptions` and `get_feature_explanations` |
| `credit_agent.dfy` | `CreditAgent` | `process_query`, `_get_risk_level` |
| `model_registry.dfy` | `Registry` | `ModelRegistry` |

Each step-by-step operation is a `method` proved equal to a reference function:
- `AnalyzeRiskFactors` against `RiskFactors`;
- `GenerateRecommendations` against `Recommendations`;
- `GetFeatureExplanations` against `Explanations`;
- `ProcessQuery` against `QueryResponse`.

Lemmas then prove what the source promises about those functions.

The registry is a class with two fields:
- `order`, the dictionary's keys in insertion order;
- `entries`, the dictionary itself.

Its invariant `Valid()` says that each key is listed exactly once. Its methods
state the new state in terms of the old one.

The classifier is a parameter: a function from the ten-column record to
either a probability or the message of the exception it raised. The clock is
a parameter (`now`), and so is the file system's answer to "does this path
exist".

Two behaviours of the code are easy to misread; the model follows the code:
- **Scenario branches.** The scenario branches are an `if/elif` chain on
  the first keyword. A text mentioning "income" without "20%" is an unknown
  scenario, even if it also asks to reduce debt. It does not fall through to
  the debt rule.
- **Scenario value.** The reported scenario value is the scaled input and is
  not clamped at 0. The `max(0, …)` in the source only touches a copy of the
  features that is never used.

## Model

| member | source | states |
|---|---|---|
| FeatureSchema.FeaturesToRecord | src/credit_agent.py:81-93 | the record has exactly the ten schema columns in schema order; each holds the caller's value when the key is present and 0 otherwise |
| FeatureSchema.RecordIgnoresExtraKeys | src/credit_agent.py:92 | keys outside the schema never influence the record: restricting the vector to the schema gives the same record |
| FeatureSchema.RecordDependsOnlyOnSchema | src/credit_agent.py:92 | two vectors that agree on every schema key (missing reads as 0) give the same record |
| RiskAnalysis.AddUtilizationFactor | src/credit_agent_tools.py:33-38 | appends the "Very high" sentence when utilization > 0.8, else the "High" sentence when it is > 0.5, else nothing |
| RiskAnalysis.AddLatePaymentFactors | src/credit_agent_tools.py:40-51 | appends one sentence per late-payment bucket with a positive count: 90+ days, then 60-89, then 30-59 |
| RiskAnalysis.AddProfileFactors | src/credit_agent_tools.py:53-68 | appends the debt-ratio sentence when the ratio is > 0.5, then at most one age sentence (< 25, else > 70), then the income sentence when income < 2000 |
| RiskAnalysis.AnalyzeRiskFactors | src/credit_agent_tools.py:29-70 | the list it builds is the reference rule table evaluated in order, each fired rule contributing its sentence |
| RiskAnalysis.RiskFactorsInRuleOrder | src/credit_agent_tools.py:29-70 | the factors follow the rule order strictly (no rule twice, none out of order), and the i-th factor is the sentence of the i-th fired rule |
| RiskAnalysis.RiskFactorTiers | src/credit_agent_tools.py:33-68 | each factor is present exactly when its condition holds: very high iff utilization > 0.8; high iff 0.5 < utilization <= 0.8; never both; each late factor iff its count > 0; debt iff > 0.5; young iff age < 25; older iff age > 70; never both; low income iff < 2000 |
| RiskAnalysis.AtMostSevenFactors | src/credit_agent_tools.py:29-70 | at most seven factors: the two utilization tiers and the two age bands are each exclusive |
| RiskAnalysis.EmptyFeaturesFactors | src/credit_agent_tools.py:29-70 | an empty vector reads every value as 0 and yields exactly ["Young applicant with limited credit history", "Low monthly income"] |
| Advice.GenerateRecommendations | src/credit_agent_tools.py:72-95 | the list it builds is the reference: triggered pairs in the order co-signer, utilization, payment, debt, or the fallback alone when none triggers |
| Advice.RecommendationsShape | src/credit_agent_tools.py:92-95 | never empty; the fallback is the whole answer exactly when probability <= 0.7 and no keyword occurs; any other answer has length 2, 4, 6 or 8 |
| Advice.AdviceTextsDiffer | src/credit_agent_tools.py:76-93 | the eight advice sentences and the fallback are nine distinct texts |
| Advice.RecommendationsPairsPresent | src/credit_agent_tools.py:76-90 | each sentence of each pair is present iff the pair's trigger holds (probability > 0.7, "credit utilization", "late payment", "debt ratio") |
| Advice.RecommendationsNoDuplicates | src/credit_agent_tools.py:72-95 | no sentence is recommended twice |
| Advice.UtilizationTriggersAdvice | src/credit_agent_tools.py:35-38 | utilization > 0.5 always yields both utilization advice sentences, whatever the probability |
| Advice.LatePaymentTriggersAdvice | src/credit_agent_tools.py:41-51 | any positive late-payment count always yields both payment advice sentences |
| Advice.DebtTriggersAdvice | src/credit_agent_tools.py:54-56 | a debt ratio > 0.5 always yields both debt advice sentences |
| Scenarios.SimulateScenario | src/credit_agent_tools.py:97-118 | the feature and the value are absent together, and then the result is "Unknown scenario"; a reported feature is one of MonthlyIncome, DebtRatio and RevolvingUtilizationOfUnsecuredLines; for income the value is income × 1.2, for debt ratio it is ratio × 0.7, for utilization it is utilization × 0.5, each with its description |
| Scenarios.ScenarioNoFallthrough | src/credit_agent_tools.py:101-118 | the first keyword decides which scenario is reported: with "income" the income scenario if the text has "20%" and none otherwise; with "debt" (and no "income") the debt scenario if it has "reduce" and none otherwise; with neither, the utilization scenario if it has "utilization" and none otherwise; a modified feature is always a schema key |
| Scenarios.ScenarioValueNotClamped | src/credit_agent_tools.py:107-116 | a negative debt ratio is reported scaled and still negative when the debt scenario is recognized, and likewise a negative utilization for the utilization scenario, each independently of the other value |
| FeatureExplanations.GetFeatureExplanations | src/credit_agent_tools.py:120-133 | the loop's lines equal the reference explanations |
| FeatureExplanations.ExplanationsShape | src/credit_agent_tools.py:120-133 | no table gives no lines; otherwise one line per row for the first min(3, rows) rows in table order, showing "N/A" for a value the applicant lacks and the feature name for an uncatalogued feature |
| CreditAgent.RiskLevel | src/credit_agent.py:95-104 | four bands: "Low Risk" iff p < 0.1, "Medium Risk" iff 0.1 <= p < 0.3, "High Risk" iff 0.3 <= p < 0.7, "Very High Risk" iff p >= 0.7 |
| CreditAgent.RiskLevelMonotone | src/credit_agent.py:95-104 | a higher probability never gets a milder band |
| CreditAgent.AppendBullets | src/credit_agent.py:41-42 | the loop appends one "  • " line per input line, in order |
| CreditAgent.AppendSection | src/credit_agent.py:39-49 | a header followed by the bullets, or nothing when there are no lines |
| CreditAgent.Assess | src/credit_agent.py:30-49 | the factors are the reference factors; the trace so far is the two opening lines, the factor section and the explanation section |
| CreditAgent.HandleRequests | src/credit_agent.py:51-66 | appends the scenario line (what-if query with a recognized scenario), then the advice line, then the explanation line; adds "scenario_simulation" exactly with the scenario line; recommendations are produced only when asked |
| CreditAgent.RespondToScore | src/credit_agent.py:13-68 | the response to a successful score is the reference scored response |
| CreditAgent.ProcessQuery | src/credit_agent.py:11-79 | the response is the reference: the error response when the classifier raises, the scored response otherwise |
| CreditAgent.ErrorExactlyOnFailure | src/credit_agent.py:70-79 | the label is "Error" exactly when the classifier raised; then the probability is 0, the trace is one "Error processing query: " line, no factors or advice, tools ["error_handling"] |
| CreditAgent.ToolsReported | src/credit_agent.py:33-58 | on success the tools are ["risk_analysis"] or ["risk_analysis", "scenario_simulation"], the latter exactly for a what-if query with a recognized scenario |
| CreditAgent.AdviceReported | src/credit_agent.py:60-63 | on success recommendations are non-empty exactly when the query says recommend, improve or suggest, and are then the recommendations for the reported factors and probability |
| CreditAgent.TraceLeadsWithFactors | src/credit_agent.py:36-42 | the trace opens with the assessment and classification lines, then, when there are factors, the header and one bullet per factor in order |
| CreditAgent.TraceClosesWithRequests | src/credit_agent.py:54-66 | the explanation note, when asked for, is the last line; otherwise the recommendations note, when asked for, is |
| Registry.ModelRegistry.constructor | models/model_registry.py:10-20 | a registry without a registry file starts empty |
| Registry.ModelRegistry.RegisterModel | models/model_registry.py:28-46 | stores the record under the name, overwriting any earlier one, which keeps its place; metadata defaults to the empty map; the version is "v" + (models before the call + 1) + ".0"; the key invariant is kept |
| Registry.ModelRegistry.GetModel | models/model_registry.py:48-50 | the stored record when the name is registered, none otherwise |
| Registry.ModelRegistry.LoadModel | models/model_registry.py:52-61 | an unknown name is a ValueError; a missing file is a FileNotFoundError carrying the stored path; otherwise the stored path is loaded |
| Registry.ModelRegistry.GetBestModel | models/model_registry.py:67-81 | none exactly when no model scores above -1 (a missing metric scores -1, an empty registry has none); otherwise the earliest model whose score is above -1, at least every other score and strictly above every earlier one |
| Registry.ModelRegistry.UpdateModelPerformance | models/model_registry.py:83-90 | an unknown name is a ValueError and changes nothing; otherwise the new metrics are merged over the old ones (new values win) and the update time is set; nothing else changes |

## Left out

- Loading and saving the registry as JSON (`_load_registry`, `_save_registry`). The registry starts empty, as it does when no registry file exists.
- `joblib.load` and training, serialization and the HTTP API are not part of this model. `LoadModel` stops at the path that would be loaded.
- `datetime.now()` is the `now` parameter. The "registered successfully" message printed by `register_model` is not modelled.
- `list_models` returns the dictionary itself, which here is the `entries` field.
- The number formats `{:.1%}`, `{:.3f}` and `str(x)` are left uninterpreted as fields of `NumberFormats`. The proofs hold for every choice of them.
- Feature values are reals. Non-numeric values, and exceptions other than the classifier's inside `process_query`, are not modelled.
- Python renders an integer and a float differently (`str(2)` is "2", `str(2.0)` is "2.0"). A `real -> string` format cannot tell them apart. So the model does not fix how the counts in the late-payment sentences and the values in the explanation lines are written.
- `lower()` lower-cases ASCII letters only.
- Advice.GenerateRecommendations: models `keyword in str(factors).lower()` as "some factor, lower-cased, contains the keyword". This ignores matches that straddle the quotes and commas of the list's rendering. No keyword contains those characters.
- Advice.UtilizationTriggersAdvice: the converse, that the advice comes only from these factors, is not stated. A formatted number is arbitrary here and could itself contain a keyword.
- Advice.LatePaymentTriggersAdvice: one direction only, for the same reason.
- Advice.DebtTriggersAdvice: one direction only, for the same reason.
- The `probability` argument of `analyze_risk_factors` and the unused `risk_thresholds` table are not read by any modelled code.
- The `modified_features` copy in `simulate_scenario` is never returned or read, so it is not modelled.
- Registry.ModelRegistry.UpdateModelPerformance: the performance map is merged by value. The source mutates the caller's dictionary in place (the registry keeps the caller's object), so the change is also seen through aliases; that aliasing is not captured.
- Metadata values are modelled as strings.
