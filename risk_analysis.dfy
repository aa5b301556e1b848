/** `analyze_risk_factors`: threshold rules that turn a feature vector into
    the list of risk-factor sentences. */
module RiskAnalysis {
  import opened Text
  import opened FeatureSchema

  /** One constructor per factor `analyze_risk_factors` can emit; the two
      utilization tiers and the two age bands are separate rules. */
  datatype Rule =
    | VeryHighUtilization
    | HighUtilization
    | SeriousLate
    | Late60To89
    | Late30To59
    | HighDebtRatio
    | YoungApplicant
    | OlderApplicant
    | LowIncome

  /** The rules in the order the source evaluates them. */
  const RuleOrder: seq<Rule> := [
    VeryHighUtilization, HighUtilization, SeriousLate, Late60To89, Late30To59,
    HighDebtRatio, YoungApplicant, OlderApplicant, LowIncome]

  /** Position of a rule in `RuleOrder`. */
  function Rank(r: Rule): nat
  {
    match r
    case VeryHighUtilization => 0
    case HighUtilization => 1
    case SeriousLate => 2
    case Late60To89 => 3
    case Late30To59 => 4
    case HighDebtRatio => 5
    case YoungApplicant => 6
    case OlderApplicant => 7
    case LowIncome => 8
  }

  /** Whether a rule emits its factor; the `elif` of a tier is its own
      condition conjoined with the failure of the tier above. */
  predicate Fires(f: Features, r: Rule)
  {
    match r
    case VeryHighUtilization => Get(f, RevolvingUtilization) > 0.8
    case HighUtilization => !(Get(f, RevolvingUtilization) > 0.8) && Get(f, RevolvingUtilization) > 0.5
    case SeriousLate => Get(f, Late90) > 0.0
    case Late60To89 => Get(f, PastDue60To89) > 0.0
    case Late30To59 => Get(f, PastDue30To59) > 0.0
    case HighDebtRatio => Get(f, DebtRatio) > 0.5
    case YoungApplicant => Get(f, Age) < 25.0
    case OlderApplicant => !(Get(f, Age) < 25.0) && Get(f, Age) > 70.0
    case LowIncome => Get(f, MonthlyIncome) < 2000.0
  }

  /** The phrases the recommendation step looks for in the factor sentences. */
  const UtilizationKeyword := "credit utilization"
  const LatePaymentKeyword := "late payment"
  const DebtRatioKeyword := "debt ratio"

  /** The sentence a rule contributes. */
  function FactorText(f: Features, fmt: NumberFormats, r: Rule): string
  {
    match r
    case VeryHighUtilization =>
      "Very high " + UtilizationKeyword + " (" + fmt.percent(Get(f, RevolvingUtilization)) + ")"
    case HighUtilization =>
      "High " + UtilizationKeyword + " (" + fmt.percent(Get(f, RevolvingUtilization)) + ")"
    case SeriousLate =>
      "Has " + fmt.str(Get(f, Late90)) + " serious " + LatePaymentKeyword + "(s) (90+ days)"
    case Late60To89 =>
      "Has " + fmt.str(Get(f, PastDue60To89)) + " " + LatePaymentKeyword + "(s) (60-89 days)"
    case Late30To59 =>
      "Has " + fmt.str(Get(f, PastDue30To59)) + " " + LatePaymentKeyword + "(s) (30-59 days)"
    case HighDebtRatio =>
      "High " + DebtRatioKeyword + " (" + fmt.percent(Get(f, DebtRatio)) + ")"
    case YoungApplicant => "Young applicant with limited credit history"
    case OlderApplicant => "Older applicant near retirement"
    case LowIncome => "Low monthly income"
  }

  /** `[r]` when rule `r` fires, `[]` otherwise. */
  function Emit(f: Features, r: Rule): seq<Rule>
  {
    if Fires(f, r) then [r] else []
  }

  /** The rules of `rules` that fire, in the order given. */
  function FiredRules(f: Features, rules: seq<Rule>): seq<Rule>
    decreases |rules|
  {
    if rules == [] then [] else Emit(f, rules[0]) + FiredRules(f, rules[1..])
  }

  /** The sentences of a list of rules, one per rule. */
  function Texts(f: Features, fmt: NumberFormats, rules: seq<Rule>): seq<string>
  {
    seq(|rules|, i requires 0 <= i < |rules| => FactorText(f, fmt, rules[i]))
  }

  /** The sentence of rule `r` if it fires, as a zero- or one-element list. */
  function Sentence(f: Features, fmt: NumberFormats, r: Rule): seq<string>
  {
    if Fires(f, r) then [FactorText(f, fmt, r)] else []
  }

  /** The sentences of the rules that fire among `rules`, rule after rule. */
  function SentencesOf(f: Features, fmt: NumberFormats, rules: seq<Rule>): seq<string>
    decreases |rules|
  {
    if rules == [] then [] else Sentence(f, fmt, rules[0]) + SentencesOf(f, fmt, rules[1..])
  }

  /** Reference definition of `analyze_risk_factors`: every rule of the table
      in table order, each contributing its sentence when it fires. */
  function RiskFactors(f: Features, fmt: NumberFormats): seq<string>
  {
    SentencesOf(f, fmt, RuleOrder)
  }

  predicate InRuleOrder(rules: seq<Rule>)
  {
    forall i, j :: 0 <= i < j < |rules| ==> Rank(rules[i]) < Rank(rules[j])
  }

  lemma TextsAppend(f: Features, fmt: NumberFormats, rules: seq<Rule>, more: seq<Rule>)
    ensures Texts(f, fmt, rules + more) == Texts(f, fmt, rules) + Texts(f, fmt, more)
  {
    assert forall i :: 0 <= i < |rules + more| ==>
      Texts(f, fmt, rules + more)[i] == (Texts(f, fmt, rules) + Texts(f, fmt, more))[i];
  }

  /** A rule is fired exactly when it is among the candidates and fires. */
  lemma {:induction false} FiredRulesMembership(f: Features, rules: seq<Rule>, r: Rule)
    ensures r in FiredRules(f, rules) <==> r in rules && Fires(f, r)
    decreases |rules|
  {
    if rules != [] {
      FiredRulesMembership(f, rules[1..], r);
      assert rules == [rules[0]] + rules[1..];
    }
  }

  /** Filtering keeps the candidates' order. */
  lemma {:induction false} FiredRulesKeepOrder(f: Features, rules: seq<Rule>)
    requires InRuleOrder(rules)
    ensures InRuleOrder(FiredRules(f, rules))
    decreases |rules|
  {
    if rules != [] {
      var tail := rules[1..];
      FiredRulesKeepOrder(f, tail);
      forall r | r in FiredRules(f, tail)
        ensures Rank(rules[0]) < Rank(r)
      {
        FiredRulesMembership(f, tail, r);
        var k :| 0 <= k < |tail| && tail[k] == r;
        assert rules[k + 1] == r;
      }
    }
  }

  /** The sentence list is the text of the filtered rule list. */
  lemma {:induction false} SentencesAreFiredTexts(f: Features, fmt: NumberFormats, rules: seq<Rule>)
    ensures SentencesOf(f, fmt, rules) == Texts(f, fmt, FiredRules(f, rules))
    decreases |rules|
  {
    if rules != [] {
      SentencesAreFiredTexts(f, fmt, rules[1..]);
      TextsAppend(f, fmt, Emit(f, rules[0]), FiredRules(f, rules[1..]));
      assert Texts(f, fmt, Emit(f, rules[0])) == Sentence(f, fmt, rules[0]);
    }
  }

  /** Evaluating one more rule appends its sentence when it fires. */
  lemma {:induction false} SentencesSnoc(f: Features, fmt: NumberFormats, rules: seq<Rule>, r: Rule)
    ensures SentencesOf(f, fmt, rules + [r]) == SentencesOf(f, fmt, rules) + Sentence(f, fmt, r)
    decreases |rules|
  {
    if rules == [] {
      assert [] + [r] == [r];
      assert [r][1..] == [];
    } else {
      var tail := rules[1..];
      assert (rules + [r])[0] == rules[0];
      assert (rules + [r])[1..] == tail + [r];
      SentencesSnoc(f, fmt, tail, r);
      assert SentencesOf(f, fmt, rules + [r])
        == Sentence(f, fmt, rules[0]) + (SentencesOf(f, fmt, tail) + Sentence(f, fmt, r));
    }
  }

  /** The nine rules unrolled, in the shape the analysis appends them. */
  lemma RiskFactorsUnrolled(f: Features, fmt: NumberFormats)
    ensures RiskFactors(f, fmt) ==
      Sentence(f, fmt, VeryHighUtilization) + Sentence(f, fmt, HighUtilization) +
      Sentence(f, fmt, SeriousLate) + Sentence(f, fmt, Late60To89) +
      Sentence(f, fmt, Late30To59) + Sentence(f, fmt, HighDebtRatio) +
      Sentence(f, fmt, YoungApplicant) + Sentence(f, fmt, OlderApplicant) +
      Sentence(f, fmt, LowIncome)
  {
    var none: seq<Rule> := [];
    SentencesSnoc(f, fmt, none, VeryHighUtilization);
    assert none + [VeryHighUtilization] == [VeryHighUtilization];
    var p1 := [VeryHighUtilization];
    SentencesSnoc(f, fmt, p1, HighUtilization);
    var p2 := p1 + [HighUtilization];
    SentencesSnoc(f, fmt, p2, SeriousLate);
    var p3 := p2 + [SeriousLate];
    SentencesSnoc(f, fmt, p3, Late60To89);
    var p4 := p3 + [Late60To89];
    SentencesSnoc(f, fmt, p4, Late30To59);
    var p5 := p4 + [Late30To59];
    SentencesSnoc(f, fmt, p5, HighDebtRatio);
    var p6 := p5 + [HighDebtRatio];
    SentencesSnoc(f, fmt, p6, YoungApplicant);
    var p7 := p6 + [YoungApplicant];
    SentencesSnoc(f, fmt, p7, OlderApplicant);
    var p8 := p7 + [OlderApplicant];
    SentencesSnoc(f, fmt, p8, LowIncome);
    assert p8 + [LowIncome] == RuleOrder;
  }

  /** The table lists the rules by increasing rank. */
  lemma RuleOrderRanked()
    ensures InRuleOrder(RuleOrder)
  {
    assert forall i :: 0 <= i < |RuleOrder| ==> Rank(RuleOrder[i]) == i;
  }

  /** Factors appear in rule order, each rule at most once (utilization,
      90+ days, 60-89 days, 30-59 days, debt ratio, age, income), and the
      i-th factor is the sentence of the i-th fired rule. */
  lemma RiskFactorsInRuleOrder(f: Features, fmt: NumberFormats)
    ensures InRuleOrder(FiredRules(f, RuleOrder))
    ensures |RiskFactors(f, fmt)| == |FiredRules(f, RuleOrder)|
    ensures forall i :: 0 <= i < |RiskFactors(f, fmt)| ==>
      RiskFactors(f, fmt)[i] == FactorText(f, fmt, FiredRules(f, RuleOrder)[i])
  {
    RuleOrderRanked();
    FiredRulesKeepOrder(f, RuleOrder);
    SentencesAreFiredTexts(f, fmt, RuleOrder);
  }

  /** Which factors are present, rule by rule: the utilization tiers and the
      age bands are each mutually exclusive, and a late-payment factor is
      present exactly when its count is positive. */
  lemma RiskFactorTiers(f: Features)
    ensures var fired := FiredRules(f, RuleOrder);
      && (VeryHighUtilization in fired <==> Get(f, RevolvingUtilization) > 0.8)
      && (HighUtilization in fired <==> 0.5 < Get(f, RevolvingUtilization) <= 0.8)
      && !(VeryHighUtilization in fired && HighUtilization in fired)
      && (SeriousLate in fired <==> Get(f, Late90) > 0.0)
      && (Late60To89 in fired <==> Get(f, PastDue60To89) > 0.0)
      && (Late30To59 in fired <==> Get(f, PastDue30To59) > 0.0)
      && (HighDebtRatio in fired <==> Get(f, DebtRatio) > 0.5)
      && (YoungApplicant in fired <==> Get(f, Age) < 25.0)
      && (OlderApplicant in fired <==> Get(f, Age) > 70.0)
      && !(YoungApplicant in fired && OlderApplicant in fired)
      && (LowIncome in fired <==> Get(f, MonthlyIncome) < 2000.0)
  {
    FiredRulesMembership(f, RuleOrder, VeryHighUtilization);
    FiredRulesMembership(f, RuleOrder, HighUtilization);
    FiredRulesMembership(f, RuleOrder, SeriousLate);
    FiredRulesMembership(f, RuleOrder, Late60To89);
    FiredRulesMembership(f, RuleOrder, Late30To59);
    FiredRulesMembership(f, RuleOrder, HighDebtRatio);
    FiredRulesMembership(f, RuleOrder, YoungApplicant);
    FiredRulesMembership(f, RuleOrder, OlderApplicant);
    FiredRulesMembership(f, RuleOrder, LowIncome);
  }

  /** The tiers leave room for at most seven factors out of nine rules. */
  lemma AtMostSevenFactors(f: Features, fmt: NumberFormats)
    ensures |RiskFactors(f, fmt)| <= 7
  {
    RiskFactorsUnrolled(f, fmt);
    var utilization := Sentence(f, fmt, VeryHighUtilization) + Sentence(f, fmt, HighUtilization);
    var age := Sentence(f, fmt, YoungApplicant) + Sentence(f, fmt, OlderApplicant);
    assert |utilization| <= 1 && |age| <= 1;
    assert |Sentence(f, fmt, SeriousLate)| <= 1 && |Sentence(f, fmt, Late60To89)| <= 1;
    assert |Sentence(f, fmt, Late30To59)| <= 1 && |Sentence(f, fmt, HighDebtRatio)| <= 1;
    assert |Sentence(f, fmt, LowIncome)| <= 1;
  }

  /** Missing keys read as 0: an empty vector is a young, low-income applicant
      and nothing else. */
  lemma EmptyFeaturesFactors(fmt: NumberFormats)
    ensures RiskFactors(map[], fmt) ==
      ["Young applicant with limited credit history", "Low monthly income"]
  {
    RiskFactorsUnrolled(map[], fmt);
  }

  /** The credit utilization section of `analyze_risk_factors`: at most one
      of the two tiers. */
  method AddUtilizationFactor(f: Features, fmt: NumberFormats, factors: seq<string>)
    returns (out: seq<string>)
    ensures out == factors + Sentence(f, fmt, VeryHighUtilization) + Sentence(f, fmt, HighUtilization)
  {
    out := factors;
    var utilization := Get(f, RevolvingUtilization);
    if utilization > 0.8 {
      out := out + ["Very high " + UtilizationKeyword + " (" + fmt.percent(utilization) + ")"];
    } else if utilization > 0.5 {
      out := out + ["High " + UtilizationKeyword + " (" + fmt.percent(utilization) + ")"];
    }
  }

  /** The late payments section: one sentence per bucket with a positive
      count, most severe bucket first. */
  method AddLatePaymentFactors(f: Features, fmt: NumberFormats, factors: seq<string>)
    returns (out: seq<string>)
    ensures out == factors + Sentence(f, fmt, SeriousLate) + Sentence(f, fmt, Late60To89)
      + Sentence(f, fmt, Late30To59)
  {
    out := factors;
    var late90 := Get(f, Late90);
    if late90 > 0.0 {
      out := out + ["Has " + fmt.str(late90) + " serious " + LatePaymentKeyword + "(s) (90+ days)"];
    }
    var late60 := Get(f, PastDue60To89);
    if late60 > 0.0 {
      out := out + ["Has " + fmt.str(late60) + " " + LatePaymentKeyword + "(s) (60-89 days)"];
    }
    var late30 := Get(f, PastDue30To59);
    if late30 > 0.0 {
      out := out + ["Has " + fmt.str(late30) + " " + LatePaymentKeyword + "(s) (30-59 days)"];
    }
  }

  /** The debt ratio, age and income sections. */
  method AddProfileFactors(f: Features, fmt: NumberFormats, factors: seq<string>)
    returns (out: seq<string>)
    ensures out == factors + Sentence(f, fmt, HighDebtRatio) + Sentence(f, fmt, YoungApplicant)
      + Sentence(f, fmt, OlderApplicant) + Sentence(f, fmt, LowIncome)
  {
    out := factors;
    var debtRatio := Get(f, DebtRatio);
    if debtRatio > 0.5 {
      out := out + ["High " + DebtRatioKeyword + " (" + fmt.percent(debtRatio) + ")"];
    }
    var age := Get(f, Age);
    if age < 25.0 {
      out := out + ["Young applicant with limited credit history"];
    } else if age > 70.0 {
      out := out + ["Older applicant near retirement"];
    }
    var income := Get(f, MonthlyIncome);
    if income < 2000.0 {
      out := out + ["Low monthly income"];
    }
  }

  /** `analyze_risk_factors`: the sections run in source order, each appending
      to the same list. The probability argument is accepted and not read. */
  method AnalyzeRiskFactors(f: Features, probability: real, fmt: NumberFormats)
    returns (factors: seq<string>)
    ensures factors == RiskFactors(f, fmt)
  {
    factors := AddUtilizationFactor(f, fmt, []);
    factors := AddLatePaymentFactors(f, fmt, factors);
    factors := AddProfileFactors(f, fmt, factors);
    RiskFactorsUnrolled(f, fmt);
    assert [] + Sentence(f, fmt, VeryHighUtilization) == Sentence(f, fmt, VeryHighUtilization);
  }
}
