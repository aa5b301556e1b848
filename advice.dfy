/** `generate_recommendations`: advice pairs triggered by the probability and
    by keywords in the risk-factor sentences. */
module Advice {
  import opened Text
  import opened FeatureSchema
  import opened RiskAnalysis

  const CoSignerAdvice: seq<string> :=
    ["Consider requiring a co-signer", "Suggest smaller loan amount"]
  const UtilizationAdvice: seq<string> :=
    ["Recommend paying down credit card balances", "Suggest credit utilization below 30%"]
  const PaymentAdvice: seq<string> :=
    ["Focus on improving payment history", "Consider automatic payment setup"]
  const DebtAdvice: seq<string> :=
    ["Recommend debt consolidation", "Suggest increasing income or reducing expenses"]
  const Fallback := "Application meets standard criteria"

  /** `keyword in str(factors).lower()`: some factor, lower-cased, contains
      the keyword (no keyword holds a quote or a comma, so a match cannot
      straddle two elements of the list's rendering). */
  predicate Mentions(factors: seq<string>, keyword: string)
  {
    exists i :: 0 <= i < |factors| && Contains(Lower(factors[i]), keyword)
  }

  /** Reference definition of `generate_recommendations`: the advice pairs
      whose trigger holds, in the order co-signer, utilization, payment,
      debt, or the single fallback sentence when none holds. */
  function Recommendations(factors: seq<string>, probability: real): seq<string>
  {
    var advice :=
      (if probability > 0.7 then CoSignerAdvice else []) +
      (if Mentions(factors, UtilizationKeyword) then UtilizationAdvice else []) +
      (if Mentions(factors, LatePaymentKeyword) then PaymentAdvice else []) +
      (if Mentions(factors, DebtRatioKeyword) then DebtAdvice else []);
    if advice == [] then [Fallback] else advice
  }

  /** The fallback appears alone, and exactly when nothing triggers; the list
      is never empty, and otherwise it is made of whole pairs. */
  lemma RecommendationsShape(factors: seq<string>, probability: real)
    ensures var recs := Recommendations(factors, probability);
      && recs != []
      && (recs == [Fallback] <==>
            probability <= 0.7
            && !Mentions(factors, UtilizationKeyword)
            && !Mentions(factors, LatePaymentKeyword)
            && !Mentions(factors, DebtRatioKeyword))
      && (recs != [Fallback] ==> |recs| in {2, 4, 6, 8})
  {
  }

  predicate NoDuplicates(s: seq<string>)
  {
    forall i, j :: 0 <= i < j < |s| ==> s[i] != s[j]
  }

  lemma NoDuplicatesAppend(a: seq<string>, b: seq<string>)
    requires NoDuplicates(a) && NoDuplicates(b)
    requires forall x :: x in a ==> x !in b
    ensures NoDuplicates(a + b)
  {
    forall i, j | 0 <= i < j < |a + b|
      ensures (a + b)[i] != (a + b)[j]
    {
      if i < |a| && |a| <= j {
        assert (a + b)[i] in a;
        assert (a + b)[j] == b[j - |a|];
      }
    }
  }

  /** The eight advice sentences and the fallback are nine different texts
      (they have nine different lengths). */
  lemma AdviceTextsDiffer()
    ensures NoDuplicates(CoSignerAdvice) && NoDuplicates(UtilizationAdvice)
    ensures NoDuplicates(PaymentAdvice) && NoDuplicates(DebtAdvice)
    ensures forall x :: x in CoSignerAdvice ==>
      x !in UtilizationAdvice && x !in PaymentAdvice && x !in DebtAdvice && x != Fallback
    ensures forall x :: x in UtilizationAdvice ==>
      x !in PaymentAdvice && x !in DebtAdvice && x != Fallback
    ensures forall x :: x in PaymentAdvice ==> x !in DebtAdvice && x != Fallback
    ensures forall x :: x in DebtAdvice ==> x != Fallback
  {
    assert |CoSignerAdvice[0]| == 30 && |CoSignerAdvice[1]| == 27;
    assert |UtilizationAdvice[0]| == 42 && |UtilizationAdvice[1]| == 36;
    assert |PaymentAdvice[0]| == 34 && |PaymentAdvice[1]| == 32;
    assert |DebtAdvice[0]| == 28 && |DebtAdvice[1]| == 46;
    assert |Fallback| == 35;
  }

  /** Each sentence of each advice pair is present exactly when the pair's
      trigger holds. */
  lemma RecommendationsPairsPresent(factors: seq<string>, probability: real)
    ensures var recs := Recommendations(factors, probability);
      && (forall x :: x in CoSignerAdvice ==> (x in recs <==> probability > 0.7))
      && (forall x :: x in UtilizationAdvice ==> (x in recs <==> Mentions(factors, UtilizationKeyword)))
      && (forall x :: x in PaymentAdvice ==> (x in recs <==> Mentions(factors, LatePaymentKeyword)))
      && (forall x :: x in DebtAdvice ==> (x in recs <==> Mentions(factors, DebtRatioKeyword)))
  {
    AdviceTextsDiffer();
  }

  /** No sentence is repeated. */
  lemma RecommendationsNoDuplicates(factors: seq<string>, probability: real)
    ensures NoDuplicates(Recommendations(factors, probability))
  {
    AdviceTextsDiffer();
    var c: seq<string> := if probability > 0.7 then CoSignerAdvice else [];
    var u: seq<string> := if Mentions(factors, UtilizationKeyword) then UtilizationAdvice else [];
    var p: seq<string> := if Mentions(factors, LatePaymentKeyword) then PaymentAdvice else [];
    var d: seq<string> := if Mentions(factors, DebtRatioKeyword) then DebtAdvice else [];
    NoDuplicatesAppend(c, u);
    NoDuplicatesAppend(c + u, p);
    NoDuplicatesAppend(c + u + p, d);
  }

  /** `generate_recommendations`: appends each triggered pair, then the
      fallback if nothing was appended. */
  method GenerateRecommendations(factors: seq<string>, probability: real)
    returns (recs: seq<string>)
    ensures recs == Recommendations(factors, probability)
  {
    recs := [];
    if probability > 0.7 {
      recs := recs + ["Consider requiring a co-signer"];
      recs := recs + ["Suggest smaller loan amount"];
    }
    assert recs == (if probability > 0.7 then CoSignerAdvice else []);
    ghost var sofar := recs;
    if Mentions(factors, UtilizationKeyword) {
      recs := recs + ["Recommend paying down credit card balances"];
      recs := recs + ["Suggest credit utilization below 30%"];
    }
    assert recs == sofar + (if Mentions(factors, UtilizationKeyword) then UtilizationAdvice else []);
    sofar := recs;
    if Mentions(factors, LatePaymentKeyword) {
      recs := recs + ["Focus on improving payment history"];
      recs := recs + ["Consider automatic payment setup"];
    }
    assert recs == sofar + (if Mentions(factors, LatePaymentKeyword) then PaymentAdvice else []);
    sofar := recs;
    if Mentions(factors, DebtRatioKeyword) {
      recs := recs + ["Recommend debt consolidation"];
      recs := recs + ["Suggest increasing income or reducing expenses"];
    }
    assert recs == sofar + (if Mentions(factors, DebtRatioKeyword) then DebtAdvice else []);
    if recs == [] {
      recs := recs + ["Application meets standard criteria"];
    }
  }

  lemma PositionOf(rules: seq<Rule>, r: Rule) returns (k: nat)
    requires r in rules
    ensures k < |rules| && rules[k] == r
  {
    k :| k < |rules| && rules[k] == r;
  }

  lemma MentionedAt(factors: seq<string>, k: nat, keyword: string)
    requires k < |factors| && Contains(Lower(factors[k]), keyword)
    ensures Mentions(factors, keyword)
  {
  }

  /** A fired rule whose sentence contains a keyword makes the factor list
      mention it. */
  lemma FiredFactorMentions(f: Features, fmt: NumberFormats, r: Rule, keyword: string)
    requires Fires(f, r)
    requires Contains(Lower(FactorText(f, fmt, r)), keyword)
    ensures Mentions(RiskFactors(f, fmt), keyword)
  {
    var fired := FiredRules(f, RuleOrder);
    FiredRulesMembership(f, RuleOrder, r);
    var k := PositionOf(fired, r);
    SentencesAreFiredTexts(f, fmt, RuleOrder);
    var factors := RiskFactors(f, fmt);
    assert factors == Texts(f, fmt, fired);
    MentionedAt(factors, k, keyword);
  }

  /** Both utilization sentences contain "credit utilization". */
  lemma VeryHighUtilizationMentions(f: Features, fmt: NumberFormats)
    ensures Contains(Lower(FactorText(f, fmt, VeryHighUtilization)), UtilizationKeyword)
  {
    var s := "Very high ";
    LowerContainsKeywordAfter(s, UtilizationKeyword);
    s := s + UtilizationKeyword;
    LowerContainsExtend(s, " (", UtilizationKeyword);
    s := s + " (";
    LowerContainsExtend(s, fmt.percent(Get(f, RevolvingUtilization)), UtilizationKeyword);
    s := s + fmt.percent(Get(f, RevolvingUtilization));
    LowerContainsExtend(s, ")", UtilizationKeyword);
    s := s + ")";
  }

  lemma HighUtilizationMentions(f: Features, fmt: NumberFormats)
    ensures Contains(Lower(FactorText(f, fmt, HighUtilization)), UtilizationKeyword)
  {
    var s := "High ";
    LowerContainsKeywordAfter(s, UtilizationKeyword);
    s := s + UtilizationKeyword;
    LowerContainsExtend(s, " (", UtilizationKeyword);
    s := s + " (";
    LowerContainsExtend(s, fmt.percent(Get(f, RevolvingUtilization)), UtilizationKeyword);
    s := s + fmt.percent(Get(f, RevolvingUtilization));
    LowerContainsExtend(s, ")", UtilizationKeyword);
    s := s + ")";
  }

  /** The three late-payment sentences contain "late payment". */
  lemma SeriousLateMentions(f: Features, fmt: NumberFormats)
    ensures Contains(Lower(FactorText(f, fmt, SeriousLate)), LatePaymentKeyword)
  {
    var s := "Has " + fmt.str(Get(f, Late90)) + " serious ";
    LowerContainsKeywordAfter(s, LatePaymentKeyword);
    s := s + LatePaymentKeyword;
    LowerContainsExtend(s, "(s) (90+ days)", LatePaymentKeyword);
    s := s + "(s) (90+ days)";
  }

  lemma Late60To89Mentions(f: Features, fmt: NumberFormats)
    ensures Contains(Lower(FactorText(f, fmt, Late60To89)), LatePaymentKeyword)
  {
    var s := "Has " + fmt.str(Get(f, PastDue60To89)) + " ";
    LowerContainsKeywordAfter(s, LatePaymentKeyword);
    s := s + LatePaymentKeyword;
    LowerContainsExtend(s, "(s) (60-89 days)", LatePaymentKeyword);
    s := s + "(s) (60-89 days)";
  }

  lemma Late30To59Mentions(f: Features, fmt: NumberFormats)
    ensures Contains(Lower(FactorText(f, fmt, Late30To59)), LatePaymentKeyword)
  {
    var s := "Has " + fmt.str(Get(f, PastDue30To59)) + " ";
    LowerContainsKeywordAfter(s, LatePaymentKeyword);
    s := s + LatePaymentKeyword;
    LowerContainsExtend(s, "(s) (30-59 days)", LatePaymentKeyword);
    s := s + "(s) (30-59 days)";
  }

  /** The debt sentence contains "debt ratio". */
  lemma DebtFactorMentions(f: Features, fmt: NumberFormats)
    ensures Contains(Lower(FactorText(f, fmt, HighDebtRatio)), DebtRatioKeyword)
  {
    var s := "High ";
    LowerContainsKeywordAfter(s, DebtRatioKeyword);
    s := s + DebtRatioKeyword;
    LowerContainsExtend(s, " (", DebtRatioKeyword);
    s := s + " (";
    LowerContainsExtend(s, fmt.percent(Get(f, DebtRatio)), DebtRatioKeyword);
    s := s + fmt.percent(Get(f, DebtRatio));
    LowerContainsExtend(s, ")", DebtRatioKeyword);
    s := s + ")";
  }

  /** A utilization above the lower tier always brings the utilization advice
      pair. */
  lemma UtilizationTriggersAdvice(f: Features, fmt: NumberFormats, probability: real)
    requires Get(f, RevolvingUtilization) > 0.5
    ensures var recs := Recommendations(RiskFactors(f, fmt), probability);
      UtilizationAdvice[0] in recs && UtilizationAdvice[1] in recs
  {
    if Get(f, RevolvingUtilization) > 0.8 {
      VeryHighUtilizationMentions(f, fmt);
      FiredFactorMentions(f, fmt, VeryHighUtilization, UtilizationKeyword);
    } else {
      HighUtilizationMentions(f, fmt);
      FiredFactorMentions(f, fmt, HighUtilization, UtilizationKeyword);
    }
  }

  /** Any positive late-payment count always brings the payment advice pair. */
  lemma LatePaymentTriggersAdvice(f: Features, fmt: NumberFormats, probability: real)
    requires Get(f, Late90) > 0.0 || Get(f, PastDue60To89) > 0.0 || Get(f, PastDue30To59) > 0.0
    ensures var recs := Recommendations(RiskFactors(f, fmt), probability);
      PaymentAdvice[0] in recs && PaymentAdvice[1] in recs
  {
    if Get(f, Late90) > 0.0 {
      SeriousLateMentions(f, fmt);
      FiredFactorMentions(f, fmt, SeriousLate, LatePaymentKeyword);
    } else if Get(f, PastDue60To89) > 0.0 {
      Late60To89Mentions(f, fmt);
      FiredFactorMentions(f, fmt, Late60To89, LatePaymentKeyword);
    } else {
      Late30To59Mentions(f, fmt);
      FiredFactorMentions(f, fmt, Late30To59, LatePaymentKeyword);
    }
  }

  /** A debt ratio above one half always brings the debt advice pair. */
  lemma DebtTriggersAdvice(f: Features, fmt: NumberFormats, probability: real)
    requires Get(f, DebtRatio) > 0.5
    ensures var recs := Recommendations(RiskFactors(f, fmt), probability);
      DebtAdvice[0] in recs && DebtAdvice[1] in recs
  {
    DebtFactorMentions(f, fmt);
    FiredFactorMentions(f, fmt, HighDebtRatio, DebtRatioKeyword);
  }

}
