/** `get_feature_explanations` and the catalogue of feature descriptions. */
module FeatureExplanations {
  import opened Options
  import opened Text
  import opened FeatureSchema

  /** `self.feature_descriptions`. */
  const FeatureDescriptions: map<string, string> := map[
    RevolvingUtilization := "Credit card utilization rate (ideal: <0.3)",
    Age := "Age of borrower (ideal: 25-65)",
    PastDue30To59 := "30-59 days late payments (ideal: 0)",
    DebtRatio := "Monthly debt payments / Monthly income (ideal: <0.36)",
    MonthlyIncome := "Monthly income amount",
    OpenCreditLines := "Total open credit lines",
    Late90 := "90+ days late payments (high risk if >0)",
    RealEstateLoans := "Mortgage and real estate loans",
    PastDue60To89 := "60-89 days late payments (ideal: 0)",
    Dependents := "Number of dependents"]

  /** One row of the externally supplied importance table. */
  datatype ImportanceRow = ImportanceRow(feature: string, importance: real)

  /** Number of table rows explained (`head(3)`). */
  const TopK: nat := 3

  /** `feature_descriptions.get(feature, feature)`. */
  function Describe(feature: string): string
  {
    if feature in FeatureDescriptions then FeatureDescriptions[feature] else feature
  }

  /** `features.get(feature, 'N/A')`, rendered. */
  function ValueText(f: Features, feature: string, fmt: NumberFormats): string
  {
    if feature in f then fmt.str(f[feature]) else "N/A"
  }

  function ExplanationLine(f: Features, row: ImportanceRow, fmt: NumberFormats): string
  {
    "**" + row.feature + "** (importance: " + fmt.fixed3(row.importance) + "): "
      + ValueText(f, row.feature, fmt) + " - " + Describe(row.feature)
  }

  /** One line for each of the first `k` rows. */
  function TopLines(f: Features, rows: seq<ImportanceRow>, k: nat, fmt: NumberFormats): seq<string>
    decreases k
  {
    if k == 0 || rows == [] then []
    else [ExplanationLine(f, rows[0], fmt)] + TopLines(f, rows[1..], k - 1, fmt)
  }

  /** Reference definition of `get_feature_explanations`. */
  function Explanations(f: Features, importance: Option<seq<ImportanceRow>>, fmt: NumberFormats): seq<string>
  {
    match importance
    case None => []
    case Some(rows) => TopLines(f, rows, TopK, fmt)
  }

  /** The first `min(k, |rows|)` rows, one line each, in table order. */
  lemma {:induction false} TopLinesAt(f: Features, rows: seq<ImportanceRow>, k: nat, fmt: NumberFormats)
    ensures |TopLines(f, rows, k, fmt)| == if k < |rows| then k else |rows|
    ensures forall i :: 0 <= i < |TopLines(f, rows, k, fmt)| ==>
      TopLines(f, rows, k, fmt)[i] == ExplanationLine(f, rows[i], fmt)
    decreases k
  {
    if k != 0 && rows != [] {
      TopLinesAt(f, rows[1..], k - 1, fmt);
    }
  }

  /** Explanations are empty without a table; with one, they are one line per
      row for the first three rows in table order, showing "N/A" for a value
      the applicant did not supply and the feature name for an uncatalogued
      feature. */
  lemma ExplanationsShape(f: Features, importance: Option<seq<ImportanceRow>>, fmt: NumberFormats)
    ensures importance.None? ==> Explanations(f, importance, fmt) == []
    ensures importance.Some? ==>
      var rows := importance.value;
      var lines := Explanations(f, importance, fmt);
      && |lines| == (if |rows| < TopK then |rows| else TopK)
      && forall i :: 0 <= i < |lines| ==>
           lines[i] == ExplanationLine(f, rows[i], fmt)
           && (rows[i].feature !in f ==> ValueText(f, rows[i].feature, fmt) == "N/A")
           && (rows[i].feature !in FeatureDescriptions ==> Describe(rows[i].feature) == rows[i].feature)
  {
    if importance.Some? {
      TopLinesAt(f, importance.value, TopK, fmt);
    }
  }

  /** `get_feature_explanations`: a loop over the first three rows of the
      table, appending one line per row. */
  method GetFeatureExplanations(f: Features, importance: Option<seq<ImportanceRow>>, fmt: NumberFormats)
    returns (lines: seq<string>)
    ensures lines == Explanations(f, importance, fmt)
  {
    lines := [];
    if importance.Some? {
      var rows := importance.value;
      var top := if |rows| < TopK then |rows| else TopK;
      var i := 0;
      while i < top
        invariant 0 <= i <= top
        invariant |lines| == i
        invariant forall j :: 0 <= j < i ==> lines[j] == ExplanationLine(f, rows[j], fmt)
      {
        var row := rows[i];
        var value := if row.feature in f then fmt.str(f[row.feature]) else "N/A";
        var description := if row.feature in FeatureDescriptions then FeatureDescriptions[row.feature] else row.feature;
        var line := "**" + row.feature + "** (importance: " + fmt.fixed3(row.importance) + "): "
                    + value + " - " + description;
        assert line == ExplanationLine(f, rows[i], fmt);
        lines := lines + [line];
        i := i + 1;
      }
      TopLinesAt(f, rows, TopK, fmt);
    }
  }
}
