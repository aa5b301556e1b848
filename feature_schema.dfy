/** The ten named applicant attributes, the zero-default policy for missing
    keys, and the canonical single-row record handed to the classifier. */
module FeatureSchema {

  /** An applicant's feature vector as the caller supplies it: any subset of
      keys, possibly with extra ones. */
  type Features = map<string, real>

  const RevolvingUtilization := "RevolvingUtilizationOfUnsecuredLines"
  const Age := "age"
  const PastDue30To59 := "NumberOfTime30-59DaysPastDueNotWorse"
  const DebtRatio := "DebtRatio"
  const MonthlyIncome := "MonthlyIncome"
  const OpenCreditLines := "NumberOfOpenCreditLinesAndLoans"
  const Late90 := "NumberOfTimes90DaysLate"
  const RealEstateLoans := "NumberRealEstateLoansOrLines"
  const PastDue60To89 := "NumberOfTime60-89DaysPastDueNotWorse"
  const Dependents := "NumberOfDependents"

  /** The column order the classifier was trained on. */
  const Schema: seq<string> := [
    RevolvingUtilization, Age, PastDue30To59, DebtRatio, MonthlyIncome,
    OpenCreditLines, Late90, RealEstateLoans, PastDue60To89, Dependents]

  /** `features.get(key, 0)`. */
  function Get(f: Features, key: string): real
  {
    if key in f then f[key] else 0.0
  }

  /** One named cell of the single-row frame passed to the classifier. */
  datatype Column = Column(name: string, value: real)

  /** `_features_to_dataframe`: exactly the schema's columns in schema order,
      each holding the caller's value or 0. */
  function FeaturesToRecord(f: Features): (row: seq<Column>)
    ensures |row| == |Schema| == 10
    ensures forall i :: 0 <= i < |row| ==> row[i].name == Schema[i]
    ensures forall i :: 0 <= i < |row| ==>
      (Schema[i] in f ==> row[i].value == f[Schema[i]]) &&
      (Schema[i] !in f ==> row[i].value == 0.0)
  {
    seq(|Schema|, i requires 0 <= i < |Schema| => Column(Schema[i], Get(f, Schema[i])))
  }

  /** Keys outside the schema never reach the classifier: the record of a
      vector equals the record of its restriction to the schema. */
  lemma RecordIgnoresExtraKeys(f: Features)
    ensures FeaturesToRecord(f) == FeaturesToRecord(map k | k in f && k in Schema :: f[k])
  {
    var g := map k | k in f && k in Schema :: f[k];
    forall i | 0 <= i < |Schema|
      ensures FeaturesToRecord(f)[i] == FeaturesToRecord(g)[i]
    {
      assert Schema[i] in Schema;
    }
  }

  /** Two vectors that agree on every schema key (a missing key reading as 0)
      yield the same record. */
  lemma RecordDependsOnlyOnSchema(f: Features, g: Features)
    requires forall i :: 0 <= i < |Schema| ==> Get(f, Schema[i]) == Get(g, Schema[i])
    ensures FeaturesToRecord(f) == FeaturesToRecord(g)
  {
  }
}
