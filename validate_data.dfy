/** The dataset validator: the value-range check over the ten feature
    columns, the risk-label check, and the completeness check that decides
    whether a dataset is fit for training. A data frame is its numeric
    columns by name plus, when present, the `asthma_risk` label column. */
module ValidateData {
  import opened Common
  import opened Features

  datatype Frame = Frame(numeric: map<string, seq<real>>, asthmaRisk: Option<seq<string>>)

  const RiskColumn: string := "asthma_risk"

  /** The column names of a frame; the label column is `asthmaRisk`, never
      a numeric one. */
  function Columns(df: Frame): set<string> {
    (df.numeric.Keys - {RiskColumn}) + (if df.asthmaRisk.Some? then {RiskColumn} else {})
  }

  /** One entry of the expected-range table: inclusive bounds for a column. */
  datatype RangeRule = RangeRule(column: string, lo: real, hi: real)

  /** The expected-range table, in the order the validator walks it. */
  const ExpectedRanges: seq<RangeRule> := [
    RangeRule("pm25", 0.0, 1000.0),
    RangeRule("pm10", 0.0, 1000.0),
    RangeRule("temperature", -50.0, 60.0),
    RangeRule("humidity", 0.0, 100.0),
    RangeRule("pollen_level", 0.0, 100.0),
    RangeRule("wind_speed", 0.0, 50.0),
    RangeRule("pressure", 900.0, 1100.0),
    RangeRule("patient_age", 0.0, 120.0),
    RangeRule("patient_history_severe_attacks", 0.0, 50.0),
    RangeRule("medication_adherence", 0.0, 1.0)
  ]

  /** The table covers the ten classifier features, in schema order, and
      every range is non-empty; the required columns are those ten and the
      label. */
  lemma TablesCoverTheSchema()
    ensures |ExpectedRanges| == |FeatureColumns|
    ensures forall j :: 0 <= j < |ExpectedRanges| ==>
      ExpectedRanges[j].column == FeatureColumns[j] && ExpectedRanges[j].lo < ExpectedRanges[j].hi
    ensures RequiredColumns == FeatureColumns + [RiskColumn]
  {
  }

  /** A value lies outside the inclusive bounds. */
  predicate OutOfRange(v: real, lo: real, hi: real) {
    v < lo || v > hi
  }

  /** The number of rows whose value lies outside `[lo, hi]`. */
  function CountOutOfRange(values: seq<real>, lo: real, hi: real): (k: nat)
    ensures k <= |values|
  {
    if |values| == 0 then 0
    else CountOutOfRange(values[..|values| - 1], lo, hi)
         + (if OutOfRange(values[|values| - 1], lo, hi) then 1 else 0)
  }

  /** No row is counted exactly when every value is within the bounds. */
  lemma {:induction false} CountZeroIff(values: seq<real>, lo: real, hi: real)
    ensures CountOutOfRange(values, lo, hi) == 0 <==> forall i :: 0 <= i < |values| ==> lo <= values[i] <= hi
  {
    if |values| > 0 {
      var init := values[..|values| - 1];
      CountZeroIff(init, lo, hi);
      assert forall i :: 0 <= i < |init| ==> init[i] == values[i];
    }
  }

  /** The issues the table yields on the data: for each rule, in table order,
      the column and its out-of-range count when the column is present and
      the count is positive. */
  function RangeIssues(rules: seq<RangeRule>, data: map<string, seq<real>>): seq<(string, nat)> {
    if |rules| == 0 then []
    else
      var rule := rules[|rules| - 1];
      RangeIssues(rules[..|rules| - 1], data)
        + (if rule.column in data && CountOutOfRange(data[rule.column], rule.lo, rule.hi) > 0
           then [(rule.column, CountOutOfRange(data[rule.column], rule.lo, rule.hi))]
           else [])
  }

  /** A pair is reported exactly when some rule names a present column with
      that positive out-of-range count. */
  lemma {:induction false} RangeIssuesMembers(rules: seq<RangeRule>, data: map<string, seq<real>>, c: string, k: nat)
    ensures (c, k) in RangeIssues(rules, data) <==>
      exists j :: 0 <= j < |rules| && rules[j].column == c && c in data
        && k == CountOutOfRange(data[c], rules[j].lo, rules[j].hi) && k > 0
  {
    if |rules| > 0 {
      var init := rules[..|rules| - 1];
      RangeIssuesMembers(init, data, c, k);
      assert forall j :: 0 <= j < |init| ==> init[j] == rules[j];
      if exists j :: 0 <= j < |rules| && rules[j].column == c && c in data
           && k == CountOutOfRange(data[c], rules[j].lo, rules[j].hi) && k > 0 {
        var j :| 0 <= j < |rules| && rules[j].column == c && c in data
           && k == CountOutOfRange(data[c], rules[j].lo, rules[j].hi) && k > 0;
        if j < |init| {
          assert init[j] == rules[j];
        }
      }
    }
  }

  /** Issues follow table order: the rules of a prefix of the table report
      before the rules after it. */
  lemma {:induction false} RangeIssuesInTableOrder(first: seq<RangeRule>, rest: seq<RangeRule>, data: map<string, seq<real>>)
    ensures RangeIssues(first + rest, data) == RangeIssues(first, data) + RangeIssues(rest, data)
  {
    if |rest| > 0 {
      var init := rest[..|rest| - 1];
      assert (first + rest)[..|first + rest| - 1] == first + init;
      assert (first + rest)[|first + rest| - 1] == rest[|rest| - 1];
      RangeIssuesInTableOrder(first, init, data);
    } else {
      assert first + rest == first;
    }
  }

  /** The walk of `validate_value_ranges` over a range table. */
  method CheckRanges(rules: seq<RangeRule>, df: Frame) returns (issues: seq<(string, nat)>)
    ensures issues == RangeIssues(rules, df.numeric)
  {
    issues := [];
    for i := 0 to |rules|
      invariant issues == RangeIssues(rules[..i], df.numeric)
    {
      var rule := rules[i];
      if rule.column in df.numeric {
        var outOfRange := CountOutOfRange(df.numeric[rule.column], rule.lo, rule.hi);
        if outOfRange > 0 {
          issues := issues + [(rule.column, outOfRange)];
        }
      }
      assert rules[..i + 1][..i] == rules[..i];
    }
    assert rules[..|rules|] == rules;
  }

  /** `validate_value_ranges`: the issues found with the expected-range table. */
  method ValidateValueRanges(df: Frame) returns (issues: seq<(string, nat)>)
    ensures issues == RangeIssues(ExpectedRanges, df.numeric)
  {
    issues := CheckRanges(ExpectedRanges, df);
  }

  /** No issue is found exactly when every present column of the table has
      all its values within the column's bounds; absent columns never count. */
  lemma NoIssuesIff(rules: seq<RangeRule>, data: map<string, seq<real>>)
    ensures RangeIssues(rules, data) == [] <==>
      forall j, i :: 0 <= j < |rules| && rules[j].column in data && 0 <= i < |data[rules[j].column]| ==>
        rules[j].lo <= data[rules[j].column][i] <= rules[j].hi
  {
    var issues := RangeIssues(rules, data);
    if issues != [] {
      var (c, k) := issues[0];
      RangeIssuesMembers(rules, data, c, k);
      var j :| 0 <= j < |rules| && rules[j].column == c && c in data
        && k == CountOutOfRange(data[c], rules[j].lo, rules[j].hi) && k > 0;
      CountZeroIff(data[c], rules[j].lo, rules[j].hi);
    } else {
      forall j | 0 <= j < |rules| && rules[j].column in data
        ensures forall i :: 0 <= i < |data[rules[j].column]| ==>
          rules[j].lo <= data[rules[j].column][i] <= rules[j].hi
      {
        var c := rules[j].column;
        var k := CountOutOfRange(data[c], rules[j].lo, rules[j].hi);
        RangeIssuesMembers(rules, data, c, k);
        CountZeroIff(data[c], rules[j].lo, rules[j].hi);
      }
    }
  }

  /** The labels of the rows whose risk label is not one of the three, in row order. */
  function InvalidRisks(labels: seq<string>): (r: seq<string>)
    ensures |r| <= |labels|
    ensures forall x :: x in r <==> x in labels && x !in ValidRiskNames()
  {
    if |labels| == 0 then []
    else
      var init := labels[..|labels| - 1];
      var last := labels[|labels| - 1];
      assert labels == init + [last];
      InvalidRisks(init) + (if last in ValidRiskNames() then [] else [last])
  }

  /** `value_counts`: each distinct label with its number of rows. */
  function ValueCounts(labels: seq<string>): (counts: map<string, nat>)
    ensures counts.Keys == set l | l in labels
    ensures forall l :: l in counts ==> counts[l] == multiset(labels)[l] && counts[l] > 0
  {
    map l | l in labels :: multiset(labels)[l]
  }

  /** The result of `validate_categorical_data`: the label counts, or None
      without a label column. Invalid labels are reported but do not change
      the result. */
  datatype CategoricalReport = CategoricalReport(invalid: seq<string>, counts: Option<map<string, nat>>)

  function ValidateCategoricalData(df: Frame): (r: CategoricalReport)
    ensures r.counts.None? <==> RiskColumn !in Columns(df)
    ensures r.counts.Some? ==> r.counts.value == ValueCounts(df.asthmaRisk.value)
    ensures r.invalid == [] <==> df.asthmaRisk.None? || forall x :: x in df.asthmaRisk.value ==> x in ValidRiskNames()
  {
    match df.asthmaRisk
    case None => CategoricalReport([], None)
    case Some(labels) =>
      var invalid := InvalidRisks(labels);
      assert invalid != [] ==> invalid[0] in invalid;
      CategoricalReport(invalid, Some(ValueCounts(labels)))
  }

  const RequiredColumns: seq<string> := [
    "pm25", "pm10", "temperature", "humidity", "pollen_level",
    "wind_speed", "pressure", "patient_age",
    "patient_history_severe_attacks", "medication_adherence", "asthma_risk"
  ]

  /** The minimum number of rows a class needs for training. */
  const MinSamplesPerClass: nat := 50

  /** The required columns missing from `columns`, in required order. */
  function MissingFrom(required: seq<string>, columns: set<string>): (r: seq<string>)
    ensures forall c :: c in r <==> c in required && c !in columns
  {
    if |required| == 0 then []
    else (if required[0] in columns then [] else [required[0]]) + MissingFrom(required[1..], columns)
  }

  /** The largest number of rows sharing a label among `keys`. */
  function MaxCount(keys: seq<string>, counts: multiset<string>): (m: nat)
    requires |keys| > 0
    ensures exists i :: 0 <= i < |keys| && m == counts[keys[i]]
    ensures forall i :: 0 <= i < |keys| ==> counts[keys[i]] <= m
  {
    if |keys| == 1 then counts[keys[0]]
    else
      var rest := MaxCount(keys[1..], counts);
      assert forall i :: 1 <= i < |keys| ==> keys[i] == keys[1..][i - 1];
      if counts[keys[0]] >= rest then counts[keys[0]] else rest
  }

  /** The smallest number of rows sharing a label among `keys`. */
  function MinCount(keys: seq<string>, counts: multiset<string>): (m: nat)
    requires |keys| > 0
    ensures exists i :: 0 <= i < |keys| && m == counts[keys[i]]
    ensures forall i :: 0 <= i < |keys| ==> m <= counts[keys[i]]
  {
    if |keys| == 1 then counts[keys[0]]
    else
      var rest := MinCount(keys[1..], counts);
      assert forall i :: 1 <= i < |keys| ==> keys[i] == keys[1..][i - 1];
      if counts[keys[0]] <= rest then counts[keys[0]] else rest
  }

  /** The classes with fewer rows than the minimum. */
  function Insufficient(labels: seq<string>): set<string> {
    set l | l in labels && multiset(labels)[l] < MinSamplesPerClass
  }

  /** The imbalance warning: the rarest class has less than half the rows of
      the commonest one. With no rows the ratio is undefined and no warning
      is given. */
  predicate Imbalanced(labels: seq<string>) {
    |labels| > 0 &&
      (MinCount(labels, multiset(labels)) as real) / (MaxCount(labels, multiset(labels)) as real) < 0.5
  }

  /** For a positive denominator, a ratio below one half is twice the
      numerator below the denominator. */
  lemma RatioBelowHalf(a: real, b: real)
    requires b > 0.0
    ensures a / b < 0.5 <==> 2.0 * a < b
  {
    var ratio := a / b;
    assert ratio * b == a;
    if ratio < 0.5 {
      assert ratio * b < 0.5 * b;
    } else {
      assert ratio * b >= 0.5 * b;
    }
  }

  /** The ratio test is the integer comparison `2 * min < max`; the
      commonest class of a non-empty column has at least one row. */
  lemma ImbalancedIff(labels: seq<string>)
    requires |labels| > 0
    ensures var mx := MaxCount(labels, multiset(labels));
      var mn := MinCount(labels, multiset(labels));
      mx > 0 && (Imbalanced(labels) <==> 2 * mn < mx)
  {
    var m := multiset(labels);
    var mx := MaxCount(labels, m);
    var mn := MinCount(labels, m);
    assert labels[0] in m;
    RatioBelowHalf(mn as real, mx as real);
  }

  /** The outcome of `validate_dataset_completeness`: the missing required
      columns, or the two training warnings for a complete dataset. */
  datatype Completeness =
    | MissingRequired(missing: seq<string>)
    | Checked(insufficient: set<string>, imbalanced: bool)

  /** The boolean the validator returns. */
  predicate IsComplete(r: Completeness) {
    r.Checked?
  }

  function ValidateDatasetCompleteness(df: Frame): (r: Completeness)
    ensures !IsComplete(r) <==> exists c :: c in RequiredColumns && c !in Columns(df)
    ensures r.MissingRequired? ==>
      r.missing != [] && forall c :: c in r.missing <==> c in RequiredColumns && c !in Columns(df)
    ensures IsComplete(r) ==> df.asthmaRisk.Some?
    ensures IsComplete(r) ==>
      && (forall l :: l in r.insufficient <==> l in df.asthmaRisk.value && multiset(df.asthmaRisk.value)[l] < 50)
      && (r.imbalanced <==> Imbalanced(df.asthmaRisk.value))
  {
    var missing := MissingFrom(RequiredColumns, Columns(df));
    if missing != [] then
      assert missing[0] in missing;
      MissingRequired(missing)
    else
      assert RiskColumn in RequiredColumns;
      var labels := df.asthmaRisk.value;
      Checked(Insufficient(labels), Imbalanced(labels))
  }

  /** Completeness depends on the columns alone: two frames with the same
      columns get the same verdict whatever their class counts. */
  lemma CompletenessIgnoresCounts(df1: Frame, df2: Frame)
    requires Columns(df1) == Columns(df2)
    ensures IsComplete(ValidateDatasetCompleteness(df1)) == IsComplete(ValidateDatasetCompleteness(df2))
  {
  }
}
