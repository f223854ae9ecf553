/**
 * The analysis tab (main.py:65-84): the fixed burnout-risk rule applied to
 * every row, the two gates that decide whether the stress regression and
 * the risk classifier run, and the outcome shown to the user. The fitted
 * models are library calls and enter as function parameters.
 */
module Burnout {
  import opened Wrappers
  import opened Observations

  /** A burnout-risk label: 1 is high risk, 0 is low risk. */
  type Label = x: int | 0 <= x <= 1

  /** The study-hours value at which the stress regression is evaluated for display. */
  const StressProbe: real := 10.0

  /** The features the classifier is trained on and queried with, in its column order. */
  datatype Features = Features(sleepHours: real, stressLevel: int, studyHours: real)

  /** What the analysis tab shows: the warning alone, or the stress prediction and perhaps a risk. */
  datatype Analysis =
    | TooFewRows
    | Analysed(predictedStress: real, burnoutRisk: Option<Label>)

  /** The threshold rule: high risk on short sleep together with high stress, both strict. */
  function RiskLabel(sleepHours: real, stressLevel: int): (r: Label)
    ensures r == 1 <==> sleepHours < 6.0 && stressLevel > 7
    ensures r == 0 <==> sleepHours >= 6.0 || stressLevel <= 7
  {
    if sleepHours < 6.0 && stressLevel > 7 then 1 else 0
  }

  predicate AtRisk(o: Observation)
  {
    RiskLabel(o.sleepHours, o.stressLevel) == 1
  }

  /** The burnout_risk column: one label per row, each from its own row only. */
  function Labels(rows: seq<Observation>): (r: seq<Label>)
    ensures |r| == |rows|
    ensures forall i :: 0 <= i < |rows| ==> r[i] == RiskLabel(rows[i].sleepHours, rows[i].stressLevel)
  {
    seq(|rows|, i requires 0 <= i < |rows| => RiskLabel(rows[i].sleepHours, rows[i].stressLevel))
  }

  /** The distinct values of a label column (Python's set over the column). */
  function LabelSet(labels: seq<Label>): (r: set<Label>)
    ensures forall l :: l in r <==> l in labels
  {
    set l: Label | l in labels
  }

  /** Gate of main.py:67: the regression, labelling and classifier run only on two rows or more. */
  predicate EnoughRows(rows: seq<Observation>)
  {
    |rows| >= 2
  }

  /** Gate of main.py:81: the classifier is fitted only when the labels are not all alike. */
  predicate HasVariety(labels: seq<Label>)
    ensures HasVariety(labels) <==> 0 in labels && 1 in labels
  {
    VarietyIffBoth(labels);
    |LabelSet(labels)| > 1
  }

  /**
   * The regression on (study_hours, stress_level) pairs evaluated at the probe,
   * and the classifier fitted on the feature rows and labels and queried with
   * today's form values; both are the libraries' own and stay uninterpreted.
   */
  function Analyse(
    rows: seq<Observation>,
    today: Features,
    regress: (seq<(real, int)>, real) -> real,
    classify: (seq<Features>, seq<Label>, Features) -> Label): (r: Analysis)
    ensures r.TooFewRows? <==> |rows| < 2
    ensures r.Analysed? ==> r.predictedStress == regress(StressPairs(rows), StressProbe)
    ensures r.Analysed? ==> (r.burnoutRisk.Some? <==> exists i, j :: 0 <= i < |rows| && 0 <= j < |rows| && AtRisk(rows[i]) && !AtRisk(rows[j]))
    ensures r.Analysed? && r.burnoutRisk.Some? ==> r.burnoutRisk.value == classify(TreeRows(rows), Labels(rows), today)
  {
    if !EnoughRows(rows) then
      TooFewRows
    else
      var labels := Labels(rows);
      VarietyIffBothRows(rows);
      var risk := if HasVariety(labels) then Some(classify(TreeRows(rows), labels, today)) else None;
      Analysed(regress(StressPairs(rows), StressProbe), risk)
  }

  /** The regression's training pairs: study hours against stress level, row by row. */
  function StressPairs(rows: seq<Observation>): (r: seq<(real, int)>)
    ensures |r| == |rows|
    ensures forall i :: 0 <= i < |rows| ==> r[i] == (rows[i].studyHours, rows[i].stressLevel)
  {
    seq(|rows|, i requires 0 <= i < |rows| => (rows[i].studyHours, rows[i].stressLevel))
  }

  /** The classifier's training features, row by row. */
  function TreeRows(rows: seq<Observation>): (r: seq<Features>)
    ensures |r| == |rows|
    ensures forall i :: 0 <= i < |rows| ==> r[i] == Features(rows[i].sleepHours, rows[i].stressLevel, rows[i].studyHours)
  {
    seq(|rows|, i requires 0 <= i < |rows| => Features(rows[i].sleepHours, rows[i].stressLevel, rows[i].studyHours))
  }

  /** More than one distinct label means both labels occur, and conversely. */
  lemma {:induction false} VarietyIffBoth(labels: seq<Label>)
    ensures |LabelSet(labels)| > 1 <==> 0 in labels && 1 in labels
  {
    var s := LabelSet(labels);
    if 0 in labels && 1 in labels {
      assert {0, 1} <= s;
      assert |{0, 1}| == 2;
      SubsetCard({0, 1}, s);
    } else if 0 in labels {
      assert s <= {0};
      SubsetCard(s, {0});
    } else {
      assert s <= {1};
      SubsetCard(s, {1});
    }
  }

  /** A subset is no larger than its superset. */
  lemma {:induction false} SubsetCard(a: set<Label>, b: set<Label>)
    requires a <= b
    ensures |a| <= |b|
  {
    if a != {} {
      var x :| x in a;
      SubsetCard(a - {x}, b - {x});
    }
  }

  /** The classifier gate holds exactly when some row is at risk and some row is not. */
  lemma VarietyIffBothRows(rows: seq<Observation>)
    ensures HasVariety(Labels(rows)) <==>
      exists i, j :: 0 <= i < |rows| && 0 <= j < |rows| && AtRisk(rows[i]) && !AtRisk(rows[j])
  {
    var labels := Labels(rows);
    VarietyIffBoth(labels);
    if 0 in labels && 1 in labels {
      var i :| 0 <= i < |labels| && labels[i] == 1;
      var j :| 0 <= j < |labels| && labels[j] == 0;
      assert AtRisk(rows[i]) && !AtRisk(rows[j]);
    }
    if exists i, j :: 0 <= i < |rows| && 0 <= j < |rows| && AtRisk(rows[i]) && !AtRisk(rows[j]) {
      var i, j :| 0 <= i < |rows| && 0 <= j < |rows| && AtRisk(rows[i]) && !AtRisk(rows[j]);
      assert labels[i] == 1 && labels[j] == 0;
    }
  }

  /** Adding a row adds exactly its own label at the end of the column. */
  lemma LabelsAppend(rows: seq<Observation>, o: Observation)
    ensures Labels(rows + [o]) == Labels(rows) + [RiskLabel(o.sleepHours, o.stressLevel)]
  {
    assert forall i :: 0 <= i < |rows| ==> (rows + [o])[i] == rows[i];
  }

  /** Less sleep or more stress never lowers the label. */
  lemma RiskMonotone(sleep1: real, stress1: int, sleep2: real, stress2: int)
    requires sleep2 <= sleep1 && stress2 >= stress1
    ensures RiskLabel(sleep1, stress1) <= RiskLabel(sleep2, stress2)
  {
  }

  /** The boundaries of the rule: six hours of sleep or a stress of seven is low risk. */
  lemma RiskBoundaries()
    ensures RiskLabel(5.9, 8) == 1
    ensures RiskLabel(6.0, 8) == 0
    ensures RiskLabel(5.0, 7) == 0
    ensures RiskLabel(5.0, 8) == 1
    ensures RiskLabel(6.0, 7) == 0
  {
  }

  /**
   * Two days, one rested and calm, one short of sleep and stressed: the labels
   * are 0 then 1, so the classifier is fitted and asked about today. Today's
   * values are day 2's own, so the answer is the classifier's verdict on one of
   * its training points.
   */
  lemma TwoDayScenario(regress: (seq<(real, int)>, real) -> real, classify: (seq<Features>, seq<Label>, Features) -> Label)
    ensures var rows := [Observation("day1", 2.0, 3, 8.0, 20), Observation("day2", 8.0, 9, 4.0, 0)];
            var today := Features(4.0, 9, 8.0);
            && Labels(rows) == [0, 1]
            && today == TreeRows(rows)[1]
            && Analyse(rows, today, regress, classify).burnoutRisk == Some(classify(TreeRows(rows), [0, 1], TreeRows(rows)[1]))
  {
    var rows := [Observation("day1", 2.0, 3, 8.0, 20), Observation("day2", 8.0, 9, 4.0, 0)];
    assert AtRisk(rows[1]) && !AtRisk(rows[0]);
    assert Labels(rows) == [0, 1];
  }

  /** With a single-label column the classifier is never fitted. */
  lemma NoVarietyNoRisk(rows: seq<Observation>, today: Features, regress: (seq<(real, int)>, real) -> real, classify: (seq<Features>, seq<Label>, Features) -> Label)
    requires |rows| >= 2
    requires forall i :: 0 <= i < |rows| ==> !AtRisk(rows[i])
    ensures Analyse(rows, today, regress, classify) == Analysed(regress(StressPairs(rows), StressProbe), None)
  {
  }
}
