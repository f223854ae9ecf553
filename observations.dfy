/**
 * One day's record of the tracker and the ranges that the daily input form
 * places on it (main.py:48-51 for the widgets, main.py:54-60 for the row).
 */
module Observations {

  /** The five columns, in order, of the table and of the file that stores it. */
  const Columns: seq<string> := ["date", "study_hours", "stress_level", "sleep_hours", "exercise_min"]

  /**
   * One submitted day. The date is the clock's "YYYY-MM-DD" text and is
   * opaque here; the hours are the form's decimal numbers, the stress level
   * the slider's integer and the exercise minutes the form's integer.
   */
  datatype Observation = Observation(
    date: string,
    studyHours: real,
    stressLevel: int,
    sleepHours: real,
    exerciseMin: int)

  /** The values the four input widgets of the daily form hand back. */
  datatype Form = Form(studyHours: real, stressLevel: int, sleepHours: real, exerciseMin: int)

  /** The bounds the four input widgets enforce on what they hand back. */
  predicate FormInRange(form: Form)
  {
    && 0.0 <= form.studyHours <= 24.0
    && 1 <= form.stressLevel <= 10
    && 0.0 <= form.sleepHours <= 24.0
    && 0 <= form.exerciseMin
  }

  /** The form values a row carries: every column but the date. */
  function Values(o: Observation): Form
  {
    Form(o.studyHours, o.stressLevel, o.sleepHours, o.exerciseMin)
  }

  /** A row lies within the widget bounds. */
  predicate InRange(o: Observation)
  {
    FormInRange(Values(o))
  }

  /** Every row of a table lies within the widget bounds, wherever it stands in the table. */
  predicate AllInRange(rows: seq<Observation>)
  {
    forall i :: 0 <= i < |rows| ==> InRange(rows[i])
  }

  /** The one-row table built from the form on submit, dated by the caller's clock. */
  function Submission(date: string, form: Form): (o: Observation)
    ensures o.date == date && Values(o) == form
    ensures InRange(o) <==> FormInRange(form)
  {
    Observation(date, form.studyHours, form.stressLevel, form.sleepHours, form.exerciseMin)
  }

  /** A row is the submission of its own date and form values. */
  lemma SubmissionOfValues(o: Observation)
    ensures Submission(o.date, Values(o)) == o
  {
  }

  /** A table with one more row is within bounds exactly when the table and the row are. */
  lemma AppendInRange(rows: seq<Observation>, o: Observation)
    ensures AllInRange(rows + [o]) <==> AllInRange(rows) && InRange(o)
  {
    if AllInRange(rows + [o]) {
      assert (rows + [o])[|rows|] == o;
      forall i | 0 <= i < |rows| ensures InRange(rows[i]) {
        assert (rows + [o])[i] == rows[i];
      }
    }
  }

  /** Appending a row that breaks a widget bound breaks the table's bounds. */
  lemma OutOfRangeRowRejected(rows: seq<Observation>, o: Observation)
    requires !InRange(o)
    ensures !AllInRange(rows + [o])
  {
    assert (rows + [o])[|rows|] == o;
  }
}
