/**
 * The observation table `df` and its data file (main.py:16-22, 53-62, 78).
 * Every interaction with the dashboard runs the script from the top: the
 * table is read from the file (or created empty, together with the file),
 * a submitted form appends one row and writes the whole table back, and the
 * analysis tab then adds the burnout_risk column in memory only.
 */
module ObservationLog {
  import opened Wrappers
  import opened Observations
  import opened Burnout

  /** What the data file holds between runs: nothing yet, or the rows of the five-column table. */
  datatype DataFile = Missing | Present(rows: seq<Observation>)

  /** The table a run starts from: the file's rows, or the empty table when there is no file. */
  function LoadedRows(f: DataFile): (rows: seq<Observation>)
    ensures f.Missing? ==> rows == []
    ensures f.Present? ==> rows == f.rows
  {
    if f.Missing? then [] else f.rows
  }

  /** The file after one run that submits `o`: read or initialise, append one row, write it all back. */
  function AfterSubmit(f: DataFile, o: Observation): (r: DataFile)
    ensures r.Present? && |r.rows| == |LoadedRows(f)| + 1
    ensures r.rows[..|LoadedRows(f)|] == LoadedRows(f) && r.rows[|LoadedRows(f)|] == o
  {
    Present(LoadedRows(f) + [o])
  }

  /** The file after one run per submission, in order. */
  function AfterSubmissions(f: DataFile, submissions: seq<Observation>): (r: DataFile)
    ensures |LoadedRows(r)| == |LoadedRows(f)| + |submissions|
    ensures submissions != [] ==> r.Present?
    decreases |submissions|
  {
    if submissions == [] then f else AfterSubmissions(AfterSubmit(f, submissions[0]), submissions[1..])
  }

  /** N submissions leave exactly the earlier rows followed by the N new rows, in submission order. */
  lemma {:induction false} SubmissionsKeepOrder(f: DataFile, submissions: seq<Observation>)
    requires submissions != []
    ensures AfterSubmissions(f, submissions) == Present(LoadedRows(f) + submissions)
    decreases |submissions|
  {
    var g := AfterSubmit(f, submissions[0]);
    if |submissions| == 1 {
      assert AfterSubmissions(g, submissions[1..]) == g;
    } else {
      SubmissionsKeepOrder(g, submissions[1..]);
      assert LoadedRows(f) + [submissions[0]] + submissions[1..] == LoadedRows(f) + submissions;
    }
  }

  /** Starting with no file, reading back after N submissions gives exactly those N rows. */
  lemma FromNothing(submissions: seq<Observation>)
    ensures LoadedRows(AfterSubmissions(Missing, submissions)) == submissions
  {
    if submissions != [] {
      SubmissionsKeepOrder(Missing, submissions);
    }
  }

  /** Submissions that pass the widgets keep an in-range file in range. */
  lemma {:induction false} SubmissionsKeepRange(f: DataFile, submissions: seq<Observation>)
    requires AllInRange(LoadedRows(f)) && AllInRange(submissions)
    ensures AllInRange(LoadedRows(AfterSubmissions(f, submissions)))
    decreases |submissions|
  {
    if submissions != [] {
      AppendInRange(LoadedRows(f), submissions[0]);
      assert AllInRange(submissions[1..]) by {
        forall i | 0 <= i < |submissions| - 1 ensures InRange(submissions[1..][i]) {
          assert submissions[1..][i] == submissions[i + 1];
        }
      }
      SubmissionsKeepRange(AfterSubmit(f, submissions[0]), submissions[1..]);
    }
  }

  /** The table `df` of one run of the script, and the file it is written through to. */
  class Log {
    var rows: seq<Observation>
    var file: DataFile
    var riskColumn: Option<seq<Label>>

    /** Write-through: the file always holds the table; the label column, once added, fits the rows. */
    ghost predicate Valid()
      reads this
    {
      && file == Present(rows)
      && (riskColumn.Some? ==> riskColumn.value == Labels(rows))
    }

    /** The table's column names: the five fixed ones, then burnout_risk once the analysis added it. */
    function ColumnNames(): (names: seq<string>)
      reads this
      ensures |names| == 5 + (if riskColumn.Some? then 1 else 0)
      ensures names[..5] == Columns
      ensures riskColumn.Some? ==> names[5] == "burnout_risk"
    {
      Columns + (if riskColumn.Some? then ["burnout_risk"] else [])
    }

    /** Load or initialise: read the file, or start an empty five-column table and create the file. */
    constructor Open(stored: DataFile)
      ensures Valid()
      ensures rows == LoadedRows(stored) && riskColumn == None
      ensures stored.Missing? ==> rows == [] && file == Present([]) && ColumnNames() == Columns
      ensures stored.Present? ==> file == stored
    {
      riskColumn := None;
      match stored
      case Missing =>
        rows := [];
        file := Present([]);
      case Present(saved) =>
        rows := saved;
        file := stored;
    }

    /**
     * Submit: the form's row goes at the end of the table and the whole table is
     * written back. It runs before the analysis tab in a run, so the label
     * column is not present yet.
     */
    method Submit(o: Observation)
      requires Valid() && riskColumn.None?
      requires InRange(o)
      modifies this
      ensures Valid() && riskColumn.None?
      ensures rows == old(rows) + [o]
      ensures |rows| == |old(rows)| + 1 && rows[..|old(rows)|] == old(rows) && rows[|rows| - 1] == o
      ensures file == AfterSubmit(old(file), o)
      ensures AllInRange(rows) <==> old(AllInRange(rows))
    {
      AppendInRange(rows, o);
      rows := rows + [o];
      file := Present(rows);
    }

    /**
     * The analysis tab: with two rows or more, label every row into the new
     * burnout_risk column and compute what is shown; the file is not touched.
     */
    method Analyse(
      today: Features,
      regress: (seq<(real, int)>, real) -> real,
      classify: (seq<Features>, seq<Label>, Features) -> Label) returns (outcome: Analysis)
      requires Valid()
      modifies this
      ensures Valid() && rows == old(rows) && file == old(file)
      ensures riskColumn == if |rows| < 2 then old(riskColumn) else Some(Labels(rows))
      ensures outcome == Burnout.Analyse(rows, today, regress, classify)
    {
      if |rows| >= 2 {
        riskColumn := Some(Labels(rows));
      }
      outcome := Burnout.Analyse(rows, today, regress, classify);
    }
  }

  /**
   * One run of the script's data path: load or initialise, append the form's
   * row if it was submitted (dated `today`), then the analysis, which queries
   * the classifier with the form's current values whether submitted or not.
   */
  method RunScript(
    stored: DataFile,
    form: Form,
    submitted: bool,
    today: string,
    regress: (seq<(real, int)>, real) -> real,
    classify: (seq<Features>, seq<Label>, Features) -> Label) returns (written: DataFile, outcome: Analysis)
    requires FormInRange(form)
    ensures !submitted ==> written == Present(LoadedRows(stored))
    ensures submitted ==> written == AfterSubmit(stored, Submission(today, form))
    ensures outcome == Burnout.Analyse(LoadedRows(written), Features(form.sleepHours, form.stressLevel, form.studyHours), regress, classify)
  {
    var log := new Log.Open(stored);
    if submitted {
      log.Submit(Submission(today, form));
    }
    outcome := log.Analyse(Features(form.sleepHours, form.stressLevel, form.studyHours), regress, classify);
    written := log.file;
  }
}
