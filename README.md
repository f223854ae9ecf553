# Study & Wellness Tracker: the observation log, the burnout rule and the plan phases

This Dafny project models the data path of the tracker's single Streamlit
script, `main.py`. The rest of that script is widget layout and calls into
libraries.

- **Observation log.** The table `df` has five columns: date, study_hours,
  stress_level, sleep_hours and exercise_min. Each run of the script reads it
  from `data.csv`. When that file is absent, the table starts empty and an
  empty file is created. A submitted form appends exactly one row, and the
  whole table is written back to the file.
- **Analysis gates.** The regression and the classifier run only when the
  table has at least two rows. Every row is labelled 1 (high burnout risk)
  when sleep is under 6 hours and stress is above 7, and 0 otherwise. The
  label column is added to the in-memory table only. The classifier is fitted
  only when both labels occur.
- **Study plan.** The number of days left is floor-divided by four. This gives
  four day ranges: `1..p`, `p+1..2p`, `2p+1..3p` and `3p+1..days_left`.

Modules:

- `Observations` (observations.dfy) holds the record, the fixed columns and
  the widget bounds.
- `Burnout` (burnout.dfy) holds the label rule, the label column, the two
  gates and the analysis outcome. The fitted regression and classifier are
  function parameters, because they belong to scikit-learn.
- `StudyPlan` (plan.dfy) holds the phase ranges.
- `ObservationLog` (log.dfy) holds the data file, the `Log` class (the table
  of one run, with `Open`, `Submit` and `Analyse`) and `RunScript`. `RunScript`
  composes one run of the script.
- `Wrappers` (wrappers.dfy) holds `Option`.

The file is abstracted as the sequence of rows it holds: `Missing`, or
`Present(rows)`. The class invariant `Log.Valid` states write-through, so the
file always equals the in-memory table. It also says that the label column,
once added, is exactly `Labels(rows)`. The widget bounds are the predicate
`InRange`. `Submit` requires the new row to satisfy it and keeps
`AllInRange(rows)` unchanged.

Two facts about the code shape the model:

- The stress level is the slider's integer (main.py:49), so `stress > 7`
  means `stress >= 8`.
- Streamlit reruns the script from the top on every interaction, and the
  submit handler (main.py:53-62) runs before the analysis (main.py:65-84).
  So the `burnout_risk` column is never present when a row is appended, and
  it is never written to the file. `Log.Submit` requires the column to be
  absent, and `RunScript` shows that the script's order meets this.

## Model

| member | source | states |
|---|---|---|
| `Observations.FormInRange` | main.py:48-51 | the widget bounds: study and sleep hours in 0..24, stress level in 1..10, exercise minutes at least 0 |
| `Observations.InRange` | main.py:48-51 | a row lies within the widget bounds when the form values it carries do |
| `Observations.AllInRange` | main.py:48-51 | every row of the table lies within the widget bounds |
| `Observations.Submission` | main.py:54-60 | the row built on submit carries the clock's date and exactly the form's values; it is within the bounds iff the form is |
| `Observations.SubmissionOfValues` | main.py:54-60 | every row is the submission of its own date and form values (the row and the form round-trip) |
| `Observations.AppendInRange` | main.py:48-61 | a table with one more row is within the widget bounds exactly when the old table and the new row both are |
| `Observations.OutOfRangeRowRejected` | main.py:48-51 | a row outside the bounds (study hours 25, stress 11, …) would break the table's bounds, so only the widgets' range can reach the log |
| `ObservationLog.LoadedRows` | main.py:18-22 | a missing file gives the empty table; an existing file gives its rows |
| `ObservationLog.AfterSubmit` | main.py:54-62 | one submission leaves one more row than before: the earlier rows unchanged and in order, then the new row last |
| `ObservationLog.AfterSubmissions` | main.py:18-62 | after one run per submission, the file holds exactly as many more rows as there were submissions, and it exists once there was at least one |
| `ObservationLog.SubmissionsKeepOrder` | main.py:18-62 | after N submissions (one run each: read, append, write), the file holds the earlier rows followed by the N new rows in submission order |
| `ObservationLog.FromNothing` | main.py:18-22 | with no file at the start, reading back after N submissions (N = 0 included) gives exactly the N submitted rows |
| `ObservationLog.SubmissionsKeepRange` | main.py:48-62 | if the file and every submission lie within the widget bounds, then the file still does after all the submissions |
| `ObservationLog.Log.ColumnNames` | main.py:21 | the table's columns are the five fixed ones, followed by burnout_risk once the analysis has added it |
| `ObservationLog.Log.Open` | main.py:17-22 | load-or-init: the table is the file's rows, or, when there is no file, the empty five-column table and a newly created empty file; write-through holds afterwards |
| `ObservationLog.Log.Submit` | main.py:53-62 | row count up by exactly one, earlier rows unchanged, new row last, file rewritten to equal the table; all rows in bounds afterwards iff before |
| `ObservationLog.Log.Analyse` | main.py:65-84 | the table and file are unchanged; with two rows or more the burnout_risk column is added and equals the row-wise labels; the outcome is `Burnout.Analyse` of the table |
| `ObservationLog.RunScript` | main.py:16-84 | one run of the script: the file written is the loaded table, plus the form's row when submitted; the analysis is of that table, queried with the form's values |
| `Burnout.RiskLabel` | main.py:78 | the label is 1 iff sleep < 6 and stress > 7, and 0 iff sleep >= 6 or stress <= 7 (strict comparisons) |
| `Burnout.Labels` | main.py:78 | the label column has one entry per row, and each entry is the rule applied to its own row alone |
| `Burnout.LabelSet` | main.py:81 | the set of distinct labels contains exactly the values occurring in the column |
| `Burnout.EnoughRows` | main.py:67 | the gate of the regression and everything after it: at least two rows |
| `Burnout.HasVariety` | main.py:81 | the classifier's gate, more than one distinct label, holds iff both 0 and 1 occur |
| `Burnout.StressPairs` | main.py:71-72 | the regression's training data is (study_hours, stress_level) for every row, in order |
| `Burnout.TreeRows` | main.py:79 | the classifier's training features are (sleep_hours, stress_level, study_hours) for every row, in order |
| `Burnout.Analyse` | main.py:67-84 | only the warning is shown iff there are fewer than 2 rows; otherwise the regression is evaluated at 10 study hours, and a risk is predicted iff some row is at risk and some row is not |
| `Burnout.VarietyIffBoth` | main.py:81 | "more than one distinct label" holds iff both 0 and 1 occur in the column |
| `Burnout.VarietyIffBothRows` | main.py:78-81 | the classifier gate holds iff the table has a high-risk row and a low-risk row |
| `Burnout.LabelsAppend` | main.py:78 | labelling a table with one more row gives the old labels followed by the new row's own label |
| `Burnout.RiskMonotone` | main.py:78 | less sleep or more stress never lowers the label |
| `Burnout.RiskBoundaries` | main.py:78 | sleep 5.9 with stress 8 is high risk; sleep 6 or stress 7 is low risk |
| `Burnout.TwoDayScenario` | main.py:67-83 | for the days (study 2, stress 3, sleep 8) and (study 8, stress 9, sleep 4), the labels are [0, 1], and the risk shown is the classifier's answer for day 2's own training point, which is today's query |
| `Burnout.NoVarietyNoRisk` | main.py:81-84 | when no row is at risk, the stress prediction is still shown but no risk is predicted |
| `StudyPlan.Phases` | main.py:102-107 | four ranges starting at day 1 and ending at days_left; each starts the day after the previous one ends; the first three each have days_left div 4 days |
| `StudyPlan.PhaseOf` | main.py:102-107 | an independent reference for the phase a day belongs to (whole quarters before the day, capped at the last phase), always one of the four |
| `StudyPlan.PhasesPartition` | main.py:102-107 | every day 1..days_left lies in the phase named by PhaseOf and in no other phase (disjoint and covering) |
| `StudyPlan.PhasesWithinPlan` | main.py:102-107 | no phase holds a day outside 1..days_left |
| `StudyPlan.PhaseLengths` | main.py:102-107 | the four lengths add up to days_left; the last phase has days_left − 3p days, between p and p+3 |
| `StudyPlan.TwentyDays` | main.py:102-107 | 20 days gives 1-5, 6-10, 11-15, 16-20 |
| `StudyPlan.ShortPlan` | main.py:96-107 | with 1 to 3 days left, the first three phases are the empty "1-0" and the last covers every day |

## Left out

- The Streamlit layout is not modelled: titles, images, the random quote, tabs, forms, messages and the progress bar. It is presentation only.
- The CSV format and pandas' reading and writing are not modelled. The file is the sequence of rows it holds. A malformed file, which makes `read_csv` fail, is not represented. Neither is atomicity of the write.
- Fitting and evaluating `LinearRegression` and `DecisionTreeClassifier` are not modelled. They are foreign numerics, so they enter `Burnout.Analyse` as uninterpreted function parameters. The classifier's answer is typed as a label (0 or 1), because a tree predicts one of its training classes. The degenerate regression on identical study hours is therefore not captured.
- Floating point is not modelled: study and sleep hours are Dafny reals.
- The widgets' 0.5 and 5 step sizes are not modelled. The clock date (`today().strftime`) is an opaque string parameter.
- The plan's text is not modelled: the header, the focus descriptions with the subject lists, and the decimal rendering of the day numbers. Only the four day ranges are.
- The GPT-2 wellness tips are not modelled: they are a foreign model call with nondeterministic output.
- The progress percentage (main.py:117-122) is not modelled: it is floating-point arithmetic on wall-clock dates.
- The Plotly charts and the PDF export (main.py:86-91, 124-141) are not modelled. They are rendering and file output. The export calls `plt.figure()` (main.py:133), but `plt` is never imported, so the export stops with a NameError before the date column would be converted in place (main.py:134).
- Concurrent sessions writing the same file are not modelled: the script is single-threaded per run.
