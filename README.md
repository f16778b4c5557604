# Patent problem/solution classifier — the batch classification engine

This project models the batch classification engine of the Streamlit app
`app3.py`. The app takes a spreadsheet of patent abstracts (the `要約`
column) and two raw category-definition blocks. It asks a text-generation
model once per row for a problem category, then once per row for a
solution category. It writes the labels into two new columns, `課題分類`
and `解決手段分類`, and counts how often each label occurs.

Modules, one per component of the engine:

- `Labels` (labels.dfy) models the post-processing of
  `generate_classification`. The model call is an oracle that returns
  text or raises. The text is trimmed with Python's `str.strip()`, using
  the exact `str.isspace()` character set. Exactly one outer `[`…`]` pair
  is then removed. A raised exception becomes `"分類エラー: " + message`.
  The adapter catches every `Exception`, so no `Exception` escapes it.
- `Tables` (tables.dfy) models the pandas DataFrame as `read_excel`
  produces it. Column names are distinct and rows sit at positions
  0..N-1. The table is a class, and column assignment and `df.at`
  writes update it in place.
- `Runner` (runner.dfy) holds the run state (log, progress trace, sleep
  counter, trace of model calls) and the run itself. `RunState` is a
  class, and each pass is a `for` loop over the rows. Specification
  functions give the expected calls, log and progress. Lemmas prove what
  those sequences promise. `OnUpload` is the missing-column guard.
- `Counts` (counts.dfy) models `value_counts()` as a map from label
  to count. It is proved to sum to the number of rows.
- `Text` (text.dfy) gives the decimal rendering used in log lines (`{i+1}`,
  `{x:.1f}`), with its round trip.
- `Scenarios` (scenarios.dfy) holds whole runs on concrete tables. One
  stub model always answers the same category. Another fails on one
  record. One table has no `要約` column. The last scenario counts sleeps
  for one row and for five rows.

The model call is a parameter `model: (nat, Call) -> Response`. The `nat`
is the call's position in the run, so the model may answer differently
each time it is called. A `Call` carries the record text, the raw
definition block and the taxonomy. The prompt embeds both verbatim.

Behaviour of `app3.py` that the model keeps as written:

- There is no category-definition parser. The raw block goes into the
  prompt unchanged, and a returned label is never checked against the
  category names.
- The required column is `要約`.
- A successful call can store an empty label. The model answering `[]`,
  or only whitespace, does this (`Labels.EmptyLabelPossible`).
- A model answer that happens to start with the error prefix cannot be
  told apart from a failed call (`Labels.ErrorMarkerNotReserved`).
- The sleep comes after each row except the last row of its pass. There
  is no sleep between the two passes, so a run performs 2·(N−1) sleeps
  and not 2N−1.

## Model

| member | source | states |
|---|---|---|
| `Labels.Strip` | app3.py:239 | the trimmed text has no whitespace at either end |
| `Labels.StripUnique` | app3.py:239 | `strip()` gives the one string with no whitespace at its ends that the text is a whitespace-padded copy of (both directions) |
| `Labels.StripIdempotent` | app3.py:239 | trimming twice is the same as trimming once |
| `Labels.Normalise` | app3.py:239-242 | if the trimmed text starts with `[` and ends with `]`, it is `[` + label + `]`; otherwise the label is exactly the trimmed text |
| `Labels.NormaliseUnwrapsOnce` | app3.py:241-242 | exactly one bracket pair is removed, whatever is inside: `[]` gives `""` and `[[x]]` gives `[x]` |
| `Labels.NormaliseKeepsBare` | app3.py:239-242 | text with no whitespace at its ends and no bracket pair is its own label |
| `Labels.NormaliseIgnoresPadding` | app3.py:239 | whitespace added around the model's text does not change the label |
| `Labels.Resolve` | app3.py:239-246 | a text response gives the normalised label; for a raised exception, `ErrorMessage` reads the exception text back from the stored label, exactly |
| `Labels.ErrorMarkerNotReserved` | app3.py:239-246 | a bracketed answer that starts with the error prefix is stored exactly like a raised exception |
| `Labels.EmptyLabelPossible` | app3.py:239-242 | an all-whitespace answer and the answer `[]` both store the empty label |
| `Text.Decimal` | app3.py:253 | the decimal rendering is non-empty and all digits, with a leading zero only for 0 |
| `Text.DecimalRoundTrip` | app3.py:280 | reading back the digits of `{n}` gives `n` |
| `Text.DecimalInjective` | app3.py:280 | different row numbers print differently |
| `Text.Tenths` | app3.py:254 | `{x:.1f}` prints digits, a point and one digit whose value is the number of tenths, with no leading zero before a non-zero whole part |
| `Runner.EstimatedTenths` | app3.py:251-254 | the printed estimate is N/12 minutes rounded to tenths, with ties to even |
| `Runner.EstimateIsClose` | app3.py:251-254 | the printed estimate is within 0.05 of `N * 2.5 * 2 / 60` |
| `Runner.ResultLineInjective` | app3.py:280 | a row's log line determines both its row number and its label |
| `Runner.Recent` | app3.py:282 | the display shows the last min(20, length) log entries, as a suffix of the log, which it leaves unchanged |
| `Runner.ProgressBounds` | app3.py:268 | a run reports 2N+1 values: those of the problem pass lie in [0, 0.5), those of the solution pass in [0.5, 1), and the last one is 1.0 |
| `Runner.ProgressIncreasing` | app3.py:294 | every reported progress value is larger than all earlier ones |
| `Runner.CallsInPassOrder` | app3.py:266-312 | 2N calls: first each row's summary with the problem definitions in row order, then each with the solution definitions; no problem call comes after a solution call |
| `Runner.LogLayout` | app3.py:253-320 | the log has 2N+5 lines: the two header lines, the problem start line, N lines `  {i+1}: {label}`, the solution start line, N such lines, and the completion line |
| `Runner.PassLabels` | app3.py:266-278 | a pass yields one label per row, and the label of row i is the classifier's answer to call number first+i on row i's summary |
| `Runner.RunCells` | app3.py:278 | after a run, row i keeps its other cells, gains both label columns, and holds the answers of problem call i and solution call N+i |
| `Runner.LabelColumns` | app3.py:278 | after both columns are written, each reads back as the labels written into it |
| `Runner.RunState.constructor` | app3.py:190 | a run starts with an empty log, an empty progress trace, no sleeps and no calls |
| `Runner.RunState.Log` | app3.py:253 | the log is append-only: the new line goes at the end and nothing else changes |
| `Runner.RunState.Report` | app3.py:269 | a progress value is appended to the trace |
| `Runner.RunState.Sleep` | app3.py:285-286 | the sleep counter goes up by one |
| `Runner.RunState.Classify` | app3.py:273-277 | the call is appended to the call trace, and the answer is the classifier's label for the call at its position |
| `Runner.RunState.Finish` | app3.py:315-320 | progress 1.0 is reported, then the completion line is logged |
| `Runner.ClassifyRow` | app3.py:266-286 | one iteration: report `i/N*0.5` (shifted by 0.5 in the solution pass), classify row i's summary, write the label into row i only, log `  {i+1}: {label}`, and sleep only if i < N-1 |
| `Runner.ClassifyRows` | app3.py:266-286 | the loop of a pass: every row's label is written, the calls, log lines and progress values come in row order, and there are N-1 sleeps (none when N = 0) |
| `Runner.ClassifyPass` | app3.py:292-312 | one pass writes the pass's labels into its column, keeps the table's shape and columns, and appends its calls, lines and progress |
| `Runner.Prepare` | app3.py:250-258 | the two header lines are logged; both label columns are added (or overwritten) filled with `""`; the summaries are unchanged |
| `Runner.Passes` | app3.py:262-312 | the problem pass then the solution pass, each announced by its start line, with calls numbered on from the problem pass |
| `Runner.Conclude` | app3.py:315-337 | progress 1.0, the completion line, and the frequency tables of the two label columns |
| `Runner.Classification` | app3.py:262-337 | both passes and the end of the run: label columns, calls, log, 2N+1 progress values, 2(N-1) sleeps and both frequency tables |
| `Runner.RunBatch` | app3.py:248-337 | the whole run: columns added, every row holds the labels of its problem and solution calls, all other cells and the row order are unchanged, and the calls, log, progress, sleeps and frequency tables are the expected ones |
| `Runner.OnUpload` | app3.py:157-160 | without a `要約` column, the table is untouched and there are no calls, log lines, progress or sleeps; otherwise the run is `RunBatch` over `generate_classification` |
| `Counts.ValueCounts` | app3.py:331 | the keys are exactly the distinct labels, including error markers and out-of-set labels, and each maps to its number of occurrences (at least 1) |
| `Counts.CountsSumToRows` | app3.py:337 | the counts of a frequency table sum to the number of rows |
| `Tables.WithColumn` | app3.py:257-258 | a new column name goes last and an existing one keeps its place; column names stay distinct |
| `Tables.ReadWritten` | app3.py:278 | reading back a column just written gives the written values in row order |
| `Tables.ReadOther` | app3.py:304 | writing one column leaves every other column unchanged |
| `Tables.FilledThenWritten` | app3.py:257-258 | filling the two label columns with `""` and then writing them gives the same rows as writing them directly |
| `Tables.ShapeKept` | app3.py:278 | cell writes that keep each row's keys keep the table's shape |
| `Tables.Table.constructor` | app3.py:154 | a table with distinct columns in which every row has exactly those cells |
| `Tables.Table.AssignColumn` | app3.py:257 | `df[name] = value` puts `value` in every row and adds the column if it is new |
| `Tables.Table.SetAt` | app3.py:278 | `df.at[i, name] = value` changes that one cell of an existing column and keeps the table well formed |
| `Scenarios.RunOn` | app3.py:248-337 | a run on a table whose only column is `要約` yields 2N calls, a log of 2N+5 lines, 2(N-1) sleeps, and frequency tables of the two label columns |
| `Scenarios.SameCategoryRun` | app3.py:266-337 | with a stub that always answers ` Cooling\n` or `[Mechanical Redesign]`, all three rows get `Cooling` / `Mechanical Redesign`, the tables are `{Cooling: 3}` and `{Mechanical Redesign: 3}`, the log has 11 lines and there are 4 sleeps |
| `Scenarios.SameAnswerAt` | app3.py:239-242 | under the always-same stub, every call stores `Cooling` in the problem pass and `Mechanical Redesign` in the solution pass |
| `Scenarios.FailsOnSecondAt` | app3.py:239-246 | under the failing stub, the call on `filter clogging` stores the error marker and every other call stores the bare category |
| `Scenarios.FailedCallRun` | app3.py:245-246 | a call that fails on the second record stores an error marker for that record only, and the marker is counted as its own bucket |
| `Scenarios.MissingColumnRun` | app3.py:157-160 | a table without `要約` causes zero calls and keeps its columns |
| `Scenarios.SleepsForOneAndFive` | app3.py:285-286 | one row means no sleep; five rows mean eight sleeps |
| `Scenarios.FailedCounts` | app3.py:331 | the error marker and the normal label are counted as separate buckets |

## Left out

- The Streamlit page (sidebar, text areas, file uploader, buttons, charts, status text) is presentation only. So is the API-key check at app3.py:172-175: the button is disabled without a key.
- The `i % 5 == 0` log refresh is left out. It only sets how often the display redraws, and `Runner.Recent` gives what is shown.
- The Gemini SDK call (model name, sampling configuration, `generate_content`) is a network call. It is the `model` oracle, which returns text or an exception message.
- The prompt f-strings are plain templating. They are folded into the oracle, which receives the record text and the definition block verbatim.
- `read_excel`, the Excel and CSV export and the timestamped file names are I/O. The table is given as already loaded. `read_excel`'s header de-duplication appears only as the distinct-columns invariant.
- `time.sleep` durations, `datetime` and the measured processing time are wall-clock values. Sleeps are counted instead. Progress values are exact reals, not floats.
- `Runner.Recent`: the display joins the last 20 entries with newlines. The model keeps them as a sequence and does not join them.
- The outer `except` handlers (app3.py:376-384) are left out. They report an unexpected error to the page. The one at app3.py:376-380 also appends `❌ エラー: {e}` to `processing_logs`.
- `Runner.RunBatch`: the completed-run contracts assume that the display calls inside the run (app3.py:264, 269-270, 282, 290, 295-296, 308, 315, 319, 321) do not raise. One can. The keyless `log_container.text_area(…)` at app3.py:282 and app3.py:308 gets identical arguments at i = 20 of both passes when N ≥ 21 and rows 2..21 carry the same label in both passes, for example when every call raises the same message. Streamlit rejects a second keyless widget with identical parameters, and that error is an `Exception`. The handler at app3.py:376-380 then ends the run mid solution pass, and 1.0 is never reported. The model does not capture such a run.
- `Runner.RunState.constructor`: `st.progress(0)` at app3.py:182 creates the bar showing 0 before the first report. The progress trace records only the values reported at app3.py:268, 294 and 315. With that initial 0 included, row 0's report of 0 would repeat it. `Runner.ProgressIncreasing` is therefore about the reported values only.
- Exceptions outside `Exception` are not modelled. `except Exception` (app3.py:245, 376, 382) does not catch `BaseException` subclasses such as `KeyboardInterrupt` or Streamlit's stop and rerun signals. Such an interrupt ends a run mid-pass, with only some labels written. `Labels.Resolve` never raising and the completed-run contracts of `Runner.RunBatch` hold for runs that are not interrupted.
- `Counts.ValueCounts`: `value_counts()` returns a Series sorted by descending count, and the chart and table at app3.py:332-333 and 338-339 show it in that order. The map keeps the labels and their counts but not that order.
- Row labels other than 0..N-1 are not modelled: rows are positions, as `read_excel` produces them.
