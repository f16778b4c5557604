/**
 * The batch runner of the classification button: two label columns are
 * added, a problem pass and then a solution pass classify every row in
 * order, each call's label is written into its row and logged, progress is
 * reported before each call, the rate-limit sleep follows every call but
 * the last of a pass, and frequency tables of both label columns are
 * computed at the end.
 */
module Runner {
  import opened Labels
  import opened Tables
  import Text
  import Counts

  /** The required input column, and the two label columns the run adds. */
  const Summary: string := "要約"
  const ProblemColumn: string := "課題分類"
  const SolutionColumn: string := "解決手段分類"

  /** `RATE_LIMIT_DELAY`: seconds slept between two calls of a pass. */
  const RateLimitDelay: real := 2.5

  /** How many of the latest log lines the log display shows. */
  const DisplayLines: nat := 20

  // ---------------------------------------------------------------------
  // Log lines

  function TargetLine(n: nat): string {
    "📊 処理対象: " + Text.Decimal(n) + "件"
  }

  function EstimateLine(n: nat): string {
    "⏱️ 推定処理時間: 約" + Text.Tenths(EstimatedTenths(n)) + "分"
  }

  function StartLine(kind: Kind): string {
    match kind
    case Problem => "🎯 課題分類を開始..."
    case Solution => "🔧 解決手段分類を開始..."
  }

  const DoneLine: string := "🎉 全ての処理が完了しました！"

  /** The line logged for row `i` (0-based) of a pass: its 1-based number and its label. */
  function ResultLine(i: nat, answer: string): string {
    "  " + Text.Decimal(i + 1) + ": " + answer
  }

  /**
   * The estimated run time `n * RATE_LIMIT_DELAY * 2 / 60` minutes, in
   * tenths as `{:.1f}` rounds it: whole minutes are n / 12, so the tenths
   * are 5n / 6 rounded to the nearest integer, ties to even (ties are
   * quarter minutes, which a binary float holds exactly).
   */
  function EstimatedTenths(n: nat): (t: nat)
    ensures -3 <= 6 * t - 5 * n <= 3
    ensures (6 * t - 5 * n == 3 || 6 * t - 5 * n == -3) ==> t % 2 == 0
  {
    var q, r := 5 * n / 6, 5 * n % 6;
    if r > 3 || (r == 3 && q % 2 == 1) then q + 1 else q
  }

  /** The printed estimate is within half a tenth of a minute of the exact one. */
  lemma EstimateIsClose(n: nat)
    ensures var exact := n as real * RateLimitDelay * 2.0 / 60.0;
      exact - 0.05 <= EstimatedTenths(n) as real / 10.0 <= exact + 0.05
  {
    var t := EstimatedTenths(n);
    assert -3.0 <= 6.0 * t as real - 5.0 * n as real <= 3.0;
  }

  /** A result line determines the row number and the label it was made from. */
  lemma ResultLineInjective(i: nat, a: string, j: nat, b: string)
    requires ResultLine(i, a) == ResultLine(j, b)
    ensures i == j && a == b
  {
    var di, dj := Text.Decimal(i + 1), Text.Decimal(j + 1);
    var x, y := ResultLine(i, a), ResultLine(j, b);
    assert x == "  " + di + ": " + a;
    assert y == "  " + dj + ": " + b;
    assert x[2..] == di + (": " + a);
    assert y[2..] == dj + (": " + b);
    Text.LeadingDigitsOf(di, ": " + a);
    Text.LeadingDigitsOf(dj, ": " + b);
    assert di == x[2..2 + |di|] == y[2..2 + |dj|] == dj;
    Text.DecimalInjective(i + 1, j + 1);
    assert a == x[4 + |di|..] == y[4 + |dj|..] == b;
  }

  // ---------------------------------------------------------------------
  // What a run is expected to do, as values

  /** The progress reported before row `i` of a pass over `n` rows. */
  function Fraction(kind: Kind, i: nat, n: nat): real
    requires i < n
  {
    match kind
    case Problem => (i as real / n as real) * 0.5
    case Solution => 0.5 + (i as real / n as real) * 0.5
  }

  function PassProgress(kind: Kind, n: nat): seq<real> {
    seq(n, i requires 0 <= i < n => Fraction(kind, i, n))
  }

  /** Every progress value of a run over `n` rows, the final 1.0 included. */
  function ExpectedProgress(n: nat): seq<real> {
    PassProgress(Problem, n) + PassProgress(Solution, n) + [1.0]
  }

  /** The calls of one pass: each row's summary, in row order. */
  function PassCalls(summaries: seq<string>, definition: string, kind: Kind): (calls: seq<Call>)
    ensures |calls| == |summaries|
  {
    seq(|summaries|, i requires 0 <= i < |summaries| => Call(summaries[i], definition, kind))
  }

  function ExpectedCalls(summaries: seq<string>, problemDef: string, solutionDef: string): seq<Call> {
    PassCalls(summaries, problemDef, Problem) + PassCalls(summaries, solutionDef, Solution)
  }

  /** `generate_classification` over a given model: the label stored for call number k. */
  function Adapter(model: (nat, Call) -> Response): (classify: (nat, Call) -> string)
    ensures forall k, c :: classify(k, c) == Resolve(model(k, c))
  {
    (k: nat, c: Call) => Resolve(model(k, c))
  }

  /**
   * The label each call of a trace produced, when the trace's first call
   * is call number `first` of the run (the model may answer differently
   * each time it is called).
   */
  function Answers(classify: (nat, Call) -> string, first: nat, calls: seq<Call>): (out: seq<string>)
    ensures |out| == |calls|
  {
    seq(|calls|, k requires 0 <= k < |calls| => classify(first + k, calls[k]))
  }

  function Numbered(answers: seq<string>): (lines: seq<string>)
    ensures |lines| == |answers|
  {
    seq(|answers|, i requires 0 <= i < |answers| => ResultLine(i, answers[i]))
  }

  /** The whole log of a run over `n` rows whose passes produced the labels `problem` and `solution`. */
  function ExpectedLog(n: nat, problem: seq<string>, solution: seq<string>): seq<string> {
    [TargetLine(n), EstimateLine(n), StartLine(Problem)] + Numbered(problem)
      + [StartLine(Solution)] + Numbered(solution) + [DoneLine]
  }

  /** `processing_logs[-20:]`: what the log display shows. */
  function Recent(log: seq<string>): (shown: seq<string>)
    ensures |shown| == if |log| < DisplayLines then |log| else DisplayLines
    ensures shown == log[|log| - |shown|..]
  {
    if |log| <= DisplayLines then log else log[|log| - DisplayLines..]
  }

  // ---------------------------------------------------------------------
  // Properties of the expected behaviour

  /** Progress stays in [0, 0.5) during the problem pass, in [0.5, 1) during the solution pass, and ends at 1.0. */
  lemma ProgressBounds(n: nat)
    ensures |ExpectedProgress(n)| == 2 * n + 1 && ExpectedProgress(n)[2 * n] == 1.0
    ensures forall k :: 0 <= k < n ==> 0.0 <= ExpectedProgress(n)[k] < 0.5
    ensures forall k :: n <= k < 2 * n ==> 0.5 <= ExpectedProgress(n)[k] < 1.0
  {
    var p := ExpectedProgress(n);
    forall k | 0 <= k < 2 * n
      ensures k < n ==> 0.0 <= p[k] < 0.5
      ensures n <= k ==> 0.5 <= p[k] < 1.0
    {
      var i := if k < n then k else k - n;
      FractionOfPass(i, n);
    }
  }

  lemma FractionOfPass(i: nat, n: nat)
    requires i < n
    ensures 0.0 <= i as real / n as real < 1.0
  {
  }

  lemma FractionIncreases(i: nat, j: nat, n: nat)
    requires i < j < n
    ensures i as real / n as real < j as real / n as real
  {
  }

  /** Every reported progress value is larger than the one before. */
  lemma ProgressIncreasing(n: nat)
    ensures forall a, b :: 0 <= a < b < |ExpectedProgress(n)| ==> ExpectedProgress(n)[a] < ExpectedProgress(n)[b]
  {
    var p := ExpectedProgress(n);
    ProgressBounds(n);
    forall a, b | 0 <= a < b < |p|
      ensures p[a] < p[b]
    {
      if b < n {
        FractionIncreases(a, b, n);
      } else if n <= a && b < 2 * n {
        FractionIncreases(a - n, b - n, n);
      }
    }
  }

  /** All problem calls come before all solution calls, each pass in row order. */
  lemma CallsInPassOrder(summaries: seq<string>, problemDef: string, solutionDef: string)
    ensures var calls, n := ExpectedCalls(summaries, problemDef, solutionDef), |summaries|;
      |calls| == 2 * n &&
      (forall i :: 0 <= i < n ==> calls[i] == Call(summaries[i], problemDef, Problem)) &&
      (forall i :: 0 <= i < n ==> calls[n + i] == Call(summaries[i], solutionDef, Solution)) &&
      (forall a, b :: 0 <= a < b < 2 * n && calls[a].kind == Solution ==> calls[b].kind == Solution)
  {
  }

  /** The log holds 2n + 5 lines: two headers, each pass's start line and one line per row, and the completion line. */
  lemma LogLayout(n: nat, problem: seq<string>, solution: seq<string>)
    requires |problem| == n && |solution| == n
    ensures var log := ExpectedLog(n, problem, solution);
      |log| == 2 * n + 5 &&
      log[0] == TargetLine(n) && log[1] == EstimateLine(n) &&
      log[2] == StartLine(Problem) && log[3 + n] == StartLine(Solution) && log[4 + 2 * n] == DoneLine &&
      (forall i :: 0 <= i < n ==> log[3 + i] == ResultLine(i, problem[i])) &&
      (forall i :: 0 <= i < n ==> log[4 + n + i] == ResultLine(i, solution[i]))
  {
  }

  // ---------------------------------------------------------------------
  // The run's mutable state

  /** The progress bar, the processing log, the sleeps and the trace of model calls of one run. */
  class RunState {
    var logs: seq<string>
    var progress: seq<real>
    var sleeps: nat
    var calls: seq<Call>

    constructor ()
      ensures logs == [] && progress == [] && sleeps == 0 && calls == []
    {
      logs, progress, sleeps, calls := [], [], 0, [];
    }

    /** `processing_logs.append(line)` */
    method Log(line: string)
      modifies this
      ensures logs == old(logs) + [line]
      ensures progress == old(progress) && sleeps == old(sleeps) && calls == old(calls)
    {
      logs := logs + [line];
    }

    /** `progress_bar.progress(p)` */
    method Report(p: real)
      modifies this
      ensures progress == old(progress) + [p]
      ensures logs == old(logs) && sleeps == old(sleeps) && calls == old(calls)
    {
      progress := progress + [p];
    }

    /** The end of the run: `progress_bar.progress(1.0)`, then the completion line. */
    method Finish()
      modifies this
      ensures progress == old(progress) + [1.0] && logs == old(logs) + [DoneLine]
      ensures sleeps == old(sleeps) && calls == old(calls)
    {
      progress := progress + [1.0];
      logs := logs + [DoneLine];
    }

    /** `time.sleep(RATE_LIMIT_DELAY)` */
    method Sleep()
      modifies this
      ensures sleeps == old(sleeps) + 1
      ensures logs == old(logs) && progress == old(progress) && calls == old(calls)
    {
      sleeps := sleeps + 1;
    }

    /**
     * `generate_classification(text, definition, kind)` as the |calls|-th
     * call of the run; `classify` is the adapter over the model (see
     * `Adapter`).
     */
    method Classify(classify: (nat, Call) -> string, c: Call) returns (answer: string)
      modifies this
      ensures calls == old(calls) + [c] && answer == classify(|old(calls)|, c)
      ensures logs == old(logs) && progress == old(progress) && sleeps == old(sleeps)
    {
      answer := classify(|calls|, c);
      calls := calls + [c];
    }
  }

  // ---------------------------------------------------------------------
  // The run

  /** One iteration of a pass: report progress, classify row `i`, store and log its label, sleep unless it is the last row. */
  method ClassifyRow(df: Table, st: RunState, i: nat, column: string, definition: string, kind: Kind,
                     classify: (nat, Call) -> string) returns (answer: string)
    requires df.Valid() && i < |df.rows| && Summary in df.columns && column in df.columns
    modifies df, st
    ensures df.Valid()
    ensures var c := Call(old(df.rows)[i][Summary], definition, kind);
      answer == classify(|old(st.calls)|, c) && st.calls == old(st.calls) + [c]
    ensures df.rows == old(df.rows)[i := old(df.rows)[i][column := answer]] && df.columns == old(df.columns)
    ensures st.logs == old(st.logs) + [ResultLine(i, answer)]
    ensures st.progress == old(st.progress) + [Fraction(kind, i, |old(df.rows)|)]
    ensures st.sleeps == old(st.sleeps) + if i < |old(df.rows)| - 1 then 1 else 0
  {
    var n := |df.rows|;
    st.Report(Fraction(kind, i, n));
    answer := st.Classify(classify, Call(df.rows[i][Summary], definition, kind));
    df.SetAt(i, column, answer);
    st.Log(ResultLine(i, answer));
    if i < n - 1 {
      st.Sleep();
    }
  }

  /**
   * The loop of one pass over rows whose calls and labels are `calls` and
   * `answers` (ghost: they name what the loop will do, for its contract).
   */
  method ClassifyRows(df: Table, st: RunState, column: string, definition: string, kind: Kind,
                      classify: (nat, Call) -> string, ghost calls: seq<Call>, ghost answers: seq<string>)
    requires df.Valid() && Summary in df.columns && column in df.columns && |calls| == |answers| == |df.rows|
    requires forall j :: 0 <= j < |calls| ==> calls[j] == Call(df.rows[j][Summary], definition, kind)
    requires forall j :: 0 <= j < |calls| ==> answers[j] == classify(|st.calls| + j, calls[j])
    modifies df, st
    ensures df.Valid()
    ensures df.rows == SetColumn(old(df.rows), column, answers) && df.columns == old(df.columns)
    ensures st.calls == old(st.calls) + calls
    ensures st.logs == old(st.logs) + Numbered(answers)
    ensures st.progress == old(st.progress) + PassProgress(kind, |calls|)
    ensures st.sleeps == old(st.sleeps) + if |calls| == 0 then 0 else |calls| - 1
  {
    var n := |df.rows|;
    ghost var before := df.rows;
    ghost var lines := Numbered(answers);
    ghost var fractions := PassProgress(kind, n);
    for i := 0 to n
      invariant df.Valid() && |df.rows| == n && df.columns == old(df.columns)
      invariant st.calls == old(st.calls) + calls[..i]
      invariant st.logs == old(st.logs) + lines[..i]
      invariant st.progress == old(st.progress) + fractions[..i]
      invariant st.sleeps == old(st.sleeps) + if i == n && n > 0 then n - 1 else i
      invariant forall j :: 0 <= j < i ==> df.rows[j] == before[j][column := answers[j]]
      invariant forall j :: i <= j < n ==> df.rows[j] == before[j]
    {
      var answer := ClassifyRow(df, st, i, column, definition, kind, classify);
      assert answer == answers[i];
    }
    assert df.rows == SetColumn(before, column, answers);
  }

  /** One pass: classify every row's summary in row order and store the label in `column`. */
  method ClassifyPass(df: Table, st: RunState, column: string, definition: string, kind: Kind,
                      classify: (nat, Call) -> string)
    requires df.Valid() && Summary in df.columns && column in df.columns && column != Summary
    modifies df, st
    ensures df.Valid() && df.columns == old(df.columns)
    ensures var calls := PassCalls(ColumnOf(old(df.rows), Summary), definition, kind);
      var answers := Answers(classify, |old(st.calls)|, calls);
      st.calls == old(st.calls) + calls &&
      df.rows == SetColumn(old(df.rows), column, answers) &&
      st.logs == old(st.logs) + Numbered(answers)
    ensures st.progress == old(st.progress) + PassProgress(kind, |old(df.rows)|)
    ensures st.sleeps == old(st.sleeps) + if |old(df.rows)| == 0 then 0 else |old(df.rows)| - 1
  {
    ghost var calls := PassCalls(ColumnOf(df.rows, Summary), definition, kind);
    ghost var answers := Answers(classify, |st.calls|, calls);
    ClassifyRows(df, st, column, definition, kind, classify, calls, answers);
  }

  /**
   * The labels one pass stores: the label of each row's summary under the
   * pass's definitions, the pass's first call being call number `first`
   * of the run.
   */
  function PassLabels(classify: (nat, Call) -> string, first: nat, summaries: seq<string>,
                      definition: string, kind: Kind): (labels: seq<string>)
    ensures |labels| == |summaries|
    ensures forall i :: 0 <= i < |summaries| ==>
      labels[i] == classify(first + i, Call(summaries[i], definition, kind))
  {
    Answers(classify, first, PassCalls(summaries, definition, kind))
  }

  /**
   * The traces a completed run leaves behind: the calls, the log, the
   * progress values and the sleeps of a run over `summaries` whose passes
   * stored the labels `problem` and `solution`.
   */
  ghost predicate Traced(st: RunState, summaries: seq<string>, problemDef: string, solutionDef: string,
                         problem: seq<string>, solution: seq<string>)
    reads st
  {
    var n := |summaries|;
    && st.calls == ExpectedCalls(summaries, problemDef, solutionDef)
    && st.logs == ExpectedLog(n, problem, solution)
    && st.progress == ExpectedProgress(n)
    && st.sleeps == (if n == 0 then 0 else 2 * (n - 1))
  }

  /**
   * What a completed run leaves in row i: the problem column holds the
   * label of the row's problem call (call i of the run), the solution
   * column the label of its solution call (call N + i), and every other
   * cell is as it was.
   */
  lemma {:induction false} RunCells(rows: seq<map<string, string>>, classify: (nat, Call) -> string,
                                    problemDef: string, solutionDef: string, i: nat)
    requires forall j :: 0 <= j < |rows| ==> Summary in rows[j]
    requires i < |rows|
    ensures var summaries := ColumnOf(rows, Summary);
      var after := SetColumn(SetColumn(rows, ProblemColumn, PassLabels(classify, 0, summaries, problemDef, Problem)),
                             SolutionColumn, PassLabels(classify, |rows|, summaries, solutionDef, Solution));
      after[i].Keys == rows[i].Keys + {ProblemColumn, SolutionColumn} &&
      after[i][ProblemColumn] == classify(i, Call(rows[i][Summary], problemDef, Problem)) &&
      after[i][SolutionColumn] == classify(|rows| + i, Call(rows[i][Summary], solutionDef, Solution)) &&
      forall c :: c in rows[i] && c != ProblemColumn && c != SolutionColumn ==> after[i][c] == rows[i][c]
  {
    var summaries := ColumnOf(rows, Summary);
    var problem := PassLabels(classify, 0, summaries, problemDef, Problem);
    var solution := PassLabels(classify, |rows|, summaries, solutionDef, Solution);
    var middle := SetColumn(rows, ProblemColumn, problem);
    assert middle[i] == rows[i][ProblemColumn := problem[i]];
    assert SetColumn(middle, SolutionColumn, solution)[i] == middle[i][SolutionColumn := solution[i]];
  }

  /** After both label columns are written, each reads back as the labels written into it. */
  lemma LabelColumns(rows: seq<map<string, string>>, problem: seq<string>, solution: seq<string>)
    requires |problem| == |rows| && |solution| == |rows|
    ensures var after := SetColumn(SetColumn(rows, ProblemColumn, problem), SolutionColumn, solution);
      ColumnOf(after, ProblemColumn) == problem && ColumnOf(after, SolutionColumn) == solution
  {
    ReadWritten(rows, ProblemColumn, problem);
    ReadOther(SetColumn(rows, ProblemColumn, problem), SolutionColumn, solution, ProblemColumn);
    ReadWritten(SetColumn(rows, ProblemColumn, problem), SolutionColumn, solution);
  }

  /** The start of the run: the two header lines, then `df['課題分類'] = ""` and `df['解決手段分類'] = ""`. */
  method Prepare(df: Table) returns (st: RunState)
    requires df.Valid() && Summary in df.columns
    modifies df
    ensures fresh(st) && df.Valid()
    ensures df.columns == WithColumn(WithColumn(old(df.columns), ProblemColumn), SolutionColumn)
    ensures df.rows == Fill(Fill(old(df.rows), ProblemColumn, ""), SolutionColumn, "")
    ensures ColumnOf(df.rows, Summary) == ColumnOf(old(df.rows), Summary)
    ensures st.logs == [TargetLine(|df.rows|), EstimateLine(|df.rows|)]
    ensures st.calls == [] && st.progress == [] && st.sleeps == 0
  {
    var n := |df.rows|;
    st := new RunState();
    st.Log(TargetLine(n));
    st.Log(EstimateLine(n));
    df.AssignColumn(ProblemColumn, "");
    df.AssignColumn(SolutionColumn, "");
    ReadOther(Fill(old(df.rows), ProblemColumn, ""), SolutionColumn, seq(n, _ => ""), Summary);
    ReadOther(old(df.rows), ProblemColumn, seq(n, _ => ""), Summary);
  }

  /** The two passes, each announced by its start line. */
  method Passes(df: Table, st: RunState, problemDef: string, solutionDef: string,
                classify: (nat, Call) -> string)
    requires df.Valid() && Summary in df.columns && ProblemColumn in df.columns && SolutionColumn in df.columns
    modifies df, st
    ensures df.Valid() && df.columns == old(df.columns)
    ensures var n := |old(df.rows)|;
      var summaries := ColumnOf(old(df.rows), Summary);
      var a1 := Answers(classify, |old(st.calls)|, PassCalls(summaries, problemDef, Problem));
      var a2 := Answers(classify, |old(st.calls)| + n, PassCalls(summaries, solutionDef, Solution));
      df.rows == SetColumn(SetColumn(old(df.rows), ProblemColumn, a1), SolutionColumn, a2) &&
      st.calls == old(st.calls) + PassCalls(summaries, problemDef, Problem) + PassCalls(summaries, solutionDef, Solution) &&
      st.logs == old(st.logs) + [StartLine(Problem)] + Numbered(a1) + [StartLine(Solution)] + Numbered(a2)
    ensures st.progress == old(st.progress) + PassProgress(Problem, |old(df.rows)|) + PassProgress(Solution, |old(df.rows)|)
    ensures st.sleeps == old(st.sleeps) + if |old(df.rows)| == 0 then 0 else 2 * (|old(df.rows)| - 1)
  {
    ghost var start := df.rows;
    st.Log(StartLine(Problem));
    ClassifyPass(df, st, ProblemColumn, problemDef, Problem, classify);
    ReadOther(start, ProblemColumn, Answers(classify, |old(st.calls)|,
      PassCalls(ColumnOf(start, Summary), problemDef, Problem)), Summary);
    st.Log(StartLine(Solution));
    ClassifyPass(df, st, SolutionColumn, solutionDef, Solution, classify);
  }

  /**
   * The body of the classification button once the inputs are in place
   * (from the estimate to the frequency tables). `problem` and `solution`
   * (ghost) are the labels the two passes stored.
   */
  method RunBatch(df: Table, problemDef: string, solutionDef: string, classify: (nat, Call) -> string)
      returns (st: RunState, problemCounts: map<string, nat>, solutionCounts: map<string, nat>,
               ghost problem: seq<string>, ghost solution: seq<string>)
    requires df.Valid() && Summary in df.columns
    modifies df
    ensures fresh(st)
    ensures problem == PassLabels(classify, 0, ColumnOf(old(df.rows), Summary), problemDef, Problem)
    ensures solution == PassLabels(classify, |old(df.rows)|, ColumnOf(old(df.rows), Summary), solutionDef, Solution)
    ensures df.Valid() && df.columns == WithColumn(WithColumn(old(df.columns), ProblemColumn), SolutionColumn)
    ensures df.rows == SetColumn(SetColumn(old(df.rows), ProblemColumn, problem), SolutionColumn, solution)
    ensures Traced(st, ColumnOf(old(df.rows), Summary), problemDef, solutionDef, problem, solution)
    ensures problemCounts == Counts.ValueCounts(problem) && solutionCounts == Counts.ValueCounts(solution)
  {
    var n := |df.rows|;
    ghost var start := df.rows;
    ghost var summaries := ColumnOf(start, Summary);
    problem := PassLabels(classify, 0, summaries, problemDef, Problem);
    solution := PassLabels(classify, n, summaries, solutionDef, Solution);
    FilledThenWritten(start, ProblemColumn, SolutionColumn, "", "", problem, solution);

    st := Prepare(df);
    problemCounts, solutionCounts := Classification(df, st, problemDef, solutionDef, classify, problem, solution);
    Regrouped(n, summaries, problemDef, solutionDef, problem, solution, st.calls, st.logs, st.progress);
  }

  /** Regrouping helper: the traces as the run builds them, piece by piece, are the expected ones. */
  lemma Regrouped(n: nat, summaries: seq<string>, problemDef: string, solutionDef: string,
                  problem: seq<string>, solution: seq<string>, calls: seq<Call>, logs: seq<string>, progress: seq<real>)
    requires calls == [] + PassCalls(summaries, problemDef, Problem) + PassCalls(summaries, solutionDef, Solution)
    requires logs == [TargetLine(n), EstimateLine(n)] + [StartLine(Problem)] + Numbered(problem)
      + [StartLine(Solution)] + Numbered(solution) + [DoneLine]
    requires progress == [] + PassProgress(Problem, n) + PassProgress(Solution, n) + [1.0]
    ensures calls == ExpectedCalls(summaries, problemDef, solutionDef)
    ensures logs == ExpectedLog(n, problem, solution)
    ensures progress == ExpectedProgress(n)
  {
    assert [TargetLine(n), EstimateLine(n)] + [StartLine(Problem)]
      == [TargetLine(n), EstimateLine(n), StartLine(Problem)];
    assert [] + PassCalls(summaries, problemDef, Problem) == PassCalls(summaries, problemDef, Problem);
    assert [] + PassProgress(Problem, n) == PassProgress(Problem, n);
  }

  /** What became of an uploaded table. */
  datatype Status = Classified | MissingSummaryColumn

  /**
   * The uploaded-file branch: a table without the `要約` column is
   * reported as an error and nothing else happens (no label column, no
   * model call, no log line); otherwise the run goes ahead, each call
   * answered by `generate_classification` over `model`.
   */
  method OnUpload(df: Table, problemDef: string, solutionDef: string, model: (nat, Call) -> Response)
      returns (status: Status, st: RunState, problemCounts: map<string, nat>, solutionCounts: map<string, nat>,
               ghost problem: seq<string>, ghost solution: seq<string>)
    requires df.Valid()
    modifies df
    ensures fresh(st)
    ensures status == MissingSummaryColumn <==> Summary !in old(df.columns)
    ensures status == MissingSummaryColumn ==>
      df.columns == old(df.columns) && df.rows == old(df.rows) &&
      st.calls == [] && st.logs == [] && st.progress == [] && st.sleeps == 0
    ensures status == Classified ==>
      && Summary in old(df.columns)
      && problem == PassLabels(Adapter(model), 0, ColumnOf(old(df.rows), Summary), problemDef, Problem)
      && solution == PassLabels(Adapter(model), |old(df.rows)|, ColumnOf(old(df.rows), Summary), solutionDef, Solution)
      && df.Valid() && df.columns == WithColumn(WithColumn(old(df.columns), ProblemColumn), SolutionColumn)
      && df.rows == SetColumn(SetColumn(old(df.rows), ProblemColumn, problem), SolutionColumn, solution)
      && Traced(st, ColumnOf(old(df.rows), Summary), problemDef, solutionDef, problem, solution)
      && problemCounts == Counts.ValueCounts(problem) && solutionCounts == Counts.ValueCounts(solution)
  {
    if Summary !in df.columns {
      status := MissingSummaryColumn;
      st := new RunState();
      problemCounts, solutionCounts := map[], map[];
      problem, solution := [], [];
    } else {
      status := Classified;
      st, problemCounts, solutionCounts, problem, solution := RunBatch(df, problemDef, solutionDef, Adapter(model));
    }
  }

  /**
   * Both passes and the end of the run, on the table with its label
   * columns in place; `problem` and `solution` (ghost) name the labels the
   * two passes will produce.
   */
  method Classification(df: Table, st: RunState, problemDef: string, solutionDef: string,
                        classify: (nat, Call) -> string, ghost problem: seq<string>, ghost solution: seq<string>)
      returns (problemCounts: map<string, nat>, solutionCounts: map<string, nat>)
    requires df.Valid() && Summary in df.columns && ProblemColumn in df.columns && SolutionColumn in df.columns
    requires problem == PassLabels(classify, |st.calls|, ColumnOf(df.rows, Summary), problemDef, Problem)
    requires solution == PassLabels(classify, |st.calls| + |df.rows|, ColumnOf(df.rows, Summary), solutionDef, Solution)
    modifies df, st
    ensures df.Valid() && df.columns == old(df.columns)
    ensures df.rows == SetColumn(SetColumn(old(df.rows), ProblemColumn, problem), SolutionColumn, solution)
    ensures st.calls == old(st.calls) + PassCalls(ColumnOf(old(df.rows), Summary), problemDef, Problem)
      + PassCalls(ColumnOf(old(df.rows), Summary), solutionDef, Solution)
    ensures st.logs == old(st.logs) + [StartLine(Problem)] + Numbered(problem) + [StartLine(Solution)] + Numbered(solution)
      + [DoneLine]
    ensures problemCounts == Counts.ValueCounts(problem) && solutionCounts == Counts.ValueCounts(solution)
    ensures st.progress == old(st.progress) + PassProgress(Problem, |old(df.rows)|)
      + PassProgress(Solution, |old(df.rows)|) + [1.0]
    ensures st.sleeps == old(st.sleeps) + if |old(df.rows)| == 0 then 0 else 2 * (|old(df.rows)| - 1)
  {
    ghost var blank, logs := df.rows, st.logs;
    LabelColumns(blank, problem, solution);
    Passes(df, st, problemDef, solutionDef, classify);
    assert df.rows == SetColumn(SetColumn(blank, ProblemColumn, problem), SolutionColumn, solution);
    assert st.logs == logs + [StartLine(Problem)] + Numbered(problem) + [StartLine(Solution)] + Numbered(solution);
    ghost var passLogs := st.logs;
    problemCounts, solutionCounts := Conclude(df, st);
    assert st.logs == passLogs + [DoneLine];
  }

  /** The end of the run: progress 1.0, the completion line, and `value_counts()` of both label columns. */
  method Conclude(df: Table, st: RunState) returns (problemCounts: map<string, nat>, solutionCounts: map<string, nat>)
    requires df.Valid() && ProblemColumn in df.columns && SolutionColumn in df.columns
    modifies st
    ensures st.progress == old(st.progress) + [1.0] && st.logs == old(st.logs) + [DoneLine]
    ensures st.calls == old(st.calls) && st.sleeps == old(st.sleeps)
    ensures problemCounts == Counts.ValueCounts(ColumnOf(df.rows, ProblemColumn))
    ensures solutionCounts == Counts.ValueCounts(ColumnOf(df.rows, SolutionColumn))
  {
    st.Finish();
    problemCounts := Counts.ValueCounts(ColumnOf(df.rows, ProblemColumn));
    solutionCounts := Counts.ValueCounts(ColumnOf(df.rows, SolutionColumn));
  }
}
