/**
 * Whole runs on small concrete tables: a model that always gives the same
 * category, a model whose call fails on one record, a table without the
 * required column, and the number of rate-limit sleeps for one and five
 * rows.
 */
module Scenarios {
  import opened Labels
  import opened Tables
  import opened Runner
  import Counts

  /** Three uploaded rows with nothing but a `要約` cell. */
  function Abstracts(): (rows: seq<map<string, string>>)
    ensures forall i :: 0 <= i < |rows| ==> rows[i].Keys == {Summary}
  {
    [map[Summary := "motor cooling issue"], map[Summary := "filter clogging"], map[Summary := "handle ergonomics"]]
  }

  const ProblemDefs: string := "[Cooling] 課題: heat, [Usability] 課題: handling"
  const SolutionDefs: string := "[Mechanical Redesign] 解決手段: change of parts"

  /** A model that answers the first category of the pass, with whitespace around it. */
  function SameAnswer(k: nat, c: Call): Response {
    if c.kind == Problem then Text(" Cooling\n") else Text("[Mechanical Redesign]")
  }

  /** A model whose call fails for the second record and answers bare category names otherwise. */
  function FailsOnSecond(k: nat, c: Call): Response {
    if c.text == "filter clogging" then Raised("429 quota exceeded")
    else if c.kind == Problem then Text("Cooling") else Text("Mechanical Redesign")
  }

  /** Whitespace around the answer is trimmed away. */
  lemma PaddedAnswer()
    ensures Resolve(Text(" Cooling\n")) == "Cooling"
  {
    assert " Cooling\n" == " " + "Cooling" + "\n";
    StripOfPadded(" ", "Cooling", "\n");
  }

  /** One pair of brackets around the answer is removed. */
  lemma BracketedAnswer()
    ensures Resolve(Text("[Mechanical Redesign]")) == "Mechanical Redesign"
  {
    NormaliseUnwrapsOnce("Mechanical Redesign");
    assert "[Mechanical Redesign]" == "[" + "Mechanical Redesign" + "]";
  }

  /** The label `generate_classification` stores for one call under `SameAnswer`. */
  lemma SameAnswerAt(k: nat, c: Call)
    ensures Adapter(SameAnswer)(k, c) == if c.kind == Problem then "Cooling" else "Mechanical Redesign"
  {
    PaddedAnswer();
    BracketedAnswer();
  }

  /** The labels the problem pass produces over the three abstracts with `SameAnswer`. */
  lemma SameAnswerProblems()
    ensures PassLabels(Adapter(SameAnswer), 0, ColumnOf(Abstracts(), Summary), ProblemDefs, Problem)
      == ["Cooling", "Cooling", "Cooling"]
  {
    AbstractSummaries();
    var summaries := ["motor cooling issue", "filter clogging", "handle ergonomics"];
    SameAnswerAt(0, Call(summaries[0], ProblemDefs, Problem));
    SameAnswerAt(1, Call(summaries[1], ProblemDefs, Problem));
    SameAnswerAt(2, Call(summaries[2], ProblemDefs, Problem));
  }

  /** The labels the solution pass produces over the three abstracts with `SameAnswer`. */
  lemma SameAnswerSolutions()
    ensures PassLabels(Adapter(SameAnswer), 3, ColumnOf(Abstracts(), Summary), SolutionDefs, Solution)
      == ["Mechanical Redesign", "Mechanical Redesign", "Mechanical Redesign"]
  {
    AbstractSummaries();
    var summaries := ["motor cooling issue", "filter clogging", "handle ergonomics"];
    SameAnswerAt(3, Call(summaries[0], SolutionDefs, Solution));
    SameAnswerAt(4, Call(summaries[1], SolutionDefs, Solution));
    SameAnswerAt(5, Call(summaries[2], SolutionDefs, Solution));
  }

  /** The `要約` column of the three rows. */
  lemma AbstractSummaries()
    ensures ColumnOf(Abstracts(), Summary) == ["motor cooling issue", "filter clogging", "handle ergonomics"]
  {
  }

  /** The label `generate_classification` stores for one call under `FailsOnSecond`. */
  lemma FailsOnSecondAt(k: nat, c: Call)
    ensures Adapter(FailsOnSecond)(k, c)
      == if c.text == "filter clogging" then ErrorPrefix + "429 quota exceeded"
         else if c.kind == Problem then "Cooling" else "Mechanical Redesign"
  {
    NormaliseKeepsBare("Cooling");
    NormaliseKeepsBare("Mechanical Redesign");
  }

  /** The labels the problem pass produces over the three abstracts with `FailsOnSecond`. */
  lemma FailsOnSecondProblems()
    ensures PassLabels(Adapter(FailsOnSecond), 0, ColumnOf(Abstracts(), Summary), ProblemDefs, Problem)
      == ["Cooling", ErrorPrefix + "429 quota exceeded", "Cooling"]
  {
    AbstractSummaries();
    var summaries := ["motor cooling issue", "filter clogging", "handle ergonomics"];
    FailsOnSecondAt(0, Call(summaries[0], ProblemDefs, Problem));
    FailsOnSecondAt(1, Call(summaries[1], ProblemDefs, Problem));
    FailsOnSecondAt(2, Call(summaries[2], ProblemDefs, Problem));
    assert summaries[0] != "filter clogging" && summaries[2] != "filter clogging";
  }

  /** The labels the solution pass produces over the three abstracts with `FailsOnSecond`. */
  lemma FailsOnSecondSolutions()
    ensures PassLabels(Adapter(FailsOnSecond), 3, ColumnOf(Abstracts(), Summary), SolutionDefs, Solution)
      == ["Mechanical Redesign", ErrorPrefix + "429 quota exceeded", "Mechanical Redesign"]
  {
    AbstractSummaries();
    var summaries := ["motor cooling issue", "filter clogging", "handle ergonomics"];
    FailsOnSecondAt(3, Call(summaries[0], SolutionDefs, Solution));
    FailsOnSecondAt(4, Call(summaries[1], SolutionDefs, Solution));
    FailsOnSecondAt(5, Call(summaries[2], SolutionDefs, Solution));
    assert summaries[0] != "filter clogging" && summaries[2] != "filter clogging";
  }

  lemma CountThree(x: string)
    ensures Counts.ValueCounts([x, x, x]) == map[x := 3]
  {
    assert [x, x, x][..2] == [x, x] && [x, x][..1] == [x] && [x][..0] == [];
  }

  lemma CountTwoAndOne(x: string, y: string)
    requires x != y
    ensures Counts.ValueCounts([x, y, x]) == map[x := 2, y := 1]
  {
    assert [x][..0] == [];
    assert Counts.ValueCounts([x]) == map[x := 1];
    assert [x, y][..1] == [x];
    assert Counts.ValueCounts([x, y]) == map[x := 1, y := 1];
    assert [x, y, x][..2] == [x, y];
  }

  lemma FailedCounts()
    ensures var marker := ErrorPrefix + "429 quota exceeded";
      Counts.ValueCounts(["Cooling", marker, "Cooling"]) == map["Cooling" := 2, marker := 1]
  {
    var marker := ErrorPrefix + "429 quota exceeded";
    assert marker[0] == '分';
    CountTwoAndOne("Cooling", marker);
  }

  lemma SummaryOnly(rows: seq<map<string, string>>)
    requires forall i :: 0 <= i < |rows| ==> rows[i].Keys == {Summary}
    ensures Shaped([Summary], rows)
  {
    forall i, c | 0 <= i < |rows| ensures c in rows[i] <==> c in [Summary] {
      assert c in rows[i] <==> c in rows[i].Keys;
    }
  }

  /**
   * Uploads a table whose only column is `要約` and runs the
   * classification with `model`: what the run leaves behind, read back.
   */
  method RunOn(rows: seq<map<string, string>>, model: (nat, Call) -> Response)
      returns (status: Status, problem: seq<string>, solution: seq<string>,
               problemCounts: map<string, nat>, solutionCounts: map<string, nat>, logSize: nat, sleeps: nat, calls: nat)
    requires forall i :: 0 <= i < |rows| ==> rows[i].Keys == {Summary}
    ensures status == Classified
    ensures problem == PassLabels(Adapter(model), 0, ColumnOf(rows, Summary), ProblemDefs, Problem)
    ensures solution == PassLabels(Adapter(model), |rows|, ColumnOf(rows, Summary), SolutionDefs, Solution)
    ensures problemCounts == Counts.ValueCounts(problem) && solutionCounts == Counts.ValueCounts(solution)
    ensures logSize == 2 * |rows| + 5 && calls == 2 * |rows|
    ensures sleeps == if rows == [] then 0 else 2 * |rows| - 2
  {
    SummaryOnly(rows);
    var df := new Table([Summary], rows);
    var st;
    ghost var p, s;
    status, st, problemCounts, solutionCounts, p, s := OnUpload(df, ProblemDefs, SolutionDefs, model);
    LabelColumns(rows, p, s);
    problem := df.Column(ProblemColumn);
    solution := df.Column(SolutionColumn);
    logSize, sleeps, calls := |st.logs|, st.sleeps, |st.calls|;
  }

  /** Every record gets `Cooling` and `Mechanical Redesign`; each frequency table has one bucket of 3. */
  method SameCategoryRun() returns (problemCounts: map<string, nat>, solutionCounts: map<string, nat>,
                                    problem: seq<string>, solution: seq<string>, logSize: nat, sleeps: nat)
    ensures problem == ["Cooling", "Cooling", "Cooling"]
    ensures solution == ["Mechanical Redesign", "Mechanical Redesign", "Mechanical Redesign"]
    ensures problemCounts == map["Cooling" := 3] && solutionCounts == map["Mechanical Redesign" := 3]
    ensures logSize == 11 && sleeps == 4
  {
    var status, calls;
    status, problem, solution, problemCounts, solutionCounts, logSize, sleeps, calls := RunOn(Abstracts(), SameAnswer);
    SameAnswerProblems();
    SameAnswerSolutions();
    CountThree("Cooling");
    CountThree("Mechanical Redesign");
  }

  /** A failed call is stored as an error marker for that record alone, and counted as its own bucket. */
  method FailedCallRun() returns (problemCounts: map<string, nat>, problem: seq<string>, solution: seq<string>)
    ensures var marker := ErrorPrefix + "429 quota exceeded";
      problem == ["Cooling", marker, "Cooling"] &&
      solution == ["Mechanical Redesign", marker, "Mechanical Redesign"] &&
      problemCounts == map["Cooling" := 2, marker := 1]
  {
    var status, solutionCounts, logSize, sleeps, calls;
    status, problem, solution, problemCounts, solutionCounts, logSize, sleeps, calls := RunOn(Abstracts(), FailsOnSecond);
    FailsOnSecondProblems();
    FailsOnSecondSolutions();
    FailedCounts();
  }

  /** Without a `要約` column nothing is classified, logged or added. */
  method MissingColumnRun() returns (status: Status, calls: nat, columns: seq<string>)
    ensures status == MissingSummaryColumn && calls == 0 && columns == ["abstract"]
  {
    var df := new Table(["abstract"], [map["abstract" := "motor cooling issue"]]);
    var st, p, s;
    ghost var problem, solution;
    status, st, p, s, problem, solution := OnUpload(df, ProblemDefs, SolutionDefs, SameAnswer);
    calls, columns := |st.calls|, df.columns;
  }

  /** One row: no sleep at all; five rows: eight sleeps, four in each pass. */
  method SleepsForOneAndFive() returns (one: nat, five: nat)
    ensures one == 0 && five == 8
  {
    var status, problem, solution, problemCounts, solutionCounts, logSize, calls;
    status, problem, solution, problemCounts, solutionCounts, logSize, one, calls :=
      RunOn([map[Summary := "motor cooling issue"]], SameAnswer);
    status, problem, solution, problemCounts, solutionCounts, logSize, five, calls :=
      RunOn(seq(5, _ => map[Summary := "motor cooling issue"]), SameAnswer);
  }
}
