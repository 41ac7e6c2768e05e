/**
  The batch scorer: checks that the uploaded table has the required
  columns, then scores every applicant row by classifying its five answers
  and summing the increments, producing one (email, total_score) row per
  applicant in input order.
 */
module BatchScorer {
  import opened Wrappers
  import opened Evaluator
  import opened Scoring

  /** The columns the table must have: the applicant's email, then the answers. */
  const REQUIRED_COLUMNS: seq<string> := ["email", "a", "b", "c", "d", "e"]

  /** The answer columns, visited in this order: every required column but the first. */
  const ANSWER_COLUMNS: seq<string> := ["a", "b", "c", "d", "e"]

  /** The answer columns are the required columns after the email. */
  lemma AnswerColumnsFollowEmail()
    ensures ANSWER_COLUMNS == REQUIRED_COLUMNS[1..]
    ensures REQUIRED_COLUMNS == ["email"] + ANSWER_COLUMNS
  {
  }

  /** One parsed row: the cell text under each column name. */
  type Row = map<string, string>

  /** An already parsed table: its column names and its rows, in file order. */
  datatype Table = Table(columns: seq<string>, rows: seq<Row>) {
    /** Every row holds a cell for every column, as a parsed data frame does. */
    predicate Valid()
    {
      forall i :: 0 <= i < |rows| ==> forall c :: c in columns ==> c in rows[i]
    }
  }

  /** One line of the result table. */
  datatype ScoreRow = ScoreRow(email: string, totalScore: nat)

  /**
    The result of a batch: rejected, naming the first required column the
    table lacks (the source reports it and returns no table), or the scored rows.
   */
  datatype Outcome = Rejected(missing: string) | Scored(results: seq<ScoreRow>)

  /** The per-cell progress notice: which answer was classified, and how. */
  datatype CellEvent = CellEvent(email: string, column: string, answer: string, verdict: Verdict)

  predicate HasColumns(row: Row, cols: seq<string>)
  {
    forall c :: c in cols ==> c in row
  }

  /** A row the scoring loop can read: it has the email and every answer column. */
  predicate Scorable(row: Row)
  {
    "email" in row && HasColumns(row, ANSWER_COLUMNS)
  }

  predicate AllScorable(rows: seq<Row>)
  {
    forall i :: 0 <= i < |rows| ==> Scorable(rows[i])
  }

  /** The first of `required`, in order, that is not among `columns`. */
  function FirstMissing(columns: seq<string>, required: seq<string>): (m: Option<string>)
    ensures m.None? <==> forall c :: c in required ==> c in columns
    ensures m.Some? ==> exists k :: 0 <= k < |required| && required[k] == m.value && m.value !in columns &&
                                    forall j :: 0 <= j < k ==> required[j] in columns
  {
    if required == [] then None
    else if required[0] !in columns then Some(required[0])
    else
      var m := FirstMissing(columns, required[1..]);
      assert forall c :: c in required ==> c == required[0] || c in required[1..];
      if m.Some? then
        var k :| 0 <= k < |required[1..]| && required[1..][k] == m.value && m.value !in columns &&
                 forall j :: 0 <= j < k ==> required[1..][j] in columns;
        assert required[k + 1] == m.value;
        m
      else m
  }

  /** The labels the evaluator gives the answers of `row` under `cols`, in that order. */
  function CellLabels(classify: Classifier, row: Row, cols: seq<string>): (ls: seq<string>)
    requires HasColumns(row, cols)
    ensures |ls| == |cols|
  {
    if cols == [] then []
    else CellLabels(classify, row, cols[..|cols| - 1]) + [EvaluateText(classify, row[cols[|cols| - 1]]).answerType]
  }

  /** Label `i` is the verdict on the answer under column `i`. */
  lemma {:induction false} CellLabelsAt(classify: Classifier, row: Row, cols: seq<string>, i: nat)
    requires HasColumns(row, cols) && i < |cols|
    ensures CellLabels(classify, row, cols)[i] == EvaluateText(classify, row[cols[i]]).answerType
  {
    if i < |cols| - 1 {
      CellLabelsAt(classify, row, cols[..|cols| - 1], i);
    }
  }

  /** The score of one applicant's answers under `cols`. */
  function RowScore(classify: Classifier, row: Row, cols: seq<string>): (s: nat)
    requires HasColumns(row, cols)
    ensures s <= 2 * |cols|
  {
    TotalScore(CellLabels(classify, row, cols))
  }

  /** The result rows for `rows`: each row's email with the score of its answers, appended in row order. */
  function ScoreRows(classify: Classifier, rows: seq<Row>): (rs: seq<ScoreRow>)
    requires AllScorable(rows)
    ensures |rs| == |rows|
  {
    if rows == [] then []
    else
      var last := rows[|rows| - 1];
      ScoreRows(classify, rows[..|rows| - 1]) + [ScoreRow(last["email"], RowScore(classify, last, ANSWER_COLUMNS))]
  }

  /** Result `i` belongs to row `i`. */
  lemma {:induction false} ScoreRowsAt(classify: Classifier, rows: seq<Row>, i: nat)
    requires AllScorable(rows) && i < |rows|
    ensures ScoreRows(classify, rows)[i] == ScoreRow(rows[i]["email"], RowScore(classify, rows[i], ANSWER_COLUMNS))
  {
    if i < |rows| - 1 {
      ScoreRowsAt(classify, rows[..|rows| - 1], i);
    }
  }

  /** The progress notices for one row, one per column of `cols`, in column order. */
  function RowTrace(classify: Classifier, row: Row, cols: seq<string>): (es: seq<CellEvent>)
    requires "email" in row && HasColumns(row, cols)
    ensures |es| == |cols|
  {
    if cols == [] then []
    else
      var c := cols[|cols| - 1];
      RowTrace(classify, row, cols[..|cols| - 1]) + [CellEvent(row["email"], c, row[c], EvaluateText(classify, row[c]))]
  }

  /** Notice `j` reports the answer under column `j` and its verdict. */
  lemma {:induction false} RowTraceAt(classify: Classifier, row: Row, cols: seq<string>, j: nat)
    requires "email" in row && HasColumns(row, cols) && j < |cols|
    ensures RowTrace(classify, row, cols)[j] ==
              CellEvent(row["email"], cols[j], row[cols[j]], EvaluateText(classify, row[cols[j]]))
  {
    if j < |cols| - 1 {
      RowTraceAt(classify, row, cols[..|cols| - 1], j);
    }
  }

  /** The progress notices for all rows, row after row. */
  function TableTrace(classify: Classifier, rows: seq<Row>): (es: seq<CellEvent>)
    requires AllScorable(rows)
    ensures |es| == 5 * |rows|
  {
    if rows == [] then []
    else TableTrace(classify, rows[..|rows| - 1]) + RowTrace(classify, rows[|rows| - 1], ANSWER_COLUMNS)
  }

  /** Once the required columns are known present, every row of a valid table has them. */
  lemma RequiredInRows(t: Table)
    requires t.Valid() && FirstMissing(t.columns, REQUIRED_COLUMNS).None?
    ensures AllScorable(t.rows)
  {
    AnswerColumnsFollowEmail();
    assert forall c :: c in ANSWER_COLUMNS ==> c in REQUIRED_COLUMNS;
  }

  /** What the batch produces for table `t`. */
  function ScoreTable(classify: Classifier, t: Table): (o: Outcome)
    requires t.Valid()
    ensures o.Rejected? <==> FirstMissing(t.columns, REQUIRED_COLUMNS).Some?
    ensures o.Rejected? ==> o.missing == FirstMissing(t.columns, REQUIRED_COLUMNS).value
    ensures o.Scored? ==> |o.results| == |t.rows|
  {
    match FirstMissing(t.columns, REQUIRED_COLUMNS)
    case Some(c) => Rejected(c)
    case None =>
      RequiredInRows(t);
      Scored(ScoreRows(classify, t.rows))
  }

  /** The progress notices the batch emits for table `t`: none when it is rejected. */
  function Trace(classify: Classifier, t: Table): (es: seq<CellEvent>)
    requires t.Valid()
    ensures ScoreTable(classify, t).Rejected? ==> es == []
    ensures ScoreTable(classify, t).Scored? ==> |es| == 5 * |t.rows|
  {
    match FirstMissing(t.columns, REQUIRED_COLUMNS)
    case Some(_) => []
    case None =>
      RequiredInRows(t);
      TableTrace(classify, t.rows)
  }

  /** Extending the visited answer columns by one adds that cell's increment and notice. */
  lemma CellStep(classify: Classifier, row: Row, cols: seq<string>, j: nat)
    requires "email" in row && HasColumns(row, cols) && j < |cols|
    ensures TotalScore(CellLabels(classify, row, cols[..j + 1])) ==
            TotalScore(CellLabels(classify, row, cols[..j])) +
            Increment(EvaluateText(classify, row[cols[j]]).answerType)
    ensures RowTrace(classify, row, cols[..j + 1]) ==
            RowTrace(classify, row, cols[..j]) +
            [CellEvent(row["email"], cols[j], row[cols[j]], EvaluateText(classify, row[cols[j]]))]
  {
    assert cols[..j + 1][..j] == cols[..j];
  }

  /** Extending the visited rows by one appends that row's result and its notices. */
  lemma RowStep(classify: Classifier, rows: seq<Row>, index: nat)
    requires AllScorable(rows) && index < |rows|
    ensures ScoreRows(classify, rows[..index + 1]) ==
            ScoreRows(classify, rows[..index]) +
            [ScoreRow(rows[index]["email"], RowScore(classify, rows[index], ANSWER_COLUMNS))]
    ensures TableTrace(classify, rows[..index + 1]) ==
            TableTrace(classify, rows[..index]) + RowTrace(classify, rows[index], ANSWER_COLUMNS)
  {
    assert rows[..index + 1][..index] == rows[..index];
  }

  /**
    Score one applicant: classify the answer under each of `cols` in order,
    accumulating the increments and emitting one notice per answer; a failed
    call counts 0 and the loop goes on with the next column.
   */
  method ScoreAnswers(classify: Classifier, row: Row, cols: seq<string>) returns (totalScore: nat, notices: seq<CellEvent>)
    requires "email" in row && HasColumns(row, cols)
    ensures totalScore == RowScore(classify, row, cols)
    ensures notices == RowTrace(classify, row, cols)
  {
    totalScore, notices := 0, [];
    var email := row["email"];
    for j := 0 to |cols|
      invariant totalScore == TotalScore(CellLabels(classify, row, cols[..j]))
      invariant notices == RowTrace(classify, row, cols[..j])
    {
      var col := cols[j];
      var answer := row[col];
      var verdict := EvaluateText(classify, answer);
      CellStep(classify, row, cols, j);
      notices := notices + [CellEvent(email, col, answer, verdict)];
      if verdict.answerType == "AI" {
        totalScore := totalScore + 2;
      } else if verdict.answerType == "Human" {
        totalScore := totalScore + 1;
      } else {
        totalScore := totalScore + 0;
      }
    }
    assert cols[..|cols|] == cols;
  }

  /**
    The schema check: look for each required column in turn and report the
    first one the table lacks, stopping there.
   */
  method FindMissingColumn(columns: seq<string>, required: seq<string>) returns (missing: Option<string>)
    ensures missing == FirstMissing(columns, required)
  {
    for k := 0 to |required|
      invariant FirstMissing(columns, required) == FirstMissing(columns, required[k..])
    {
      var col := required[k];
      if col !in columns {
        return Some(col);
      }
      assert required[k..][1..] == required[k + 1..];
    }
    assert required[|required|..] == [];
    return None;
  }

  /**
    The row loop: score every row in order, appending one result per row
    and that row's notices; no row can stop the loop.
   */
  method ScoreAllRows(classify: Classifier, rows: seq<Row>) returns (results: seq<ScoreRow>, trace: seq<CellEvent>)
    requires AllScorable(rows)
    ensures results == ScoreRows(classify, rows)
    ensures trace == TableTrace(classify, rows)
  {
    results, trace := [], [];
    for index := 0 to |rows|
      invariant results == ScoreRows(classify, rows[..index])
      invariant trace == TableTrace(classify, rows[..index])
    {
      var row := rows[index];
      var email := row["email"];
      var totalScore, notices := ScoreAnswers(classify, row, ANSWER_COLUMNS);
      trace := trace + notices;
      RowStep(classify, rows, index);
      results := results + [ScoreRow(email, totalScore)];
    }
    assert rows[..|rows|] == rows;
  }

  /**
    Score an uploaded table: reject it if a required column is missing;
    otherwise score every row in order, one result per row.
   */
  method ProcessCsv(classify: Classifier, t: Table) returns (outcome: Outcome, trace: seq<CellEvent>)
    requires t.Valid()
    ensures outcome == ScoreTable(classify, t)
    ensures trace == Trace(classify, t)
  {
    var missing := FindMissingColumn(t.columns, REQUIRED_COLUMNS);
    if missing.Some? {
      outcome, trace := Rejected(missing.value), [];
      return;
    }
    RequiredInRows(t);
    var results;
    results, trace := ScoreAllRows(classify, t.rows);
    outcome := Scored(results);
  }
}
