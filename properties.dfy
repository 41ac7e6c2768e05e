/**
  What the batch scorer promises, stated over its specification
  (`ScoreTable`, `Trace`), which `ProcessCsv` is proved to compute.
 */
module ScorerProperties {
  import opened Wrappers
  import opened Evaluator
  import opened Scoring
  import opened BatchScorer

  /** The label the evaluator gives the answer of `row` under column `c`. */
  function LabelOf(classify: Classifier, row: Row, c: string): string
    requires c in row
  {
    EvaluateText(classify, row[c]).answerType
  }

  /**
    A batch is rejected exactly when some required column is absent (exact
    name membership); the column reported is the first absent one in the
    order email, a, b, c, d, e; and no cell is classified.
   */
  lemma SchemaRejection(classify: Classifier, t: Table)
    requires t.Valid()
    ensures ScoreTable(classify, t).Rejected? <==> exists c :: c in REQUIRED_COLUMNS && c !in t.columns
    ensures ScoreTable(classify, t).Rejected? ==>
              var m := ScoreTable(classify, t).missing;
              Trace(classify, t) == [] &&
              exists k :: 0 <= k < |REQUIRED_COLUMNS| && REQUIRED_COLUMNS[k] == m && m !in t.columns &&
                          forall j :: 0 <= j < k ==> REQUIRED_COLUMNS[j] in t.columns
  {
    var fm := FirstMissing(t.columns, REQUIRED_COLUMNS);
    if fm.Some? {
      assert ScoreTable(classify, t) == Rejected(fm.value);
    }
  }

  /** A table lacking only column d is rejected, naming d. */
  lemma MissingOnlyD(classify: Classifier, t: Table)
    requires t.Valid() && "d" !in t.columns
    requires forall c :: c in REQUIRED_COLUMNS && c != "d" ==> c in t.columns
    ensures ScoreTable(classify, t) == Rejected("d")
    ensures Trace(classify, t) == []
  {
    assert "d" in REQUIRED_COLUMNS;
    SchemaRejection(classify, t);
  }

  /**
    With every required column present the batch succeeds with one result
    per input row, in input order: result `i` carries row `i`'s email and the
    score of row `i`'s answers.
   */
  lemma RowsPreserved(classify: Classifier, t: Table)
    requires t.Valid() && forall c :: c in REQUIRED_COLUMNS ==> c in t.columns
    ensures ScoreTable(classify, t).Scored?
    ensures |ScoreTable(classify, t).results| == |t.rows|
    ensures forall i :: 0 <= i < |t.rows| ==>
              Scorable(t.rows[i]) &&
              ScoreTable(classify, t).results[i] == ScoreRow(t.rows[i]["email"], RowScore(classify, t.rows[i], ANSWER_COLUMNS))
  {
    assert FirstMissing(t.columns, REQUIRED_COLUMNS).None?;
    RequiredInRows(t);
    forall i | 0 <= i < |t.rows|
      ensures ScoreTable(classify, t).results[i] == ScoreRow(t.rows[i]["email"], RowScore(classify, t.rows[i], ANSWER_COLUMNS))
    {
      ScoreRowsAt(classify, t.rows, i);
    }
  }

  /** A total over the five answer columns is the sum of their five increments. */
  lemma RowScoreIsColumnSum(classify: Classifier, row: Row)
    requires HasColumns(row, ANSWER_COLUMNS)
    ensures RowScore(classify, row, ANSWER_COLUMNS) ==
              Increment(LabelOf(classify, row, "a")) + Increment(LabelOf(classify, row, "b")) +
              Increment(LabelOf(classify, row, "c")) + Increment(LabelOf(classify, row, "d")) +
              Increment(LabelOf(classify, row, "e"))
  {
    var ls := CellLabels(classify, row, ANSWER_COLUMNS);
    CellLabelsAt(classify, row, ANSWER_COLUMNS, 0);
    CellLabelsAt(classify, row, ANSWER_COLUMNS, 1);
    CellLabelsAt(classify, row, ANSWER_COLUMNS, 2);
    CellLabelsAt(classify, row, ANSWER_COLUMNS, 3);
    CellLabelsAt(classify, row, ANSWER_COLUMNS, 4);
    TotalScoreOfFive(ls);
  }

  /**
    Each applicant's total_score is the sum over columns a..e of the
    increments of the labels its answers received, and lies in 0..10.
   */
  lemma ScoresAreColumnSums(classify: Classifier, t: Table)
    requires t.Valid() && forall c :: c in REQUIRED_COLUMNS ==> c in t.columns
    ensures ScoreTable(classify, t).Scored?
    ensures forall i :: 0 <= i < |t.rows| ==>
              i < |ScoreTable(classify, t).results| &&
              ScoreTable(classify, t).results[i].totalScore ==
                Increment(LabelOf(classify, t.rows[i], "a")) + Increment(LabelOf(classify, t.rows[i], "b")) +
                Increment(LabelOf(classify, t.rows[i], "c")) + Increment(LabelOf(classify, t.rows[i], "d")) +
                Increment(LabelOf(classify, t.rows[i], "e")) &&
              ScoreTable(classify, t).results[i].totalScore <= 10
  {
    RowsPreserved(classify, t);
    forall i | 0 <= i < |t.rows|
      ensures RowScore(classify, t.rows[i], ANSWER_COLUMNS) ==
                Increment(LabelOf(classify, t.rows[i], "a")) + Increment(LabelOf(classify, t.rows[i], "b")) +
                Increment(LabelOf(classify, t.rows[i], "c")) + Increment(LabelOf(classify, t.rows[i], "d")) +
                Increment(LabelOf(classify, t.rows[i], "e"))
    {
      RowScoreIsColumnSum(classify, t.rows[i]);
    }
  }

  /** Classifying a concatenation of column lists concatenates the labels. */
  lemma {:induction false} CellLabelsConcat(classify: Classifier, row: Row, p: seq<string>, q: seq<string>)
    requires HasColumns(row, p) && HasColumns(row, q)
    ensures HasColumns(row, p + q)
    ensures CellLabels(classify, row, p + q) == CellLabels(classify, row, p) + CellLabels(classify, row, q)
  {
    if q != [] {
      var init := q[..|q| - 1];
      assert (p + q)[..|p + q| - 1] == p + init;
      CellLabelsConcat(classify, row, p, init);
    } else {
      assert p + q == p;
    }
  }

  /** A rearrangement of columns that a row has are columns it has. */
  lemma HasColumnsPermutation(row: Row, p: seq<string>, q: seq<string>)
    requires HasColumns(row, p) && multiset(p) == multiset(q)
    ensures HasColumns(row, q)
  {
    forall c | c in q ensures c in row {
      assert c in multiset(q);
    }
  }

  /** Removing the element at `k` removes one occurrence of it from the multiset. */
  lemma MultisetWithout(q: seq<string>, k: nat)
    requires k < |q|
    ensures multiset(q[..k] + q[k + 1..]) == multiset(q) - multiset{q[k]}
  {
    assert q == q[..k] + [q[k]] + q[k + 1..];
  }

  /** Dropping the middle of three pieces removes exactly its elements from the multiset. */
  lemma MultisetDropMiddle(a: seq<string>, b: seq<string>, c: seq<string>)
    ensures multiset(a + b + c) == multiset(a + c) + multiset(b)
  {
  }

  /** The labels of a single column are that column's label. */
  lemma CellLabelsSingle(classify: Classifier, row: Row, c: string)
    requires c in row
    ensures HasColumns(row, [c])
    ensures CellLabels(classify, row, [c]) == [LabelOf(classify, row, c)]
  {
    assert [c][..0] == [];
  }

  /** Skipping the column at `k` removes one occurrence of its label. */
  lemma CellLabelsWithout(classify: Classifier, row: Row, q: seq<string>, k: nat)
    requires HasColumns(row, q) && k < |q|
    ensures HasColumns(row, q[..k] + q[k + 1..])
    ensures multiset(CellLabels(classify, row, q)) ==
              multiset(CellLabels(classify, row, q[..k] + q[k + 1..])) + multiset{LabelOf(classify, row, q[k])}
  {
    var left, mid, right := q[..k], [q[k]], q[k + 1..];
    assert q == left + mid + right;
    CellLabelsSingle(classify, row, q[k]);
    CellLabelsConcat(classify, row, left, mid);
    CellLabelsConcat(classify, row, left + mid, right);
    CellLabelsConcat(classify, row, left, right);
    MultisetDropMiddle(CellLabels(classify, row, left), CellLabels(classify, row, mid), CellLabels(classify, row, right));
  }

  /** Taking the last of `p` and its match at `k` in `q` away leaves two rearrangements of each other. */
  lemma RemoveMatched(p: seq<string>, q: seq<string>, k: nat)
    requires multiset(p) == multiset(q) && p != [] && k < |q| && q[k] == p[|p| - 1]
    ensures multiset(p[..|p| - 1]) == multiset(q[..k] + q[k + 1..])
  {
    assert p == p[..|p| - 1] + [p[|p| - 1]];
    MultisetWithout(q, k);
  }

  /** Rearranging the columns visited rearranges the labels obtained. */
  lemma {:induction false} CellLabelsPermutation(classify: Classifier, row: Row, p: seq<string>, q: seq<string>)
    requires HasColumns(row, p) && multiset(p) == multiset(q)
    ensures HasColumns(row, q)
    ensures multiset(CellLabels(classify, row, p)) == multiset(CellLabels(classify, row, q))
    decreases |p|
  {
    HasColumnsPermutation(row, p, q);
    if p == [] {
      assert |multiset(q)| == 0;
    } else {
      var init, x := p[..|p| - 1], p[|p| - 1];
      assert x in multiset(q);
      var k :| 0 <= k < |q| && q[k] == x;
      var rest := q[..k] + q[k + 1..];
      RemoveMatched(p, q, k);
      CellLabelsWithout(classify, row, q, k);
      CellLabelsPermutation(classify, row, init, rest);
      assert CellLabels(classify, row, p) == CellLabels(classify, row, init) + [LabelOf(classify, row, x)];
    }
  }

  /**
    The total does not depend on the order in which the answer columns are
    visited: any rearrangement of a..e gives the same score.
   */
  lemma ColumnOrderIrrelevant(classify: Classifier, row: Row, order: seq<string>)
    requires HasColumns(row, ANSWER_COLUMNS) && multiset(order) == multiset(ANSWER_COLUMNS)
    ensures HasColumns(row, order)
    ensures RowScore(classify, row, order) == RowScore(classify, row, ANSWER_COLUMNS)
  {
    CellLabelsPermutation(classify, row, ANSWER_COLUMNS, order);
    TotalScorePermutation(CellLabels(classify, row, order), CellLabels(classify, row, ANSWER_COLUMNS));
  }

  /** When all five answers get the same label, the row scores five times its increment. */
  lemma UniformRowScore(classify: Classifier, row: Row, answerType: string)
    requires HasColumns(row, ANSWER_COLUMNS)
    requires forall c :: c in ANSWER_COLUMNS ==> LabelOf(classify, row, c) == answerType
    ensures RowScore(classify, row, ANSWER_COLUMNS) == 5 * Increment(answerType)
  {
    var ls := CellLabels(classify, row, ANSWER_COLUMNS);
    forall i | 0 <= i < |ls| ensures ls[i] == answerType {
      CellLabelsAt(classify, row, ANSWER_COLUMNS, i);
      assert ANSWER_COLUMNS[i] in ANSWER_COLUMNS;
    }
    TotalScoreUniform(ls, answerType);
  }

  /**
    A classifier that keeps to its label set and never fails on this row's
    answers scores it between 5 (all "Human") and 10 (all "AI").
   */
  lemma ClassifiedRowScore(classify: Classifier, row: Row)
    requires HasColumns(row, ANSWER_COLUMNS)
    requires forall c :: c in ANSWER_COLUMNS ==>
               WithinCandidates(Consult(classify, row[c]), CATEGORIES) && !CallFailed(Consult(classify, row[c]))
    ensures 5 <= RowScore(classify, row, ANSWER_COLUMNS) <= 10
  {
    var ls := CellLabels(classify, row, ANSWER_COLUMNS);
    forall i | 0 <= i < |ls| ensures ls[i] == "AI" || ls[i] == "Human" {
      var c := ANSWER_COLUMNS[i];
      assert c in ANSWER_COLUMNS;
      CellLabelsAt(classify, row, ANSWER_COLUMNS, i);
      VerdictLabels(classify, row[c]);
    }
    TotalScoreAtLeastCount(ls);
  }

  /** A table with the required headers and no rows yields an empty result and no notices. */
  lemma EmptyBatch(classify: Classifier, t: Table)
    requires t.Valid() && t.rows == [] && forall c :: c in REQUIRED_COLUMNS ==> c in t.columns
    ensures ScoreTable(classify, t) == Scored([])
    ensures Trace(classify, t) == []
  {
    assert FirstMissing(t.columns, REQUIRED_COLUMNS).None?;
  }

  /** The notice for the answer of `row` under column `c`. */
  function EventOf(classify: Classifier, row: Row, c: string): CellEvent
    requires "email" in row && c in row
  {
    CellEvent(row["email"], c, row[c], EvaluateText(classify, row[c]))
  }

  /** Notice 5 * i + j reports column j of row i. */
  lemma {:induction false} TraceAt(classify: Classifier, rows: seq<Row>, i: nat, j: nat)
    requires AllScorable(rows) && i < |rows| && j < 5
    ensures TableTrace(classify, rows)[5 * i + j] == EventOf(classify, rows[i], ANSWER_COLUMNS[j])
  {
    var n := |rows| - 1;
    var init := rows[..n];
    assert AllScorable(init);
    var prefix, last := TableTrace(classify, init), RowTrace(classify, rows[n], ANSWER_COLUMNS);
    assert TableTrace(classify, rows) == prefix + last;
    if i < n {
      TraceAt(classify, init, i, j);
      assert init[i] == rows[i];
      assert (prefix + last)[5 * i + j] == prefix[5 * i + j];
    } else {
      RowTraceAt(classify, rows[n], ANSWER_COLUMNS, j);
      assert (prefix + last)[5 * i + j] == last[j];
    }
  }

  /**
    Every cell is classified exactly once, row by row and column by column:
    notice 5 * i + j reports column j of row i, whatever the classifier did,
    so a failed cell neither stops its row nor the rows after it.
   */
  lemma TraceCoversEveryCell(classify: Classifier, rows: seq<Row>)
    requires AllScorable(rows)
    ensures |TableTrace(classify, rows)| == 5 * |rows|
    ensures forall i, j :: 0 <= i < |rows| && 0 <= j < 5 ==>
              TableTrace(classify, rows)[5 * i + j] == EventOf(classify, rows[i], ANSWER_COLUMNS[j])
  {
    forall i, j | 0 <= i < |rows| && 0 <= j < 5
      ensures TableTrace(classify, rows)[5 * i + j] == EventOf(classify, rows[i], ANSWER_COLUMNS[j])
    {
      TraceAt(classify, rows, i, j);
    }
  }

  /** Every notice reports the verdict on its own answer, taken from its own column. */
  lemma {:induction false} NoticesCarryVerdicts(classify: Classifier, rows: seq<Row>)
    requires AllScorable(rows)
    ensures forall e :: e in TableTrace(classify, rows) ==>
              e.column in ANSWER_COLUMNS && e.verdict == EvaluateText(classify, e.answer)
  {
    if rows != [] {
      var n := |rows| - 1;
      var init := rows[..n];
      assert AllScorable(init);
      NoticesCarryVerdicts(classify, init);
      var last := RowTrace(classify, rows[n], ANSWER_COLUMNS);
      forall e | e in last ensures e.column in ANSWER_COLUMNS && e.verdict == EvaluateText(classify, e.answer) {
        var j :| 0 <= j < |last| && last[j] == e;
        RowTraceAt(classify, rows[n], ANSWER_COLUMNS, j);
      }
    }
  }
}
