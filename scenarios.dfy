/**
  The batch scorer against stub classifiers: a classifier that always
  answers the same label, one that always raises, and a worked applicant
  whose fourth answer cannot be classified.
 */
module Scenarios {
  import opened Wrappers
  import opened Evaluator
  import opened Scoring
  import opened BatchScorer
  import opened ScorerProperties

  /** A classifier that puts `answerType` first with score `confidence`, whatever the prompt. */
  function Always(answerType: string, confidence: real): Classifier
  {
    q => Some(Response([answerType], [confidence]))
  }

  /** A classifier whose every call raises. */
  function AlwaysRaises(): Classifier
  {
    q => None
  }

  /** With a classifier that always answers the same label, every applicant scores five times its increment. */
  lemma StubScores(t: Table, answerType: string, confidence: real)
    requires t.Valid() && forall c :: c in REQUIRED_COLUMNS ==> c in t.columns
    ensures ScoreTable(Always(answerType, confidence), t).Scored?
    ensures |ScoreTable(Always(answerType, confidence), t).results| == |t.rows|
    ensures forall i :: 0 <= i < |t.rows| ==>
              ScoreTable(Always(answerType, confidence), t).results[i].totalScore == 5 * Increment(answerType)
  {
    var classify := Always(answerType, confidence);
    RowsPreserved(classify, t);
    forall i | 0 <= i < |t.rows|
      ensures RowScore(classify, t.rows[i], ANSWER_COLUMNS) == 5 * Increment(answerType)
    {
      UniformRowScore(classify, t.rows[i], answerType);
    }
  }

  /** A classifier that always says "AI" gives every applicant 10. */
  lemma AllAiScoresTen(t: Table)
    requires t.Valid() && forall c :: c in REQUIRED_COLUMNS ==> c in t.columns
    ensures ScoreTable(Always("AI", 1.0), t).Scored?
    ensures forall r :: r in ScoreTable(Always("AI", 1.0), t).results ==> r.totalScore == 10
  {
    StubScores(t, "AI", 1.0);
  }

  /** A classifier that always says "Human" gives every applicant 5. */
  lemma AllHumanScoresFive(t: Table)
    requires t.Valid() && forall c :: c in REQUIRED_COLUMNS ==> c in t.columns
    ensures ScoreTable(Always("Human", 0.9), t).Scored?
    ensures forall r :: r in ScoreTable(Always("Human", 0.9), t).results ==> r.totalScore == 5
  {
    StubScores(t, "Human", 0.9);
  }

  /**
    When every classifier call raises, the batch still succeeds, with one
    row per applicant, each scored 0.
   */
  lemma AllFailedScoresZero(t: Table)
    requires t.Valid() && forall c :: c in REQUIRED_COLUMNS ==> c in t.columns
    ensures ScoreTable(AlwaysRaises(), t).Scored?
    ensures |ScoreTable(AlwaysRaises(), t).results| == |t.rows|
    ensures forall r :: r in ScoreTable(AlwaysRaises(), t).results ==> r.totalScore == 0
  {
    var classify := AlwaysRaises();
    RowsPreserved(classify, t);
    forall i | 0 <= i < |t.rows|
      ensures RowScore(classify, t.rows[i], ANSWER_COLUMNS) == 0
    {
      UniformRowScore(classify, t.rows[i], "Error");
    }
  }

  /** A call that raises yields the sentinel verdict, whatever the text. */
  lemma RaisingGivesSentinel(text: string)
    ensures EvaluateText(AlwaysRaises(), text) == Verdict(ERROR_LABEL, 0.0)
  {
    assert CallFailed(Consult(AlwaysRaises(), text));
  }

  /** When every classifier call raises, every cell is still reported, with the sentinel verdict. */
  lemma AllFailedNotices(t: Table)
    requires t.Valid() && forall c :: c in REQUIRED_COLUMNS ==> c in t.columns
    ensures |Trace(AlwaysRaises(), t)| == 5 * |t.rows|
    ensures forall e :: e in Trace(AlwaysRaises(), t) ==> e.verdict == Verdict(ERROR_LABEL, 0.0)
  {
    var classify := AlwaysRaises();
    assert FirstMissing(t.columns, REQUIRED_COLUMNS).None?;
    RequiredInRows(t);
    var tr := TableTrace(classify, t.rows);
    assert Trace(classify, t) == tr;
    NoticesCarryVerdicts(classify, t.rows);
    forall e | e in tr ensures e.verdict == Verdict(ERROR_LABEL, 0.0) {
      RaisingGivesSentinel(e.answer);
    }
  }

  /** The applicant of the worked example, with five answers. */
  const APPLICANT: Row := map["email" := "x@y.com", "a" := "one", "b" := "two", "c" := "three",
                              "d" := "the fourth", "e" := "five"]

  /** A table with the required columns and the one applicant. */
  const UPLOAD: Table := Table(REQUIRED_COLUMNS, [APPLICANT])

  /** Says "Human" with score 0.9 except on the fourth answer, where the call raises. */
  function FailsOnFourth(): Classifier
  {
    q => if q == BuildRequest("the fourth") then None else Some(Response(["Human", "AI"], [0.9, 0.1]))
  }

  /** Every answer but the fourth is judged "Human"; the fourth gets the sentinel. */
  lemma FailsOnFourthVerdicts(text: string)
    ensures EvaluateText(FailsOnFourth(), text).answerType == if text == "the fourth" then ERROR_LABEL else "Human"
  {
    if BuildRequest(text) == BuildRequest("the fourth") {
      BuildRequestInjective(text, "the fourth");
    }
  }

  /** The worked applicant's labels: "Human" for a, b, c and e, the sentinel for d. */
  lemma ApplicantLabels()
    ensures Scorable(APPLICANT)
    ensures RowScore(FailsOnFourth(), APPLICANT, ANSWER_COLUMNS) == 4
  {
    var classify := FailsOnFourth();
    assert Scorable(APPLICANT);
    FailsOnFourthVerdicts("one");
    FailsOnFourthVerdicts("two");
    FailsOnFourthVerdicts("three");
    FailsOnFourthVerdicts("the fourth");
    FailsOnFourthVerdicts("five");
    RowScoreIsColumnSum(classify, APPLICANT);
  }

  /** The worked upload is well formed and has every required column. */
  lemma UploadWellFormed()
    ensures UPLOAD.Valid()
    ensures forall c :: c in REQUIRED_COLUMNS ==> c in UPLOAD.columns
    ensures APPLICANT["email"] == "x@y.com"
  {
  }

  /** The worked example: four "Human" answers and one failed call score 1 + 1 + 1 + 0 + 1 = 4. */
  lemma OneFailedCellScoresFour()
    ensures UPLOAD.Valid()
    ensures ScoreTable(FailsOnFourth(), UPLOAD) == Scored([ScoreRow("x@y.com", 4)])
  {
    UploadWellFormed();
    ApplicantLabels();
    RowsPreserved(FailsOnFourth(), UPLOAD);
  }

  /**
    Only a verified caller: the worked upload passed to `ProcessCsv`, whose
    contract fixes the outcome. It stands in for no source operation.
   */
  method ScoreUpload()
  {
    OneFailedCellScoresFour();
    var outcome, trace := ProcessCsv(FailsOnFourth(), UPLOAD);
    assert outcome == Scored([ScoreRow("x@y.com", 4)]);
  }
}
