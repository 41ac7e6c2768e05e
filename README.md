# CSV batch scorer for job-applicant answers

This project models the CSV batch scorer in `appwithhis3.py` and proves properties of the model. The scorer takes an uploaded table of job applicants, one row per applicant. Each row has an `email` and five answers in columns `a`..`e`. The scorer asks a zero-shot text classifier whether each answer reads as "AI" or "Human" written. It adds 2 for "AI", 1 for "Human" and 0 for anything else, and it reports one `(email, total_score)` row per applicant.

The source has two parts, and the model is built around them:

- **Evaluator** (`evaluator.dfy`, `evaluate_text`):
  - embeds the answer in a fixed rubric;
  - offers the classifier exactly the labels `["AI", "Human"]`;
  - returns the top-ranked label and its score;
  - returns the sentinel `("Error", 0.0)` when anything in that block raises.

  The classifier is an oracle `Request -> Option<Response>`, where `None` is a call that raised. A reply with an empty label or score list also gives the sentinel, because indexing `[0]` raises inside the same guarded block.
- **Scoring policy** (`scoring.dfy`): the increment of each label, and the running total over the labels in visiting order. It is proved equal to a closed form over label counts, and so does not depend on their order.
- **Batch scorer** (`batch_scorer.dfy`, `process_csv`):
  - `ProcessCsv` is a method with the source's loops. It first runs the schema check (`FindMissingColumn`), which stops at the first missing required column. It then runs the row loop (`ScoreAllRows`), which appends one result per row. Each row goes through the inner loop over `a`..`e` (`ScoreAnswers`), which accumulates `totalScore`.
  - Its results and its per-cell progress notices are proved equal to the specification functions `ScoreTable` and `Trace`.
  - A missing column gives `Rejected(column)`. This stands for the source's error notice naming the column, followed by its `None` return.
- **Properties** (`properties.dfy`): what the scorer promises about `ScoreTable` and `Trace`. This covers schema rejection, row and email preservation, scores as sums of per-column increments in 0..10, column-order independence, the empty batch, and that every cell is reported exactly once, in row-major order.
- **Scenarios** (`scenarios.dfy`): stub classifiers. One always says "AI", one always says "Human", one always raises, and one fails on a single answer. There is also a worked one-applicant upload, passed to `ProcessCsv` in a verified caller.

The source's comments speak of answer columns "a-j", but its code requires and visits only `a`..`e`. The model follows the code.

## Model

| member | source | states |
|---|---|---|
| Evaluator.Prompt | appwithhis3.py:17-56 | The prompt's length is the sum of the rubric's, the answer's and the tail's; it starts with the rubric, and the answer occurs verbatim right after the rubric |
| Evaluator.PromptEndsWithTail | appwithhis3.py:55-56 | After the answer the prompt holds exactly the closing whitespace |
| Evaluator.BuildRequest | appwithhis3.py:12-14 | Every request offers exactly the candidate labels "AI", "Human" in that order, and its prompt contains the answer text |
| Evaluator.BuildRequestInjective | appwithhis3.py:55 | Two answers that produce the same request are the same answer: the answer can be recovered from the prompt |
| Evaluator.CallFailed | appwithhis3.py:59-68 | When the handler at lines 66-68 is taken: the call raised, or its reply has no first label or no first score |
| Evaluator.Consult | appwithhis3.py:59 | The single classifier call for an answer: the oracle applied to the request built for that answer |
| Evaluator.EvaluateText | appwithhis3.py:9-68 | If the classifier raises or returns no ranked label or score, the verdict is ("Error", 0.0); otherwise it is the first label and the first score of the reply, unchanged |
| Evaluator.VerdictLabels | appwithhis3.py:59-68 | For a classifier that ranks only the offered labels, the verdict label is "AI", "Human" or "Error", and it is "Error" exactly when the call failed |
| Scoring.Increment | appwithhis3.py:96-101 | The increment is 2 exactly for "AI", 1 exactly for "Human", and 0 exactly for every other label, "Error" included |
| Scoring.TotalScore | appwithhis3.py:86-101 | The running total over n labels is at most 2n |
| Scoring.TotalScoreCounts | appwithhis3.py:86-101 | The running total equals twice the number of "AI" labels plus the number of "Human" labels |
| Scoring.TotalScorePermutation | appwithhis3.py:96-101 | Two label sequences with the same multiset of labels have the same total |
| Scoring.TotalScoreUniform | appwithhis3.py:96-101 | n identical labels total n times that label's increment |
| Scoring.TotalScoreAtLeastCount | appwithhis3.py:96-99 | When every label is "AI" or "Human", the total is at least the number of labels |
| Scoring.TotalScoreOfFive | appwithhis3.py:86-101 | Five labels total the sum of their five increments |
| BatchScorer.AnswerColumnsFollowEmail | appwithhis3.py:77-90 | The visited answer columns are the required columns after `email`, namely a, b, c, d, e |
| BatchScorer.FirstMissing | appwithhis3.py:77-81 | The result is None exactly when every required column is present; otherwise it is a required column that is absent, and every required column before it is present |
| BatchScorer.FindMissingColumn | appwithhis3.py:77-81 | The schema loop, checking the required columns in order and stopping at the first absent one, reports exactly FirstMissing |
| BatchScorer.CellLabels | appwithhis3.py:90-95 | One label per visited column |
| BatchScorer.CellLabelsAt | appwithhis3.py:90-95 | Label i is the evaluator's verdict on the answer under column i |
| BatchScorer.RowScore | appwithhis3.py:86-101 | The row's total_score, the running total of the increments of its answers' labels, is at most twice the number of visited columns |
| BatchScorer.ScoreRows | appwithhis3.py:84-107 | One result per row |
| BatchScorer.ScoreRowsAt | appwithhis3.py:85-107 | Result i carries row i's email and the total of row i's five answers |
| BatchScorer.RowTrace | appwithhis3.py:90-104 | One progress notice per visited column |
| BatchScorer.RowTraceAt | appwithhis3.py:90-104 | Notice j of a row names column j, its answer, and the verdict on that answer |
| BatchScorer.TableTrace | appwithhis3.py:85-104 | Five notices per row |
| BatchScorer.RequiredInRows | appwithhis3.py:77-91 | Once the schema check passes, every row of a well-formed table has the email and all five answer cells the loops read |
| BatchScorer.ScoreTable | appwithhis3.py:77-110 | What process_csv returns: rejected exactly when FirstMissing finds a required column absent, naming that column; otherwise one result per row |
| BatchScorer.Trace | appwithhis3.py:92-104 | The per-cell notices of the batch: none when it is rejected, five per row when it is scored |
| BatchScorer.CellStep | appwithhis3.py:95-104 | Visiting one more column adds that answer's increment to the total and appends that cell's notice |
| BatchScorer.RowStep | appwithhis3.py:85-107 | Visiting one more row appends that row's result and its five notices |
| BatchScorer.ScoreAnswers | appwithhis3.py:86-104 | The inner column loop leaves totalScore equal to the score of the row's answers, and emits exactly that row's notices, including after a failed cell |
| BatchScorer.ScoreAllRows | appwithhis3.py:84-107 | The row loop, appending one result per row and, for each row, that row's notices, yields exactly ScoreRows and TableTrace |
| BatchScorer.ProcessCsv | appwithhis3.py:71-110 | The whole method yields exactly ScoreTable and emits exactly Trace: rejection with the first missing column, or one result per row in order |
| ScorerProperties.SchemaRejection | appwithhis3.py:77-81 | The batch is rejected exactly when some required column is absent. The column reported is the first absent one in the order email, a..e, and no cell is classified |
| ScorerProperties.MissingOnlyD | appwithhis3.py:77-81 | A table lacking only column d is rejected naming d, with no notices |
| ScorerProperties.RowsPreserved | appwithhis3.py:84-107 | With all required columns present the batch succeeds with one result per row, in input order; result i carries row i's email and row i's score |
| ScorerProperties.RowScoreIsColumnSum | appwithhis3.py:86-101 | A row's total is inc(a) + inc(b) + inc(c) + inc(d) + inc(e) over the labels its answers received |
| ScorerProperties.ScoresAreColumnSums | appwithhis3.py:86-107 | Every result's total_score is the sum of its row's five increments, and lies in 0..10 |
| ScorerProperties.CellLabelsConcat | appwithhis3.py:90-95 | Visiting two column lists one after the other gives the two label lists concatenated |
| ScorerProperties.CellLabelsWithout | appwithhis3.py:90-95 | Skipping one column removes exactly one occurrence of its label |
| ScorerProperties.CellLabelsPermutation | appwithhis3.py:90-95 | Rearranging the visited columns rearranges the labels obtained |
| ScorerProperties.ColumnOrderIrrelevant | appwithhis3.py:90-101 | Visiting the answer columns in any rearranged order gives the same total |
| ScorerProperties.UniformRowScore | appwithhis3.py:90-101 | A row whose five answers all get the same label scores five times that label's increment |
| ScorerProperties.ClassifiedRowScore | appwithhis3.py:59-99 | A row whose five calls all succeed with one of the offered labels scores between 5 and 10 |
| ScorerProperties.EmptyBatch | appwithhis3.py:84-110 | A table with the required headers and no rows yields an empty result, not a rejection, and no notices |
| ScorerProperties.TraceAt | appwithhis3.py:85-104 | Notice 5i + j reports column j of row i, with its answer and its verdict |
| ScorerProperties.TraceCoversEveryCell | appwithhis3.py:85-104 | Every cell is reported exactly once, row by row and column by column, whatever the classifier did |
| ScorerProperties.NoticesCarryVerdicts | appwithhis3.py:91-104 | Every notice names an answer column and carries the evaluator's verdict on its own answer |
| Scenarios.StubScores | appwithhis3.py:86-107 | With a classifier that always answers the same label, every applicant scores five times that label's increment |
| Scenarios.AllAiScoresTen | appwithhis3.py:96-97 | A classifier that always says "AI" gives every applicant 10 |
| Scenarios.AllHumanScoresFive | appwithhis3.py:98-99 | A classifier that always says "Human" gives every applicant 5 |
| Scenarios.AllFailedScoresZero | appwithhis3.py:66-101 | A classifier that always raises still yields one result per applicant, each scored 0 |
| Scenarios.RaisingGivesSentinel | appwithhis3.py:66-68 | A call that raises yields ("Error", 0.0) whatever the answer |
| Scenarios.AllFailedNotices | appwithhis3.py:66-104 | A classifier that always raises still gets five notices per row, each carrying ("Error", 0.0) |
| Scenarios.FailsOnFourthVerdicts | appwithhis3.py:59-68 | For a classifier that raises only on one answer, that answer gets "Error" and every other answer "Human" |
| Scenarios.ApplicantLabels | appwithhis3.py:86-101 | The worked applicant, with four "Human" answers and one failed call, scores 1 + 1 + 1 + 0 + 1 = 4 |
| Scenarios.OneFailedCellScoresFour | appwithhis3.py:84-107 | The worked upload has one result: the applicant's email with score 4; the failed cell does not stop the row |

## Left out

- Streamlit: page setup, widgets, the spinner, the download button and the per-call error notice of the evaluator are UI and are not modelled. The two `st.write` notices of each cell are modelled together as one `CellEvent` in the trace `ProcessCsv` returns; their text formatting, such as the confidence printed to two decimals, is not modelled.
- `pd.read_csv`, `DataFrame` and `to_csv` are foreign library I/O. The table arrives already parsed, as column names plus rows that map each column to its cell text. `Table.Valid` states the data-frame guarantee that every row has every column.
- The outer catch-all of `process_csv` (lines 72, 112-114) turns any failure inside the batch into `None`: a parse failure, and also a failure of `st.write` (lines 92, 104), of `st.error` inside the evaluator's handler (line 67) or of `pd.DataFrame` (line 110). None of these UI and library failures is modelled; the model's batch is rejected only by the schema check.
- The zero-shot pipeline and its BART model become the `Classifier` oracle. The `Classifier` type assumes nothing about which labels it ranks. `Evaluator.VerdictLabels` and `ScorerProperties.ClassifiedRowScore` hold only for a classifier that ranks just the offered labels (their `WithinCandidates` hypothesis), as the zero-shot pipeline does.
- Evaluator.Classifier: each request always gets the same reply, because the oracle is a fixed function of the request. Failures or replies that depend on the call rather than on the prompt are not modelled. Examples are a transient out-of-memory on one call, or two cells with the same answer text getting different replies; in the model such cells always get the same verdict.
- Confidence values are real-valued data passed through unchanged; nothing is proved about their numerics or their range.
- Empty or missing cells: pandas hands the evaluator a NaN value, which the prompt formats as "nan". The model treats every cell as text, so such a cell is whatever string the parser produced.
- The rubric wording: `RUBRIC_HEAD` keeps only the rubric's section headings around the answer. The classifier sees the prompt as opaque text, and no property here depends on the wording.
- `appwithhis.py` is not part of this model. It is a chat front end over a network client, with no scoring logic.
- Evaluator.EvaluateText: does not model the `st.error` notice of a failed call, because it is UI output with no effect on the verdict.
