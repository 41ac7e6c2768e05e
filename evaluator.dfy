/**
  The answer evaluator: embeds one answer in a fixed rubric, asks a
  zero-shot classifier to choose between "AI" and "Human", and reports the
  top label with its score, or the sentinel ("Error", 0.0) when the call fails.
 */
module Evaluator {
  import opened Wrappers

  /** The candidate labels offered to the classifier, in this order. */
  const CATEGORIES: seq<string> := ["AI", "Human"]

  /** The label reported when the classifier could not be consulted. */
  const ERROR_LABEL: string := "Error"

  /**
    The rubric placed before the answer. Only its section headings are kept:
    the classifier treats the prompt as opaque text and no property here
    depends on the wording. It ends with the "Text: " marker after which the
    answer is embedded verbatim.
   */
  const RUBRIC_HEAD: string :=
    "\n        Objective:\n" +
    "1. General Characteristics of Human Text:\n" +
    "2. Patterns in AI-Generated Text:\n" +
    "3. Evaluation Criteria:\n" +
    "4. Scoring Methodology:\n" +
    "\n        \n        Text: "

  /** What follows the answer in the prompt. */
  const RUBRIC_TAIL: string := "\n        "

  /** One zero-shot classification request: the prompt and the candidate labels. */
  datatype Request = Request(prompt: string, candidates: seq<string>)

  /** A classifier reply: labels ranked best first, and their scores in the same order. */
  datatype Response = Response(labels: seq<string>, scores: seq<real>)

  /**
    The local zero-shot pipeline as an oracle, a fixed function of the
    request. `None` stands for a call that raised (model or input failure).
   */
  type Classifier = Request -> Option<Response>

  /** The evaluator's answer for one text: a label and its confidence. */
  datatype Verdict = Verdict(answerType: string, confidence: real)

  /** `needle` occurs in `hay` starting at position `i`. */
  predicate OccursAt(hay: string, needle: string, i: nat)
  {
    i + |needle| <= |hay| && hay[i..i + |needle|] == needle
  }

  /** The prompt sent for an answer: rubric, then the answer verbatim, then the tail. */
  function Prompt(text: string): (p: string)
    ensures |p| == |RUBRIC_HEAD| + |text| + |RUBRIC_TAIL|
    ensures p[..|RUBRIC_HEAD|] == RUBRIC_HEAD
    ensures OccursAt(p, text, |RUBRIC_HEAD|)
  {
    RUBRIC_HEAD + text + RUBRIC_TAIL
  }

  /** The prompt closes with the tail, right after the answer. */
  lemma PromptEndsWithTail(text: string)
    ensures Prompt(text)[|RUBRIC_HEAD| + |text|..] == RUBRIC_TAIL
  {
    assert Prompt(text) == (RUBRIC_HEAD + text) + RUBRIC_TAIL;
  }

  /** The request built for an answer: always offers exactly the labels "AI" and "Human". */
  function BuildRequest(text: string): (q: Request)
    ensures q.candidates == ["AI", "Human"]
    ensures OccursAt(q.prompt, text, |RUBRIC_HEAD|)
  {
    Request(Prompt(text), CATEGORIES)
  }

  /** Different answers give different requests, so the answer is recoverable from the prompt. */
  lemma BuildRequestInjective(t1: string, t2: string)
    requires BuildRequest(t1) == BuildRequest(t2)
    ensures t1 == t2
  {
    var p := Prompt(t1);
    assert |t1| == |t2|;
    assert t1 == p[|RUBRIC_HEAD|..|RUBRIC_HEAD| + |t1|] == t2;
  }

  /**
    The classifier call did not yield a top label and score: it raised, or
    one of the two ranked lists was empty so that taking its first element
    would raise inside the same guarded block.
   */
  predicate CallFailed(reply: Option<Response>)
  {
    reply.None? || reply.value.labels == [] || reply.value.scores == []
  }

  /** The classifier's reply for an answer. */
  function Consult(classify: Classifier, text: string): Option<Response>
  {
    classify(BuildRequest(text))
  }

  /** Classify one answer; any failure is absorbed into the sentinel verdict. */
  function EvaluateText(classify: Classifier, text: string): (v: Verdict)
    ensures CallFailed(Consult(classify, text)) ==> v == Verdict("Error", 0.0)
    ensures !CallFailed(Consult(classify, text)) ==>
              v.answerType == Consult(classify, text).value.labels[0] &&
              v.confidence == Consult(classify, text).value.scores[0]
  {
    match classify(BuildRequest(text))
    case None => Verdict(ERROR_LABEL, 0.0)
    case Some(reply) =>
      if |reply.labels| == 0 || |reply.scores| == 0 then Verdict(ERROR_LABEL, 0.0)
      else Verdict(reply.labels[0], reply.scores[0])
  }

  /** The classifier keeps to its contract: every label it ranks is one of the candidates. */
  predicate WithinCandidates(reply: Option<Response>, candidates: seq<string>)
  {
    reply.Some? ==> forall l :: l in reply.value.labels ==> l in candidates
  }

  /**
    With a classifier that keeps to its contract, the verdict is "AI",
    "Human" or "Error", and it is "Error" exactly when the call failed.
   */
  lemma VerdictLabels(classify: Classifier, text: string)
    requires WithinCandidates(Consult(classify, text), BuildRequest(text).candidates)
    ensures EvaluateText(classify, text).answerType in {"AI", "Human", "Error"}
    ensures EvaluateText(classify, text).answerType == "Error" <==> CallFailed(Consult(classify, text))
  {
    var reply := Consult(classify, text);
    if !CallFailed(reply) {
      assert reply.value.labels[0] in reply.value.labels;
    }
  }
}
