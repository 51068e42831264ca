/**
  The FAQ matcher `check_faq`: whole-string similarity between the
  normalised input and every canonical question, with the best accepted
  only when it is strictly above 0.6.
 */
module FaqMatch {
  import opened Options
  import opened Normalize
  import opened Tables
  import opened Scoring

  /** Similarity of `text` to question `j`; `text` is the first argument, as
      in the source. */
  function QuestionSimilarity(faq: seq<FaqEntry>, text: string, j: int, sim: (string, string) -> Ratio): real
    requires 0 <= j < |faq|
  {
    sim(text, faq[j].question)
  }

  /** Question `i` is strictly above the floor, no question is more similar,
      and every earlier question is strictly less similar. */
  predicate BestQuestion(faq: seq<FaqEntry>, i: int, text: string, sim: (string, string) -> Ratio) {
    && 0 <= i < |faq|
    && QuestionSimilarity(faq, text, i, sim) > FaqSimilarityFloor
    && forall j :: 0 <= j < |faq| ==>
         && QuestionSimilarity(faq, text, j, sim) <= QuestionSimilarity(faq, text, i, sim)
         && (j < i ==> QuestionSimilarity(faq, text, j, sim) < QuestionSimilarity(faq, text, i, sim))
  }

  /** No question is strictly more similar than the floor. */
  predicate NoQuestionClose(faq: seq<FaqEntry>, text: string, sim: (string, string) -> Ratio) {
    forall j :: 0 <= j < |faq| ==> QuestionSimilarity(faq, text, j, sim) <= FaqSimilarityFloor
  }

  function FaqScores(faq: seq<FaqEntry>, text: string, sim: (string, string) -> Ratio): (r: seq<real>)
    ensures |r| == |faq|
  {
    seq(|faq|, j requires 0 <= j < |faq| => QuestionSimilarity(faq, text, j, sim))
  }

  function AboveFloor(scores: seq<real>): (r: seq<bool>)
    ensures |r| == |scores|
  {
    seq(|scores|, j requires 0 <= j < |scores| => scores[j] > FaqSimilarityFloor)
  }

  /** The index the source's loop settles on: `None` exactly when no
      question is close enough, otherwise the best question. */
  function BestFaqIndex(faq: seq<FaqEntry>, text: string, sim: (string, string) -> Ratio): (r: Option<nat>)
    ensures r.None? <==> NoQuestionClose(faq, text, sim)
    ensures r.Some? ==> BestQuestion(faq, r.value, text, sim)
  {
    var scores := FaqScores(faq, text, sim);
    var eligible := AboveFloor(scores);
    assert forall j :: 0 <= j < |faq| ==> scores[j] == QuestionSimilarity(faq, text, j, sim);
    assert forall j :: 0 <= j < |faq| ==> (Contender(scores, eligible, j) <==> scores[j] > FaqSimilarityFloor);
    var r := BestIndex(scores, eligible);
    if r.Some? then
      assert BestQuestion(faq, r.value, text, sim) by {
        var i := r.value;
        forall j | 0 <= j < |faq|
          ensures QuestionSimilarity(faq, text, j, sim) <= QuestionSimilarity(faq, text, i, sim)
          ensures j < i ==> QuestionSimilarity(faq, text, j, sim) < QuestionSimilarity(faq, text, i, sim)
        {
          if !Contender(scores, eligible, j) {
            assert scores[j] <= FaqSimilarityFloor;
          }
        }
      }
      r
    else
      r
  }

  /** `check_faq`: the answer to the earliest most similar question when its
      similarity to the normalised input is strictly above 0.6, and `None`
      exactly when no question is that similar. */
  function CheckFaq(faq: seq<FaqEntry>, input: string, sim: (string, string) -> Ratio): (r: Option<string>)
    ensures r.None? <==> NoQuestionClose(faq, Preprocess(input), sim)
    ensures r.Some? ==> exists i :: BestQuestion(faq, i, Preprocess(input), sim) && r.value == faq[i].answer
  {
    match BestFaqIndex(faq, Preprocess(input), sim)
    case None => None
    case Some(i) => Some(faq[i].answer)
  }

  /** At most one question is the best. */
  lemma BestQuestionUnique(faq: seq<FaqEntry>, i: int, k: int, text: string, sim: (string, string) -> Ratio)
    requires BestQuestion(faq, i, text, sim) && BestQuestion(faq, k, text, sim)
    ensures i == k
  {
  }
}
