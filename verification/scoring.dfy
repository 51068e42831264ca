/**
  The running-maximum loop shared by the fuzzy intent classifier and the FAQ
  matcher: scan the candidates in declared order, keep a best score that
  starts at 0.0, and replace the best only when a candidate is eligible and
  its score is strictly greater.
 */
module Scoring {
  import opened Options

  /** A similarity ratio, as `difflib.SequenceMatcher.ratio` returns. */
  type Ratio = r: real | 0.0 <= r <= 1.0

  /** Candidate `j` can win: it is eligible and beats the initial best of 0.0. */
  predicate Contender(scores: seq<real>, eligible: seq<bool>, j: int)
    requires |scores| == |eligible|
  {
    0 <= j < |scores| && eligible[j] && scores[j] > 0.0
  }

  /** Candidate `i` is a contender with the greatest score, and the first such. */
  predicate FirstMaximal(scores: seq<real>, eligible: seq<bool>, i: int)
    requires |scores| == |eligible|
  {
    && Contender(scores, eligible, i)
    && (forall j :: 0 <= j < |scores| && Contender(scores, eligible, j) ==> scores[j] <= scores[i])
    && (forall j :: 0 <= j < |scores| && Contender(scores, eligible, j) && j < i ==> scores[j] < scores[i])
  }

  /** The index the loop ends with, or `None` when it never replaces the
      initial best. */
  function BestIndex(scores: seq<real>, eligible: seq<bool>): (r: Option<nat>)
    requires |scores| == |eligible|
    ensures r.None? <==> forall j :: 0 <= j < |scores| ==> !Contender(scores, eligible, j)
    ensures r.Some? ==> FirstMaximal(scores, eligible, r.value)
    decreases |scores|
  {
    if |scores| == 0 then None
    else
      var n := |scores| - 1;
      var prev := BestIndex(scores[..n], eligible[..n]);
      assert forall j :: 0 <= j < n ==>
        (Contender(scores[..n], eligible[..n], j) <==> Contender(scores, eligible, j));
      var best := if prev.Some? then scores[prev.value] else 0.0;
      assert best >= 0.0;
      if eligible[n] && scores[n] > best then
        assert Contender(scores, eligible, n);
        Some(n)
      else
        assert prev.None? ==> !Contender(scores, eligible, n);
        prev
  }
}
