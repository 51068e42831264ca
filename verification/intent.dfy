/**
  Intent detection (`match_pattern`, `detect_intent`): the regex shortcut
  table is consulted first on the normalised text; when no shortcut fires,
  the fuzzy classifier scores the extracted keywords against each intent's
  keyword list.

  The regex engine and difflib's similarity ratio are not modelled; they are
  the two functions of a `Library`.
 */
module Intent {
  import opened Options
  import opened Normalize
  import opened Words
  import opened Keywords
  import opened Tables
  import opened Scoring

  /** `re.search(pattern, text, re.IGNORECASE)` and
      `SequenceMatcher(None, a, b).ratio()`. The ratio is not assumed symmetric. */
  datatype Library = Library(search: (string, string) -> bool, similarity: (string, string) -> Ratio)

  /** The `(intent, confidence)` pair of `detect_intent`. */
  datatype Detection = Detection(intent: string, confidence: real)

  // ---------------------------------------------------------------------------
  // Regex shortcuts

  /** Some pattern of `rule` matches somewhere in `text`. */
  predicate RuleHits(rule: PatternRule, text: string, search: (string, string) -> bool) {
    exists k :: 0 <= k < |rule.patterns| && search(rule.patterns[k], text)
  }

  /** Rule `i` matches and no earlier rule does. */
  predicate IsFirstHit(cfg: Config, i: int, text: string, search: (string, string) -> bool) {
    && 0 <= i < |cfg.patterns|
    && RuleHits(cfg.patterns[i], text, search)
    && forall j :: 0 <= j < i ==> !RuleHits(cfg.patterns[j], text, search)
  }

  /** No rule matches. */
  predicate NoRuleHits(cfg: Config, text: string, search: (string, string) -> bool) {
    forall i :: 0 <= i < |cfg.patterns| ==> !RuleHits(cfg.patterns[i], text, search)
  }

  /** The first rule at or after `i` that matches. */
  function FirstHitFrom(cfg: Config, text: string, search: (string, string) -> bool, i: nat): (r: Option<nat>)
    requires i <= |cfg.patterns|
    ensures r.None? <==> forall j :: i <= j < |cfg.patterns| ==> !RuleHits(cfg.patterns[j], text, search)
    ensures r.Some? ==> && i <= r.value < |cfg.patterns|
                        && RuleHits(cfg.patterns[r.value], text, search)
                        && forall j :: i <= j < r.value ==> !RuleHits(cfg.patterns[j], text, search)
    decreases |cfg.patterns| - i
  {
    if i == |cfg.patterns| then None
    else if RuleHits(cfg.patterns[i], text, search) then Some(i)
    else FirstHitFrom(cfg, text, search, i + 1)
  }

  /** `match_pattern`: the intent of the first rule, in declared order, with a
      matching pattern; `None` exactly when no pattern of any rule matches. */
  function MatchPattern(cfg: Config, text: string, search: (string, string) -> bool): (r: Option<string>)
    ensures r.None? <==> NoRuleHits(cfg, text, search)
    ensures r.Some? ==> exists i :: IsFirstHit(cfg, i, text, search) && r.value == cfg.patterns[i].intent
  {
    match FirstHitFrom(cfg, text, search, 0)
    case None => None
    case Some(i) =>
      assert IsFirstHit(cfg, i, text, search);
      Some(cfg.patterns[i].intent)
  }

  /** A shortcut decides the intent: the first matching rule names a
      non-empty intent (an empty name is falsy and falls through). */
  predicate ShortcutFires(cfg: Config, text: string, search: (string, string) -> bool) {
    exists i :: 0 <= i < |cfg.patterns| && IsFirstHit(cfg, i, text, search) && cfg.patterns[i].intent != []
  }

  /** When every rule names a non-empty intent, a shortcut fires exactly
      when some rule matches. */
  lemma ShortcutFiresWhenAnyRuleHits(cfg: Config, text: string, search: (string, string) -> bool)
    requires forall i :: 0 <= i < |cfg.patterns| ==> cfg.patterns[i].intent != []
    ensures ShortcutFires(cfg, text, search) <==> !NoRuleHits(cfg, text, search)
  {
    if !NoRuleHits(cfg, text, search) {
      var m := MatchPattern(cfg, text, search);
      assert m.Some?;
      var i :| IsFirstHit(cfg, i, text, search) && m.value == cfg.patterns[i].intent;
      assert cfg.patterns[i].intent != [];
    }
  }

  /** At most one rule is the first to match. */
  lemma FirstHitUnique(cfg: Config, i: int, j: int, text: string, search: (string, string) -> bool)
    requires IsFirstHit(cfg, i, text, search) && IsFirstHit(cfg, j, text, search)
    ensures i == j
  {
  }

  // ---------------------------------------------------------------------------
  // Fuzzy classifier

  /** Some keyword of `kws` is a near-duplicate of some keyword of `iks`. */
  predicate NearDuplicate(kws: seq<string>, iks: seq<string>, sim: (string, string) -> Ratio) {
    exists a, b :: 0 <= a < |kws| && 0 <= b < |iks| && sim(kws[a], iks[b]) > KeywordSimilarityFloor
  }

  /** The similarities above the floor between one keyword and a keyword list. */
  function RowSum(kw: string, iks: seq<string>, sim: (string, string) -> Ratio): (r: real)
    ensures 0.0 <= r <= |iks| as real
    ensures r > 0.0 <==> exists b :: 0 <= b < |iks| && sim(kw, iks[b]) > KeywordSimilarityFloor
  {
    if |iks| == 0 then 0.0
    else
      var s := sim(kw, iks[0]);
      (if s > KeywordSimilarityFloor then s else 0.0) + RowSum(kw, iks[1..], sim)
  }

  /** The similarities above the floor over all keyword pairs. */
  function PairSum(kws: seq<string>, iks: seq<string>, sim: (string, string) -> Ratio): (r: real)
    ensures r >= 0.0
    ensures r > 0.0 <==> NearDuplicate(kws, iks, sim)
  {
    if |kws| == 0 then 0.0
    else
      var row := RowSum(kws[0], iks, sim);
      var rest := PairSum(kws[1..], iks, sim);
      assert NearDuplicate(kws, iks, sim) <==>
        (row > 0.0 || NearDuplicate(kws[1..], iks, sim)) by {
        if NearDuplicate(kws, iks, sim) {
          var a, b :| 0 <= a < |kws| && 0 <= b < |iks| && sim(kws[a], iks[b]) > KeywordSimilarityFloor;
          if a > 0 {
            assert kws[1..][a - 1] == kws[a];
          }
        }
        if NearDuplicate(kws[1..], iks, sim) {
          var a, b :| 0 <= a < |kws[1..]| && 0 <= b < |iks| && sim(kws[1..][a], iks[b]) > KeywordSimilarityFloor;
          assert kws[a + 1] == kws[1..][a];
        }
      }
      row + rest
  }

  /** One pair contributes its similarity when it is above the floor, and nothing otherwise. */
  lemma RowSumSingle(kw: string, ik: string, sim: (string, string) -> Ratio)
    ensures RowSum(kw, [ik], sim) == if sim(kw, ik) > KeywordSimilarityFloor then sim(kw, ik) else 0.0
  {
    assert [ik][1..] == [];
  }

  /** The row sum adds up over a split of the intent's keyword list. */
  lemma {:induction false} RowSumAppend(kw: string, a: seq<string>, b: seq<string>, sim: (string, string) -> Ratio)
    ensures RowSum(kw, a + b, sim) == RowSum(kw, a, sim) + RowSum(kw, b, sim)
    decreases |a|
  {
    if |a| == 0 {
      assert a + b == b;
    } else {
      assert (a + b)[1..] == a[1..] + b;
      RowSumAppend(kw, a[1..], b, sim);
    }
  }

  /** A single user keyword against the intent's keywords contributes its row sum. */
  lemma PairSumSingle(kw: string, iks: seq<string>, sim: (string, string) -> Ratio)
    ensures PairSum([kw], iks, sim) == RowSum(kw, iks, sim)
  {
    assert [kw][1..] == [];
  }

  /** The pair sum adds up over a split of the user's keywords. */
  lemma {:induction false} PairSumAppendUser(a: seq<string>, b: seq<string>, iks: seq<string>, sim: (string, string) -> Ratio)
    ensures PairSum(a + b, iks, sim) == PairSum(a, iks, sim) + PairSum(b, iks, sim)
    decreases |a|
  {
    if |a| == 0 {
      assert a + b == b;
    } else {
      assert (a + b)[1..] == a[1..] + b;
      assert (a + b)[0] == a[0];
      PairSumAppendUser(a[1..], b, iks, sim);
    }
  }

  /** The pair sum adds up over a split of the intent's keywords. */
  lemma {:induction false} PairSumAppendIntent(kws: seq<string>, a: seq<string>, b: seq<string>, sim: (string, string) -> Ratio)
    ensures PairSum(kws, a + b, sim) == PairSum(kws, a, sim) + PairSum(kws, b, sim)
    decreases |kws|
  {
    if |kws| > 0 {
      RowSumAppend(kws[0], a, b, sim);
      PairSumAppendIntent(kws[1..], a, b, sim);
    }
  }

  /** Intent keywords that no user keyword is near add nothing to the pair sum. */
  lemma PairSumFar(kws: seq<string>, iks: seq<string>, extra: seq<string>, sim: (string, string) -> Ratio)
    requires !NearDuplicate(kws, extra, sim)
    ensures PairSum(kws, iks + extra, sim) == PairSum(kws, iks, sim)
  {
    PairSumAppendIntent(kws, iks, extra, sim);
  }

  /** Intent keywords that nothing matches dilute the score: it is the pair
      sum over the matched keywords divided by the length of the whole
      list, so a longer list needs more matches to reach its threshold. */
  lemma ScoreDilutes(name: string, iks: seq<string>, extra: seq<string>, threshold: real,
                     kws: seq<string>, sim: (string, string) -> Ratio)
    requires |iks| + |extra| > 0
    requires !NearDuplicate(kws, extra, sim)
    ensures Score(IntentSpec(name, iks + extra, threshold), kws, sim)
            == PairSum(kws, iks, sim) / ((|iks| + |extra|) as real)
  {
    PairSumFar(kws, iks, extra, sim);
  }

  /** Dividing by a positive length keeps the sign of a non-negative sum. */
  lemma QuotientSign(a: real, d: real)
    requires a >= 0.0 && d > 0.0
    ensures a / d >= 0.0
    ensures a / d > 0.0 <==> a > 0.0
  {
    assert a == (a / d) * d;
  }

  /** The normalised score of one intent: the pair sum divided by the length
      of the intent's keyword list. It is positive exactly when some user
      keyword is a near-duplicate of one of the intent's keywords. */
  function Score(spec: IntentSpec, kws: seq<string>, sim: (string, string) -> Ratio): (r: real)
    ensures r >= 0.0
    ensures r > 0.0 <==> NearDuplicate(kws, spec.keywords, sim)
  {
    var total := PairSum(kws, spec.keywords, sim);
    if |spec.keywords| > 0 then
      QuotientSign(total, |spec.keywords| as real);
      total / (|spec.keywords| as real)
    else total
  }

  function Scores(cfg: Config, kws: seq<string>, sim: (string, string) -> Ratio): (r: seq<real>)
    ensures |r| == |cfg.intents|
  {
    seq(|cfg.intents|, j requires 0 <= j < |cfg.intents| => Score(cfg.intents[j], kws, sim))
  }

  function MeetsThreshold(cfg: Config, kws: seq<string>, sim: (string, string) -> Ratio): (r: seq<bool>)
    ensures |r| == |cfg.intents|
  {
    seq(|cfg.intents|, j requires 0 <= j < |cfg.intents| => Score(cfg.intents[j], kws, sim) >= cfg.intents[j].threshold)
  }

  /** Intent `j` can be selected: its score is positive and reaches its own threshold. */
  predicate Qualifies(cfg: Config, j: int, kws: seq<string>, sim: (string, string) -> Ratio) {
    && 0 <= j < |cfg.intents|
    && Score(cfg.intents[j], kws, sim) > 0.0
    && Score(cfg.intents[j], kws, sim) >= cfg.intents[j].threshold
  }

  /** No intent qualifies. */
  predicate NoneQualifies(cfg: Config, kws: seq<string>, sim: (string, string) -> Ratio) {
    forall j :: 0 <= j < |cfg.intents| ==> !Qualifies(cfg, j, kws, sim)
  }

  /** Intent `i` qualifies, no qualifying intent scores higher, and every
      earlier qualifying intent scores strictly lower. */
  predicate Winner(cfg: Config, i: int, kws: seq<string>, sim: (string, string) -> Ratio) {
    && Qualifies(cfg, i, kws, sim)
    && forall j :: 0 <= j < |cfg.intents| && Qualifies(cfg, j, kws, sim) ==>
         && Score(cfg.intents[j], kws, sim) <= Score(cfg.intents[i], kws, sim)
         && (j < i ==> Score(cfg.intents[j], kws, sim) < Score(cfg.intents[i], kws, sim))
  }

  /** The fuzzy half of `detect_intent`: `("default", 0.0)` when no intent
      qualifies, otherwise the first intent with the greatest qualifying
      score, reported with that score. */
  function Classify(cfg: Config, kws: seq<string>, sim: (string, string) -> Ratio): (r: Detection)
    ensures NoneQualifies(cfg, kws, sim) ==> r == Detection(DefaultIntent, 0.0)
    ensures !NoneQualifies(cfg, kws, sim) ==>
      exists i :: Winner(cfg, i, kws, sim) && r == Detection(cfg.intents[i].name, Score(cfg.intents[i], kws, sim))
  {
    var scores := Scores(cfg, kws, sim);
    var eligible := MeetsThreshold(cfg, kws, sim);
    assert forall j :: 0 <= j < |cfg.intents| ==>
      (Qualifies(cfg, j, kws, sim) <==> Contender(scores, eligible, j));
    match BestIndex(scores, eligible)
    case None => Detection(DefaultIntent, 0.0)
    case Some(i) =>
      assert Winner(cfg, i, kws, sim);
      Detection(cfg.intents[i].name, scores[i])
  }

  /** At most one intent wins. */
  lemma WinnerUnique(cfg: Config, i: int, j: int, kws: seq<string>, sim: (string, string) -> Ratio)
    requires Winner(cfg, i, kws, sim) && Winner(cfg, j, kws, sim)
    ensures i == j
  {
  }

  // ---------------------------------------------------------------------------
  // detect_intent

  /** `detect_intent`: a shortcut on the normalised text wins with confidence
      exactly 0.9 and no scoring; otherwise (no rule matches, or the first
      matching rule names the empty intent) the fuzzy classifier decides on
      the keywords of the normalised text. */
  function DetectIntent(cfg: Config, input: string, lib: Library): (r: Detection)
    ensures forall i :: IsFirstHit(cfg, i, Preprocess(input), lib.search) && cfg.patterns[i].intent != [] ==>
      r == Detection(cfg.patterns[i].intent, PatternConfidence)
    ensures !ShortcutFires(cfg, Preprocess(input), lib.search) ==>
      r == Classify(cfg, ExtractKeywords(Preprocess(input)), lib.similarity)
  {
    Decide(cfg, Preprocess(input), lib)
  }

  /** `detect_intent` after `preprocess_text`: the decision on normalised text. */
  function Decide(cfg: Config, text: string, lib: Library): (r: Detection)
    ensures forall i :: IsFirstHit(cfg, i, text, lib.search) && cfg.patterns[i].intent != [] ==>
      r == Detection(cfg.patterns[i].intent, PatternConfidence)
    ensures !ShortcutFires(cfg, text, lib.search) ==>
      r == Classify(cfg, ExtractKeywords(text), lib.similarity)
  {
    var keywords := ExtractKeywords(text);
    match MatchPattern(cfg, text, lib.search)
    case Some(intent) =>
      if intent != [] then Detection(intent, PatternConfidence)
      else Classify(cfg, keywords, lib.similarity)
    case None => Classify(cfg, keywords, lib.similarity)
  }

  /** An intent that no shortcut names is detected only by winning the fuzzy
      scoring, and is then reported with its score. */
  lemma OnlyByScoring(cfg: Config, input: string, lib: Library, name: string)
    requires name != DefaultIntent
    requires forall i :: 0 <= i < |cfg.patterns| ==> cfg.patterns[i].intent != name
    requires DetectIntent(cfg, input, lib).intent == name
    ensures !ShortcutFires(cfg, Preprocess(input), lib.search)
    ensures exists i :: && Winner(cfg, i, ExtractKeywords(Preprocess(input)), lib.similarity)
                        && DetectIntent(cfg, input, lib)
                           == Detection(name, Score(cfg.intents[i], ExtractKeywords(Preprocess(input)), lib.similarity))
  {
  }

  /** When no table entry is named `default`, `detect_intent` reports
      `default` exactly when no shortcut fires and no fuzzy intent
      qualifies, and it is then reported with confidence 0.0. */
  lemma DefaultMeansNothingMatched(cfg: Config, input: string, lib: Library)
    requires forall i :: 0 <= i < |cfg.patterns| ==> cfg.patterns[i].intent != DefaultIntent
    requires forall j :: 0 <= j < |cfg.intents| ==> cfg.intents[j].name != DefaultIntent
    ensures var r := DetectIntent(cfg, input, lib);
      && (r.intent == DefaultIntent <==>
            && !ShortcutFires(cfg, Preprocess(input), lib.search)
            && NoneQualifies(cfg, ExtractKeywords(Preprocess(input)), lib.similarity))
      && (r.intent == DefaultIntent ==> r.confidence == 0.0)
  {
    var text := Preprocess(input);
    if ShortcutFires(cfg, text, lib.search) {
      var i :| IsFirstHit(cfg, i, text, lib.search) && cfg.patterns[i].intent != [];
      assert DetectIntent(cfg, input, lib).intent == cfg.patterns[i].intent;
    }
  }
}
