/**
  Facts about the tables the chatbot loads, and what the engine's general
  properties become for tables like them.
 */
module LoadedFacts {
  import opened Tables
  import opened Scoring
  import opened Normalize
  import opened Words
  import opened Keywords
  import opened FaqMatch
  import opened Intent
  import opened Respond
  import opened PatternTable
  import opened IntentTable
  import opened ResponseTable
  import opened FaqTable
  import opened Catalog

  /** The loaded tables have every property the engine's behaviour depends on. */
  lemma LoadedIsCoherent()
    ensures Coherent(Loaded)
  {
    ShortcutsNamed();
    IntentsNotDefault();
    ResponsesComplete();
    AnswersNonEmpty();
  }

  /** The loaded shortcut intents without templates are exactly
      `order_status`, `refund`, `shipping` and `human_agent`. */
  lemma TemplatelessShortcuts()
    ensures forall i :: 0 <= i < |Loaded.patterns| ==>
      (Templateless(Loaded, Loaded.patterns[i].intent) <==>
       Loaded.patterns[i].intent in {"order_status", "refund", "shipping", "human_agent"})
  {
    PatternIntentNames();
    ResponseKeys();
  }

  /** When every answer is non-empty, a FAQ miss means no question is close
      enough. */
  lemma FaqMissMeansNoneClose(cfg: Config, input: string, sim: (string, string) -> Ratio)
    requires AnswersGiven(cfg.faq)
    ensures FaqMiss(cfg, input, sim) <==> NoQuestionClose(cfg.faq, Preprocess(input), sim)
  {
    var r := CheckFaq(cfg.faq, input, sim);
    if r.Some? {
      var i :| BestQuestion(cfg.faq, i, Preprocess(input), sim) && r.value == cfg.faq[i].answer;
      assert |r.value| > 0;
    }
  }

  /** With named shortcuts and no fuzzy intent called `default`,
      `detect_intent` reports `default` exactly when no pattern matches and
      no fuzzy intent qualifies, and then with confidence 0.0. */
  lemma DefaultMeansNoMatch(cfg: Config, input: string, lib: Library)
    requires NamedShortcuts(cfg.patterns) && NoDefaultIntent(cfg.intents)
    ensures var r := DetectIntent(cfg, input, lib);
      && (r.intent == DefaultIntent <==>
            && NoRuleHits(cfg, Preprocess(input), lib.search)
            && NoneQualifies(cfg, ExtractKeywords(Preprocess(input)), lib.similarity))
      && (r.intent == DefaultIntent ==> r.confidence == 0.0)
  {
    DefaultMeansNothingMatched(cfg, input, lib);
    ShortcutFiresWhenAnyRuleHits(cfg, Preprocess(input), lib.search);
  }

  /** With named shortcuts, `order_inquiry` is a fuzzy intent only: when it
      is detected no pattern matched, and it won the scoring. */
  lemma OrderInquiryOnlyByScoring(cfg: Config, input: string, lib: Library)
    requires NamedShortcuts(cfg.patterns)
    requires DetectIntent(cfg, input, lib).intent == OrderIntent
    ensures NoRuleHits(cfg, Preprocess(input), lib.search)
    ensures exists i :: && Winner(cfg, i, ExtractKeywords(Preprocess(input)), lib.similarity)
                        && cfg.intents[i].name == OrderIntent
  {
    OnlyByScoring(cfg, input, lib, OrderIntent);
    ShortcutFiresWhenAnyRuleHits(cfg, Preprocess(input), lib.search);
  }

  /** A shortcut intent without templates, on a turn the FAQ does not
      answer, is given a default template, yet it clears the counter and
      does not escalate. */
  lemma TemplatelessShortcutLooksUnresolved(cfg: Config, i: int, input: string, unresolved: nat,
                                           sim: (string, string) -> Ratio, pick: Pick)
    requires Coherent(cfg)
    requires 0 <= i < |cfg.patterns| && Templateless(cfg, cfg.patterns[i].intent)
    requires FaqMiss(cfg, input, sim)
    ensures var r := GenerateResponse(cfg, cfg.patterns[i].intent, input, unresolved, sim, pick);
      r.text in DefaultTemplates(cfg) && r.unresolved == 0 && !IsEscalation(cfg, r.text)
  {
    TemplatelessIntentsLookUnresolved(cfg, cfg.patterns[i].intent, input, unresolved, sim, pick);
  }
}
