/**
  The shape of the chatbot's configuration. `CustomerServiceChatbot` loads
  four tables into instance attributes when it is constructed and never
  changes them: the regex shortcut table, the fuzzy intent table, the reply
  templates and the FAQ. The engine is stated for any tables of this shape;
  the tables the chatbot actually loads are `Catalog.Loaded`.
 */
module Tables {

  /** An intent reached by a regex shortcut, with its patterns as regex source text. */
  datatype PatternRule = PatternRule(intent: string, patterns: seq<string>)

  /** An intent of the fuzzy classifier: representative keywords and the
      least normalised score that selects it. */
  datatype IntentSpec = IntentSpec(name: string, keywords: seq<string>, threshold: real)

  datatype FaqEntry = FaqEntry(question: string, answer: string)

  /** The tables, each in declared order (Python dictionaries iterate in
      insertion order). */
  datatype Config = Config(
    patterns: seq<PatternRule>,
    intents: seq<IntentSpec>,
    responses: map<string, seq<string>>,
    faq: seq<FaqEntry>)

  /** The intent reported when nothing else is detected, and the key of its templates. */
  const DefaultIntent := "default"

  /** The intent whose reply may embed an extracted order number. */
  const OrderIntent := "order_inquiry"

  /** The key of the escalation offers among the templates. */
  const EscalationOfferKey := "escalation_offer"

  /** Confidence reported for a regex shortcut hit. */
  const PatternConfidence: real := 0.9

  /** A keyword pair contributes to an intent's score only above this similarity. */
  const KeywordSimilarityFloor: real := 0.8

  /** The best FAQ question must be strictly more similar than this. */
  const FaqSimilarityFloor: real := 0.6

  /** Consecutive unresolved turns after which escalation is offered. */
  const EscalationThreshold: nat := 3

  /** What reply generation needs of the templates so that it never fails:
      `responses['default']` and `responses['escalation_offer']` exist, and
      `random.choice` is never given an empty list. */
  predicate TemplatesComplete(responses: map<string, seq<string>>) {
    && DefaultIntent in responses
    && EscalationOfferKey in responses
    && forall k :: k in responses ==> |responses[k]| > 0
  }

  predicate WellFormed(cfg: Config) {
    TemplatesComplete(cfg.responses)
  }

  /** The default reply templates. */
  function DefaultTemplates(cfg: Config): (r: seq<string>)
    requires WellFormed(cfg)
    ensures |r| > 0
  {
    cfg.responses[DefaultIntent]
  }

  /** The escalation offers appended after repeated unresolved turns. */
  function EscalationOffers(cfg: Config): (r: seq<string>)
    requires WellFormed(cfg)
    ensures |r| > 0
  {
    cfg.responses[EscalationOfferKey]
  }

  /** No default template is as long as a default template followed by a
      space and an escalation offer, so escalated replies can be told apart. */
  predicate DistinctEscalations(responses: map<string, seq<string>>)
    requires TemplatesComplete(responses)
  {
    var d := responses[DefaultIntent];
    var e := responses[EscalationOfferKey];
    forall i, j, k :: 0 <= i < |d| && 0 <= j < |d| && 0 <= k < |e| ==> |d[i]| < |d[j]| + 1 + |e[k]|
  }

  predicate EscalationsDistinct(cfg: Config)
    requires WellFormed(cfg)
  {
    DistinctEscalations(cfg.responses)
  }

  /** Every shortcut names an intent that is non-empty (so it is not
      skipped as falsy) and is neither `default` nor `order_inquiry`. */
  predicate NamedShortcuts(patterns: seq<PatternRule>) {
    forall i :: 0 <= i < |patterns| ==>
      && patterns[i].intent != []
      && patterns[i].intent != DefaultIntent
      && patterns[i].intent != OrderIntent
  }

  /** No fuzzy intent is named `default`. */
  predicate NoDefaultIntent(intents: seq<IntentSpec>) {
    forall j :: 0 <= j < |intents| ==> intents[j].name != DefaultIntent
  }

  /** Every FAQ answer is non-empty (and so truthy). */
  predicate AnswersGiven(faq: seq<FaqEntry>) {
    forall i :: 0 <= i < |faq| ==> |faq[i].answer| > 0
  }

  /** The properties of the loaded tables that the engine's behaviour
      depends on. */
  predicate Coherent(cfg: Config) {
    && WellFormed(cfg)
    && EscalationsDistinct(cfg)
    && NamedShortcuts(cfg.patterns)
    && NoDefaultIntent(cfg.intents)
    && AnswersGiven(cfg.faq)
  }
}
