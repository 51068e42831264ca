/**
  Reply generation (`generate_response`): a non-empty FAQ answer wins and
  resolves the conversation; an order inquiry that names an order number
  gets the order-status reply; otherwise a template of the intent is drawn,
  and the unresolved-turn counter decides whether a human agent is offered.

  `random.choice` is modelled by the indices of a `Pick`, taken modulo the
  length of the list drawn from.
 */
module Respond {
  import opened Options
  import opened Normalize
  import opened Tables
  import opened Scoring
  import opened FaqMatch
  import opened OrderNumber

  /** The outcomes of the two `random.choice` calls. */
  datatype Pick = Pick(template: nat, offer: nat)

  /** The reply text and the unresolved-turn counter after the turn. */
  datatype Reply = Reply(text: string, unresolved: nat)

  function Choose(list: seq<string>, k: nat): (r: string)
    requires |list| > 0
    ensures r in list
  {
    list[k % |list|]
  }

  /** `responses.get(intent, responses['default'])`: the intent's own
      templates when it has any, the default ones otherwise. */
  function TemplatesFor(cfg: Config, intent: string): (r: seq<string>)
    requires WellFormed(cfg)
    ensures |r| > 0
    ensures intent in cfg.responses ==> r == cfg.responses[intent]
    ensures intent !in cfg.responses ==> r == DefaultTemplates(cfg)
  {
    if intent in cfg.responses then cfg.responses[intent] else DefaultTemplates(cfg)
  }

  const OrderReplyPrefix := "I found order number "
  const OrderReplySuffix :=
    ". Let me check the status... Your order is currently being processed and will ship within 1-2 business days."

  /** The reply to an order inquiry that names an order number: the number
      sits verbatim between the fixed opening and the fixed status sentence. */
  function OrderReply(num: string): (r: string)
    ensures |r| == |OrderReplyPrefix| + |num| + |OrderReplySuffix|
    ensures r[..|OrderReplyPrefix|] == OrderReplyPrefix
    ensures r[|OrderReplyPrefix|..|r| - |OrderReplySuffix|] == num
    ensures r[|r| - |OrderReplySuffix|..] == OrderReplySuffix
  {
    OrderReplyPrefix + num + OrderReplySuffix
  }

  /** The order number an order reply was built from, if `text` is one. */
  function ParseOrderReply(text: string): (r: Option<string>)
    ensures r.Some? ==> OrderReply(r.value) == text
  {
    var n := |OrderReplyPrefix|;
    var m := |OrderReplySuffix|;
    if |text| >= n + m && text[..n] == OrderReplyPrefix && text[|text| - m..] == OrderReplySuffix then
      var num := text[n..|text| - m];
      Reassemble(text, n, |text| - m);
      Some(num)
    else
      None
  }

  lemma Reassemble(text: string, i: nat, j: nat)
    requires i <= j <= |text|
    ensures text == text[..i] + text[i..j] + text[j..]
  {
  }

  /** Building an order reply and parsing it back gives the number. */
  lemma OrderReplyRoundTrip(num: string)
    ensures ParseOrderReply(OrderReply(num)) == Some(num)
  {
  }

  /** Different order numbers give different replies. */
  lemma OrderReplyInjective(a: string, b: string)
    requires OrderReply(a) == OrderReply(b)
    ensures a == b
  {
    OrderReplyRoundTrip(a);
    OrderReplyRoundTrip(b);
  }

  /** `text` is a default template followed by a space and an escalation offer. */
  predicate IsEscalation(cfg: Config, text: string)
    requires WellFormed(cfg)
  {
    exists i, j :: 0 <= i < |DefaultTemplates(cfg)| && 0 <= j < |EscalationOffers(cfg)| &&
      text == DefaultTemplates(cfg)[i] + " " + EscalationOffers(cfg)[j]
  }

  /** When the templates keep escalations distinct, a default template alone
      never reads as an escalation. */
  lemma NoTemplateIsEscalation(cfg: Config, text: string)
    requires WellFormed(cfg) && EscalationsDistinct(cfg)
    requires text in DefaultTemplates(cfg)
    ensures !IsEscalation(cfg, text)
  {
  }

  /** The FAQ gives nothing usable: no question is close enough, or the
      answer found is empty (and so falsy). */
  predicate FaqMiss(cfg: Config, input: string, sim: (string, string) -> Ratio) {
    match CheckFaq(cfg.faq, input, sim)
    case None => true
    case Some(answer) => answer == []
  }

  /** The order-status reply applies: an order inquiry that names an order number. */
  predicate OrderPath(intent: string, input: string) {
    intent == OrderIntent && ExtractOrderNumber(input).Some?
  }

  /** `generate_response` for the detected `intent` of the raw `input`, with
      `unresolved` consecutive unresolved turns behind it.
      - a non-empty FAQ answer is returned and clears the counter;
      - an order inquiry naming an order number returns the order reply for
        that number and leaves the counter alone;
      - the default intent counts one more unresolved turn; from the
        threshold on the reply is a default template followed by an
        escalation offer, below it a plain default template;
      - any other intent draws one of its templates (the default ones when it
        has none) and clears the counter. */
  function GenerateResponse(cfg: Config, intent: string, input: string, unresolved: nat,
                            sim: (string, string) -> Ratio, pick: Pick): (r: Reply)
    requires WellFormed(cfg)
    ensures !FaqMiss(cfg, input, sim) ==>
      && r.unresolved == 0
      && r.text != []
      && exists i :: BestQuestion(cfg.faq, i, Preprocess(input), sim) && r.text == cfg.faq[i].answer
    ensures FaqMiss(cfg, input, sim) && OrderPath(intent, input) ==>
      && r.unresolved == unresolved
      && ParseOrderReply(r.text) == ExtractOrderNumber(input)
    ensures FaqMiss(cfg, input, sim) && intent == DefaultIntent ==>
      && r.unresolved == unresolved + 1
      && (r.unresolved >= EscalationThreshold ==> IsEscalation(cfg, r.text))
      && (r.unresolved < EscalationThreshold ==> r.text in DefaultTemplates(cfg))
      && (EscalationsDistinct(cfg) ==> (IsEscalation(cfg, r.text) <==> r.unresolved >= EscalationThreshold))
    ensures FaqMiss(cfg, input, sim) && intent != DefaultIntent && !OrderPath(intent, input) ==>
      && r.unresolved == 0
      && r.text in TemplatesFor(cfg, intent)
  {
    var faqResponse := CheckFaq(cfg.faq, input, sim);
    if faqResponse.Some? && faqResponse.value != [] then
      Reply(faqResponse.value, 0)
    else
      var num := if intent == OrderIntent then ExtractOrderNumber(input) else None;
      if num.Some? && num.value != [] then
        OrderReplyRoundTrip(num.value);
        Reply(OrderReply(num.value), unresolved)
      else
        var response := Choose(TemplatesFor(cfg, intent), pick.template);
        if intent == DefaultIntent then
          var count := unresolved + 1;
          if count >= EscalationThreshold then
            var d := DefaultTemplates(cfg);
            var e := EscalationOffers(cfg);
            var text := response + " " + Choose(e, pick.offer);
            assert text == d[pick.template % |d|] + " " + e[pick.offer % |e|];
            Reply(text, count)
          else
            assert EscalationsDistinct(cfg) ==> !IsEscalation(cfg, response) by {
              if EscalationsDistinct(cfg) {
                NoTemplateIsEscalation(cfg, response);
              }
            }
            Reply(response, count)
        else
          Reply(response, 0)
  }

  /** The counter grows exactly on a default turn the FAQ cannot answer;
      otherwise it is cleared or, on the order path, kept. */
  lemma CounterGrowsOnlyWhenUnresolved(cfg: Config, intent: string, input: string, unresolved: nat,
                                       sim: (string, string) -> Ratio, pick: Pick)
    requires WellFormed(cfg)
    ensures var r := GenerateResponse(cfg, intent, input, unresolved, sim, pick);
      && (r.unresolved > unresolved <==> FaqMiss(cfg, input, sim) && intent == DefaultIntent)
      && (r.unresolved == 0 || r.unresolved == unresolved || r.unresolved == unresolved + 1)
  {
  }

  /** An intent with no templates of its own. */
  predicate Templateless(cfg: Config, intent: string) {
    intent !in cfg.responses
  }

  /** An unanswered turn with an intent other than `default` that has no
      templates is answered with a default template, yet it clears the
      counter and, when escalations are distinct, never escalates. */
  lemma TemplatelessIntentsLookUnresolved(cfg: Config, intent: string, input: string, unresolved: nat,
                                          sim: (string, string) -> Ratio, pick: Pick)
    requires WellFormed(cfg) && EscalationsDistinct(cfg)
    requires Templateless(cfg, intent) && intent != OrderIntent && FaqMiss(cfg, input, sim)
    ensures var r := GenerateResponse(cfg, intent, input, unresolved, sim, pick);
      r.text in DefaultTemplates(cfg) && r.unresolved == 0 && !IsEscalation(cfg, r.text)
  {
    var r := GenerateResponse(cfg, intent, input, unresolved, sim, pick);
    assert intent != DefaultIntent;
    NoTemplateIsEscalation(cfg, r.text);
  }
}
