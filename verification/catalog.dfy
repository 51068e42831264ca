/**
  The tables `CustomerServiceChatbot` loads when it is constructed, exactly as
  written. Each table is a module of its own, so that a proof about one
  table does not carry the text of the others.
 */
module PatternTable {
  import opened Tables

  /** The regex shortcuts. Their intent names differ from the fuzzy table's:
      `order_status`, `refund`, `shipping` and `human_agent` here against
      `order_inquiry`, `refund_return`, `shipping_info` and
      `human_escalation` there. */
  const Patterns: seq<PatternRule> := [
    PatternRule("greeting", [
      "\\b(hi|hello|hey|good morning|good afternoon|good evening)\\b",
      "\\bgreetings\\b"]),
    PatternRule("goodbye", [
      "\\b(bye|goodbye|see you|farewell|exit|quit)\\b",
      "\\btalk to you later\\b"]),
    PatternRule("order_status", [
      "\\border\\b.*\\b(status|track|where|when)\\b",
      "\\btrack\\b.*\\border\\b",
      "\\bwhere is my order\\b",
      "\\border number\\b.*\\d+"]),
    PatternRule("refund", [
      "\\b(refund|money back|return|cancel order)\\b",
      "\\bget my money back\\b"]),
    PatternRule("shipping", [
      "\\b(shipping|delivery|ship|deliver)\\b",
      "\\bhow long.*deliver\\b",
      "\\bshipping cost\\b"]),
    PatternRule("product_info", [
      "\\bproduct\\b.*\\b(info|details|specification|features)\\b",
      "\\btell me about\\b",
      "\\bwhat is\\b.*\\bproduct\\b"]),
    PatternRule("complaint", [
      "\\b(complaint|problem|issue|wrong|broken|defective)\\b",
      "\\bnot working\\b",
      "\\bbad quality\\b"]),
    PatternRule("human_agent", [
      "\\b(human|agent|representative|person|talk to someone)\\b",
      "\\bspeak to.*person\\b"])
  ]

  lemma ShortcutsNamed()
    ensures NamedShortcuts(Patterns)
  {
    PatternIntentNames();
  }

  /** The intents the shortcuts name. */
  lemma PatternIntentNames()
    ensures forall i :: 0 <= i < |Patterns| ==>
      Patterns[i].intent in {"greeting", "goodbye", "order_status", "refund", "shipping", "product_info",
                             "complaint", "human_agent"}
  {
  }
}

module IntentTable {
  import opened Tables

  /** The fuzzy intents with their keywords and thresholds. */
  const Intents: seq<IntentSpec> := [
    IntentSpec("greeting",
      ["hello", "hi", "hey", "greetings", "good morning", "good afternoon"], 0.6),
    IntentSpec("order_inquiry",
      ["order", "track", "status", "delivery", "shipped", "tracking number"], 0.7),
    IntentSpec("product_info",
      ["product", "item", "features", "specifications", "details", "price"], 0.6),
    IntentSpec("refund_return",
      ["refund", "return", "money back", "cancel", "exchange"], 0.7),
    IntentSpec("shipping_info",
      ["shipping", "delivery", "cost", "time", "free shipping"], 0.6),
    IntentSpec("complaint",
      ["problem", "issue", "complaint", "broken", "defective", "wrong"], 0.7),
    IntentSpec("human_escalation",
      ["human", "agent", "representative", "person", "manager"], 0.8)
  ]

  lemma IntentsNotDefault()
    ensures NoDefaultIntent(Intents)
  {
    IntentNames();
  }

  /** The names of the fuzzy intents. */
  lemma IntentNames()
    ensures forall j :: 0 <= j < |Intents| ==>
      Intents[j].name in {"greeting", "order_inquiry", "product_info", "refund_return", "shipping_info",
                          "complaint", "human_escalation"}
  {
  }
}

module ResponseTable {
  import opened Tables

  /** The reply templates by intent, with the escalation offers. */
  const Responses: map<string, seq<string>> := map[
    "greeting" := [
      "Hello! Welcome to our customer service. How can I help you today?",
      "Hi there! I'm here to assist you with any questions or concerns.",
      "Good day! What can I help you with today?"],
    "goodbye" := [
      "Thank you for contacting us! Have a great day!",
      "Goodbye! Feel free to reach out if you need any more help.",
      "Take care! We're always here if you need assistance."],
    "order_inquiry" := [
      "I'd be happy to help you with your order! Could you please provide your order number?",
      "To check your order status, I'll need your order number. It usually starts with #ORD.",
      "Let me help you track your order. Please share your order number or email address."],
    "product_info" := [
      "I can help you with product information! Which product are you interested in?",
      "What specific product details would you like to know about?",
      "I'm here to help with product questions. What would you like to learn about?"],
    "refund_return" := [
      "I understand you'd like to return or get a refund. Let me help you with that process.",
      "I can assist you with returns and refunds. Could you tell me more about your order?",
      "Our return policy allows returns within 30 days. What item would you like to return?"],
    "shipping_info" := [
      "I can provide shipping information! What would you like to know?",
      "For shipping details, I can help! Are you asking about costs, delivery time, or tracking?",
      "We offer various shipping options. What specific shipping information do you need?"],
    "complaint" := [
      "I'm sorry to hear about the issue you're experiencing. Let me help resolve this for you.",
      "I apologize for any inconvenience. Could you please describe the problem in detail?",
      "I understand your concern and I'm here to help. What specific issue are you facing?"],
    "human_escalation" := [
      "I'll connect you with a human agent right away. Please hold on.",
      "Let me transfer you to one of our customer service representatives.",
      "I'm escalating your request to a human agent who can better assist you."],
    "default" := [
      "I understand your question, but I might need more information to help you better.",
      "Could you please rephrase that? I want to make sure I help you correctly.",
      "I'm not sure I fully understand. Could you provide more details?"],
    "escalation_offer" := [
      "I notice we haven't been able to resolve your issue yet. Would you like to speak with a human agent?",
      "Since I haven't been able to help you fully, would you prefer to talk to one of our representatives?",
      "I can connect you with a human agent who might better assist with your specific needs."]
  ]

  /** Of the shortcut intents, `greeting`, `goodbye`, `product_info` and
      `complaint` have templates and `order_status`, `refund`, `shipping`
      and `human_agent` do not; `default` and `escalation_offer` are there. */
  lemma ResponseKeys()
    ensures DefaultIntent in Responses && EscalationOfferKey in Responses
    ensures "greeting" in Responses && "goodbye" in Responses
    ensures "product_info" in Responses && "complaint" in Responses
    ensures "order_status" !in Responses && "refund" !in Responses
    ensures "shipping" !in Responses && "human_agent" !in Responses
  {
  }

  /** Every intent with templates has at least one. */
  lemma TemplatesNonEmpty()
    ensures forall k :: k in Responses ==> |Responses[k]| > 0
  {
  }

  lemma ResponsesComplete()
    ensures TemplatesComplete(Responses) && DistinctEscalations(Responses)
  {
    ResponseKeys();
    TemplatesNonEmpty();
    TemplateLengths();
  }

  /** Every default template is at most 81 characters long and every
      escalation offer at least 86. */
  lemma TemplateLengths()
    ensures forall i :: 0 <= i < |Responses[DefaultIntent]| ==> |Responses[DefaultIntent][i]| <= 81
    ensures forall j :: 0 <= j < |Responses[EscalationOfferKey]| ==> |Responses[EscalationOfferKey][j]| >= 86
  {
  }
}

module FaqTable {
  import opened Tables

  /** The canonical questions and their answers. */
  const Faq: seq<FaqEntry> := [
    FaqEntry("what are your business hours",
      "Our customer service is available Monday-Friday 9AM-6PM EST, and Saturday 10AM-4PM EST."),
    FaqEntry("how do i return an item",
      "You can return items within 30 days of purchase. Visit our returns page or I can help you start the process."),
    FaqEntry("what is your refund policy",
      "We offer full refunds within 30 days of purchase for unused items in original packaging."),
    FaqEntry("how much does shipping cost",
      "Standard shipping is $5.99, free on orders over $50. Express shipping is $12.99."),
    FaqEntry("how long does shipping take",
      "Standard shipping takes 3-5 business days, express shipping takes 1-2 business days."),
    FaqEntry("can i change my order",
      "If your order hasn't shipped yet, we can modify it. Please provide your order number."),
    FaqEntry("do you ship internationally",
      "Yes, we ship to most countries. International shipping costs vary by location."),
    FaqEntry("how do i track my order",
      "You can track your order using the tracking number sent to your email, or provide your order number here.")
  ]

  /** No answer is empty. */
  lemma AnswersNonEmpty()
    ensures AnswersGiven(Faq)
  {
  }
}

module Catalog {
  import opened Tables
  import opened PatternTable
  import opened IntentTable
  import opened ResponseTable
  import opened FaqTable

  /** The tables of a newly constructed chatbot. */
  const Loaded := Config(Patterns, Intents, Responses, Faq)
}
