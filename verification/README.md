# Customer-service chatbot engine in Dafny

This project models the decision engine of `CustomerServiceChatbot` in
`chatbot.py` and proves properties about it. The engine turns one line of
user text and the conversation state into a reply and a new state:

- normalise the text (`preprocess_text`);
- extract its keywords (`extract_keywords`);
- detect an intent: first the regex shortcut table, then fuzzy keyword
  scoring against the intent table (`match_pattern`, `detect_intent`);
- answer from the FAQ when a question is similar enough (`check_faq`);
- answer an order inquiry that names an order number (`extract_order_number`);
- otherwise draw a template of the intent, and count consecutive unresolved
  turns so that a human agent is offered from the third one on
  (`generate_response`);
- log the turn; reset on request (`get_response`, `log_conversation`,
  `reset_conversation`).

The model is functional. The chatbot's mutable attributes form an immutable
`Session.State` that is threaded through pure functions. The parts the model
cannot see are parameters:

- `difflib.SequenceMatcher(...).ratio()` is `Library.similarity`, any
  function into the reals in [0, 1]. It is not assumed to be symmetric.
- `re.search` over the intent pattern table is `Library.search`, any
  predicate on (pattern text, input text). The patterns themselves are kept
  as text, exactly as written.
- `random.choice` is the pair of indices of a `Respond.Pick`, taken modulo
  the length of the list drawn from.
- `datetime.now().isoformat()` is an opaque `timestamp` string.

The three order-number regexes are small and fixed, so they are written out
as scanners (`OrderNumber`), with leftmost search, greedy runs, and the one
backtracking step that changes a result.

The engine is stated for any tables of the right shape (`Tables.Config`).
What it needs of them is written as predicates (`Tables.Coherent` and its
parts). The tables the chatbot loads are `Catalog.Loaded`, and
`LoadedFacts.LoadedIsCoherent` proves that they meet those predicates.

Files and modules:

| file | module | models |
|---|---|---|
| text.dfy | `Options`, `Text` | `Option`; ASCII character classes, `str.lower`, `str.strip` |
| normalize.dfy | `Normalize` | `preprocess_text` |
| keywords.dfy | `StopWordList`, `Words`, `Keywords` | the stop words; `str.split` and `" ".join`; `extract_keywords` |
| tables.dfy | `Tables` | the shape of the four tables; the fixed thresholds; what the engine needs of the tables |
| catalog.dfy | `PatternTable`, `IntentTable`, `ResponseTable`, `FaqTable`, `Catalog` | the tables as the chatbot loads them |
| scoring.dfy | `Scoring` | the strict running-maximum loop shared by `detect_intent` and `check_faq` |
| intent.dfy | `Intent` | `match_pattern`, `detect_intent` |
| faq.dfy | `FaqMatch` | `check_faq` |
| order.dfy | `OrderNumber` | `extract_order_number` |
| order_examples.dfy | `OrderExamples` | worked inputs of the order-number extractor |
| respond.dfy | `Respond` | `generate_response` |
| session.dfy | `Session` | `log_conversation`, `get_response`, `get_conversation_history`, `reset_conversation`, and multi-turn conversations |
| loaded.dfy | `LoadedFacts` | what the engine's properties become for the loaded tables |

## Behaviour worth knowing

- The normaliser is not idempotent. It deletes disallowed characters after
  collapsing whitespace, so `"a - b"` becomes `"a  b"`, and a second pass
  gives `"a b"` (`Normalize.NotIdempotent`). It is idempotent when it
  deletes nothing (`Normalize.IdempotentWhenNothingDeleted`).
- The score of an intent is divided by the length of its own keyword list,
  matched or not. An intent's keywords that the user's words do not come
  near still dilute its score (`Intent.ScoreDilutes`), so an intent with a
  long keyword list needs more matches to reach its threshold.
- An order inquiry that names an order number returns early. This leaves the
  unresolved counter as it was; it does not reset it to 0
  (chatbot.py:243-246).
- The regex table and the fuzzy table name intents differently. The regex
  intents `order_status`, `refund`, `shipping` and `human_agent` have no
  templates. A turn detected as one of them is answered with a default
  template ("Could you please rephrase that?"), but the turn counts as
  resolved and clears the counter (`LoadedFacts.TemplatelessShortcuts`, `LoadedFacts.TemplatelessShortcutLooksUnresolved`).
- `order_inquiry` is never produced by a regex shortcut
  (`LoadedFacts.OrderInquiryOnlyByScoring`). So the order-status reply needs the
  fuzzy classifier to pick `order_inquiry`. A text such as
  `"order number 123456"` hits the `order_status` shortcut first.
- The code tests results for truth, not for presence. A regex rule whose
  intent name is empty, or an FAQ answer that is empty, is falsy and falls
  through to fuzzy scoring or to the templates (`Intent.ShortcutFires`,
  `Respond.FaqMiss`). The loaded tables have neither, so for them a regex
  hit always decides and an FAQ match always answers.
- An escalated reply can be told from a plain one only because every
  default template is shorter than any template followed by a space and an
  offer (`Tables.DistinctEscalations`). The properties that say a reply
  escalates exactly when the count reaches 3 assume this of the templates.
- Pattern (a) of the order extractor is searched over the whole text before
  pattern (b). So in `"my order number is ORD12345"` the code `ORD12345` is
  reported, not the word `is` that (b) alone would give
  (`OrderExamples.OrderSentence`).

## Model

| member | source | states |
|---|---|---|
| Text.Strip | chatbot.py:156 | `str.strip` keeps a slice of the input with no whitespace at either end; it is empty exactly when the input is all whitespace; it is the input itself when neither end is whitespace |
| Text.Lower | chatbot.py:156 | `str.lower` keeps the length, maps each ASCII upper-case letter to its lower-case letter and keeps every other character, so no upper-case letter remains |
| Text.LowerIdempotent | chatbot.py:156 | lower-casing twice is lower-casing once |
| Text.StripKeeps | chatbot.py:156 | stripping only removes characters: a property of every input character holds of every output character |
| Normalize.CollapseBlanks | chatbot.py:157 | after `re.sub(r'\s+', ' ', ...)` the only whitespace is `' '`, never two in a row |
| Normalize.CollapseSpaces | chatbot.py:157 | `re.sub(r'\s+', ' ', ...)` never lengthens the text, empties only empty text, and turns a leading whitespace run into `' '` while keeping a leading non-space character |
| Normalize.CollapseLast | chatbot.py:157 | non-empty text collapses to non-empty text that ends in `' '` when the input ends in whitespace and in the input's last character otherwise |
| Normalize.CollapseSplit | chatbot.py:157 | the collapse keeps the whitespace-separated tokens: `str.split()` gives the same tokens before and after |
| Normalize.CollapseMatchesReference | chatbot.py:157 | the collapse equals an independent description: the tokens joined by single spaces, with one space before them when the input starts with whitespace and one after when it ends with whitespace; all-whitespace text becomes one space |
| Normalize.CollapseKeeps | chatbot.py:157 | every output character is a space or an input character with the same property |
| Normalize.CollapseFixesSingleSpaced | chatbot.py:157 | text whose whitespace is single `' '` characters is unchanged by the collapse |
| Normalize.DeleteUnkept | chatbot.py:158 | only word characters, whitespace, `?`, `!`, `.` survive; nothing is removed from text made of those |
| Normalize.DeleteFilters | chatbot.py:158 | deletion keeps a subsequence of the input in which every kept character occurs as often as in the input and no other character occurs |
| Normalize.DeleteKeeps | chatbot.py:158 | deletion only removes characters: a property of every input character holds of every output character |
| Normalize.Preprocess | chatbot.py:155-159 | the output has no upper-case letter and only word characters, spaces, `?`, `!`, `.`; whitespace-only input gives empty output |
| Normalize.FixesCanonical | chatbot.py:155-159 | canonical text (normal characters, no space at either end, no two spaces in a row) is a fixed point of the normaliser |
| Normalize.CanonicalWhenNothingDeleted | chatbot.py:155-159 | when every input character survives deletion, the output is canonical |
| Normalize.IdempotentWhenNothingDeleted | chatbot.py:155-159 | normalising twice equals normalising once when the input loses no character to deletion |
| Normalize.NotIdempotent | chatbot.py:155-159 | the normaliser is not idempotent in general: `"a - b"` gives `"a  b"`, and normalising that again changes it |
| Words.Split | chatbot.py:172 | `str.split()` yields non-empty whitespace-free tokens, and none exactly when the text is all whitespace |
| Words.SplitAtSpace | chatbot.py:172 | any whitespace character separates: the tokens of `a + [c] + b` are those of `a` followed by those of `b` |
| Words.SplitToken | chatbot.py:172 | a non-empty whitespace-free text splits into itself alone |
| Words.SplitIgnoresLeadingSpace | chatbot.py:172 | leading whitespace does not change the tokens |
| Words.SplitJoin | chatbot.py:172 | splitting tokens joined by single spaces gives back the tokens |
| Words.JoinSplit | chatbot.py:172 | joining the tokens of single-spaced text with single spaces gives back the text |
| Keywords.KeepKeywords | chatbot.py:173 | the filter keeps exactly the tokens that are not stop words and longer than two characters, with their multiplicities, as a subsequence |
| Keywords.ExtractKeywords | chatbot.py:161-174 | the keywords are exactly the split tokens that are not stop words and are longer than two characters, with multiplicities and in order; whitespace-only text has none |
| PatternTable.ShortcutsNamed | chatbot.py:17-55 | every regex shortcut names a non-empty intent that is neither `default` nor `order_inquiry` |
| PatternTable.PatternIntentNames | chatbot.py:17-55 | the regex shortcut intents are the eight names of the table |
| IntentTable.IntentsNotDefault | chatbot.py:57-87 | no fuzzy intent is called `default` |
| ResponseTable.ResponseKeys | chatbot.py:89-141 | templates exist for `default`, `escalation_offer`, `greeting`, `goodbye`, `product_info`, `complaint`, and none for `order_status`, `refund`, `shipping`, `human_agent` |
| ResponseTable.TemplatesNonEmpty | chatbot.py:89-141 | no template list is empty, so `random.choice` never fails |
| ResponseTable.TemplateLengths | chatbot.py:131-140 | every default template is at most 81 characters long and every escalation offer at least 86 |
| ResponseTable.ResponsesComplete | chatbot.py:89-141 | the templates reply generation needs exist and are non-empty, and a default template is never as long as an escalated reply |
| FaqTable.AnswersNonEmpty | chatbot.py:143-153 | every FAQ answer is non-empty |
| LoadedFacts.LoadedIsCoherent | chatbot.py:14-153 | the loaded tables meet everything the engine's behaviour depends on |
| LoadedFacts.TemplatelessShortcuts | chatbot.py:17-141 | the regex shortcut intents without templates are exactly `order_status`, `refund`, `shipping` and `human_agent` |
| Scoring.BestIndex | chatbot.py:192-207 | the strict running maximum from 0.0 ends with no index exactly when no eligible score is positive, else with the earliest eligible index of greatest score |
| Intent.FirstHitFrom | chatbot.py:180-184 | the first rule at or after a position with a matching pattern; none exactly when no later rule matches |
| Intent.MatchPattern | chatbot.py:179-184 | the intent of the first rule in declared order with any matching pattern; none exactly when no pattern of any rule matches |
| Intent.ShortcutFiresWhenAnyRuleHits | chatbot.py:189-191 | when every rule names a non-empty intent, the shortcut decides the intent exactly when some pattern matches |
| Intent.FirstHitUnique | chatbot.py:180-183 | at most one rule is the first to match |
| Intent.RowSum | chatbot.py:198-201 | the sum for one user keyword lies in [0, number of intent keywords] and is positive exactly when some pair similarity exceeds 0.8 |
| Intent.PairSum | chatbot.py:196-201 | the pair sum is non-negative and positive exactly when some keyword pair is more than 0.8 similar |
| Intent.RowSumSingle | chatbot.py:198-201 | one keyword pair adds its similarity when it is above 0.8 and nothing otherwise |
| Intent.RowSumAppend | chatbot.py:198-201 | the row sum over a split list of intent keywords is the sum of the row sums of the parts |
| Intent.PairSumSingle | chatbot.py:197-201 | one user keyword adds its row sum over the intent keywords |
| Intent.PairSumAppendUser | chatbot.py:197-201 | the pair sum over a split list of user keywords is the sum over the parts |
| Intent.PairSumAppendIntent | chatbot.py:197-201 | the pair sum over a split list of intent keywords is the sum over the parts |
| Intent.PairSumFar | chatbot.py:197-201 | intent keywords that no user keyword is more than 0.8 similar to add nothing to the pair sum |
| Intent.ScoreDilutes | chatbot.py:195-203 | the score is the pair sum over the matched intent keywords divided by the length of the whole intent keyword list, unmatched ones included |
| Intent.Score | chatbot.py:195-203 | the normalised score is non-negative and positive exactly when some keyword pair is more than 0.8 similar |
| Intent.Classify | chatbot.py:192-209 | `("default", 0.0)` exactly when no intent has a positive score reaching its threshold; otherwise the earliest qualifying intent of greatest score, reported with that score |
| Intent.WinnerUnique | chatbot.py:205-207 | at most one intent wins the scoring |
| Intent.DetectIntent | chatbot.py:186-209 | a regex hit on the normalised text whose intent is non-empty gives that intent with confidence 0.9; otherwise the fuzzy classifier's answer on the keywords of the normalised text |
| Intent.Decide | chatbot.py:189-209 | on normalised text: a regex hit whose intent is non-empty gives that intent with confidence 0.9; otherwise the fuzzy classifier's answer on the keywords |
| Intent.OnlyByScoring | chatbot.py:186-209 | an intent that no regex rule names, when detected, won the fuzzy scoring and is reported with its score |
| Intent.DefaultMeansNothingMatched | chatbot.py:186-209 | when no table names `default`, it is detected exactly when no shortcut fires and no fuzzy intent qualifies, and then with confidence 0.0 |
| LoadedFacts.DefaultMeansNoMatch | chatbot.py:186-209 | for tables like the loaded ones, `default` is detected exactly when no pattern matches at all and no fuzzy intent qualifies |
| LoadedFacts.OrderInquiryOnlyByScoring | chatbot.py:186-209 | for tables like the loaded ones, whenever `order_inquiry` is detected no pattern matched and it won the fuzzy scoring |
| FaqMatch.BestFaqIndex | chatbot.py:214-221 | the index the FAQ loop settles on: none exactly when no question is more than 0.6 similar, else the earliest most similar question |
| FaqMatch.CheckFaq | chatbot.py:211-223 | an answer exactly when some question is more than 0.6 similar to the normalised input; it is the answer of the earliest most similar question |
| FaqMatch.BestQuestionUnique | chatbot.py:217-221 | at most one question is the best match |
| LoadedFacts.FaqMissMeansNoneClose | chatbot.py:239-242 | when every answer is non-empty, the FAQ fails to answer exactly when no question is more than 0.6 similar |
| OrderNumber.RunEnd | chatbot.py:227-229 | a greedy run: every character before the end is of the class, and the character at the end is not |
| OrderNumber.MatchOrdCode | chatbot.py:227 | `#?ORD\d+` at a position: the longest matching prefix, and none exactly when no prefix matches |
| OrderNumber.OrdCodeLongest | chatbot.py:227 | the greedy digit run gives a match, and no longer prefix matches |
| OrderNumber.HashWord | chatbot.py:228 | `#?(\w+)` after whitespace matches exactly when a word, optionally after `#`, starts there; the group is a whole word run |
| OrderNumber.AfterOrder | chatbot.py:228 | `order\s+` consumes the whole whitespace run after `order` |
| OrderNumber.MatchOrderRef | chatbot.py:228 | `order\s+(?:number\s+)?#?(\w+)` matches exactly when `order`, whitespace and a word follow; the group is the word after `number` when one follows it, else the word right after `order` |
| OrderNumber.MatchHashDigits | chatbot.py:229 | `#(\d{6,})` at a position: the group holds at least six digits and is the longest; none exactly when no prefix matches |
| OrderNumber.Leftmost | chatbot.py:233 | `re.search` finds the leftmost matching position, and none exactly when no position matches |
| OrderNumber.LeftmostIsFound | chatbot.py:233 | the search from the start fails exactly when the pattern is absent, and finds the first matching position otherwise |
| OrderNumber.Search | chatbot.py:233-235 | one pattern's search: none exactly when it matches nowhere, else the leftmost match reported by group (or whole), never empty |
| OrderNumber.ExtractOrderNumber | chatbot.py:225-236 | pattern (a) anywhere beats (b), which beats (c); each reports its leftmost match, (a) whole and (b), (c) by group; none exactly when no pattern matches; a result is never empty |
| OrderExamples.HashOrdCode | chatbot.py:227 | `"#ORD7"` reports `"#ORD7"`: pattern (a) keeps the `#` |
| OrderExamples.HashDigitsOnly | chatbot.py:229 | `"#123456"` reports `"123456"`: pattern (c) drops the `#` |
| OrderExamples.OrderSentence | chatbot.py:225-236 | `"my order number is ORD12345"` reports `"ORD12345"`: pattern (a) is searched over the whole text before (b) |
| Respond.Choose | chatbot.py:248-252 | `random.choice` returns an element of the list it draws from |
| Respond.TemplatesFor | chatbot.py:247 | an intent's own templates when it has any, the default ones otherwise; never empty |
| Respond.OrderReply | chatbot.py:246 | the order reply is the fixed opening, the order number verbatim, then the fixed status sentence |
| Respond.OrderReplyInjective | chatbot.py:246 | different order numbers give different order replies |
| Respond.ParseOrderReply | chatbot.py:246 | a parsed order number rebuilds the reply it came from |
| Respond.OrderReplyRoundTrip | chatbot.py:246 | the order number can be read back from the order reply built for it |
| Respond.NoTemplateIsEscalation | chatbot.py:249-253 | when escalations are distinct, a default template alone is never a default template followed by an escalation offer |
| Respond.GenerateResponse | chatbot.py:238-257 | a non-empty FAQ answer is returned and clears the counter; an order inquiry naming a number gets the order reply for it and keeps the counter; `default` adds one and escalates exactly when the count reaches 3, a plain default template below; any other intent draws its templates and clears the counter |
| Respond.CounterGrowsOnlyWhenUnresolved | chatbot.py:238-257 | the counter grows exactly on a default turn the FAQ cannot answer, and otherwise is cleared or kept |
| Respond.TemplatelessIntentsLookUnresolved | chatbot.py:247-255 | an unanswered turn with a non-default intent that has no templates gets a default template, yet clears the counter and never escalates |
| LoadedFacts.TemplatelessShortcutLooksUnresolved | chatbot.py:247-255 | for tables like the loaded ones, an unanswered turn detected as a templateless shortcut intent gets a default template, clears the counter and never escalates |
| Session.LogConversation | chatbot.py:259-267 | exactly one turn with the given fields is appended; earlier turns, context and counter are unchanged |
| Session.GetResponse | chatbot.py:269-275 | blank input returns the fixed prompt and changes nothing; other input returns the generated reply and logs exactly one turn with the detection and reply, keeping earlier turns |
| Session.HistoryRecordsTurns | chatbot.py:267-278 | the history after a turn is the history before it, plus exactly one entry with the message, reply, intent and confidence when the message is not blank |
| Session.Reset | chatbot.py:280-283 | afterwards the history is empty, the context empty and the counter 0 |
| Session.ResetForgetsThePast | chatbot.py:269-283 | after a reset the next turn does not depend on the earlier state, and the history holds only that turn, or nothing for blank input |
| Session.ConverseAppends | chatbot.py:259-275 | a conversation appends one turn per non-blank message, keeps earlier turns and never touches the context |
| Session.UnresolvedTurn | chatbot.py:249-253 | an unresolvable turn adds one to the counter and escalates exactly when the new count reaches 3 |
| Session.UnresolvedTurnsAccumulate | chatbot.py:249-250 | `k` unresolvable turns in a row add `k` to the counter |
| Session.UnresolvedRepliesEscalate | chatbot.py:249-253 | in a run of unresolvable turns, reply `k` escalates exactly when the starting count plus `k + 1` reaches 3, and is a plain default template below |
| Session.ThirdUnresolvedTurnEscalates | chatbot.py:249-253 | from a cleared counter, three unresolvable turns give two plain default templates and then an escalation |
| Session.ResolvedTurnClearsCounter | chatbot.py:240-255 | a turn answered by the FAQ or by a non-default intent, other than an order reply, clears the counter |

## Left out

- The `main()` read-print loop, terminal I/O and its exception handling (chatbot.py:285-320): interaction, not decision logic.
- `difflib.SequenceMatcher` (chatbot.py:176-177): a library whose code is not part of this model; it is the `similarity` parameter.
- The `re` engine for the intent pattern table (chatbot.py:182): it is the `search` parameter. The order-number patterns are modelled in full.
- `random.choice` (chatbot.py:248, 252): replaced by the indices of a `Pick`.
- `datetime.now()` (chatbot.py:261): replaced by a `timestamp` parameter.
- Floating-point rounding in the score sums and divisions: scores are exact reals.
- Unicode: character classes (`\s`, `\w`, `\d`, `str.isspace`) and `str.lower` are modelled on ASCII only. `Text.IsSpace` covers codes 9-13 and 28-32, as Python's classes do on ASCII.
- The contents of `user_context`, which the code only ever resets, and the unused `json` import.
- `get_conversation_history` returns the history list itself; the model returns the sequence (`Session.History`), so later appends are not visible through an earlier result.
- GenerateResponse, GetResponse: require `Tables.WellFormed` of the tables, so the `KeyError` of `self.responses['default']` and `self.responses['escalation_offer']` and the `IndexError` of `random.choice` on an empty list (chatbot.py:247-252) are not modelled for malformed tables. The loaded tables are well formed (`LoadedFacts.LoadedIsCoherent`), so no reachable behaviour is lost.
