/**
  The conversation state of `CustomerServiceChatbot` and its public entry
  points: `get_response`, `log_conversation`, `get_conversation_history`
  and `reset_conversation`.

  The clock read by `log_conversation` is a `timestamp` parameter, and the
  random draws of a turn are a `Pick`.
 */
module Session {
  import opened Text
  import opened Tables
  import opened Intent
  import opened Respond

  /** One logged exchange. */
  datatype Turn = Turn(timestamp: string, userInput: string, botResponse: string,
                       detectedIntent: string, confidence: real)

  /** The mutable attributes of the chatbot: the history, the (unused) user
      context, and the number of consecutive unresolved turns. */
  datatype State = State(history: seq<Turn>, context: map<string, string>, unresolved: nat)

  /** The state of a freshly constructed chatbot. */
  const Initial := State([], map[], 0)

  const EmptyInputPrompt := "I didn't receive any input. How can I help you today?"

  /** What one call of `get_response` returns, with the state it leaves. */
  datatype Outcome = Outcome(reply: string, state: State)

  /** `log_conversation`: one turn is appended and nothing else changes. */
  function LogConversation(st: State, input: string, response: string, intent: string,
                           confidence: real, timestamp: string): (r: State)
    ensures |r.history| == |st.history| + 1
    ensures r.history[..|st.history|] == st.history
    ensures r.history[|st.history|] == Turn(timestamp, input, response, intent, confidence)
    ensures r.context == st.context && r.unresolved == st.unresolved
  {
    st.(history := st.history + [Turn(timestamp, input, response, intent, confidence)])
  }

  /** `get_response`: blank input is answered with a prompt and leaves the
      state alone; any other input is classified, answered by
      `GenerateResponse` on the raw input, and logged as exactly one new
      turn carrying the detection and the reply. */
  function GetResponse(cfg: Config, st: State, input: string, lib: Library, pick: Pick, timestamp: string): (r: Outcome)
    requires WellFormed(cfg)
    ensures AllSpace(input) ==> r == Outcome(EmptyInputPrompt, st)
    ensures !AllSpace(input) ==>
      var d := DetectIntent(cfg, input, lib);
      var g := GenerateResponse(cfg, d.intent, input, st.unresolved, lib.similarity, pick);
      && r.reply == g.text
      && r.state.unresolved == g.unresolved
      && r.state.context == st.context
      && |r.state.history| == |st.history| + 1
      && r.state.history[..|st.history|] == st.history
      && r.state.history[|st.history|] == Turn(timestamp, input, r.reply, d.intent, d.confidence)
  {
    if Strip(input) == [] then
      Outcome(EmptyInputPrompt, st)
    else
      var d := DetectIntent(cfg, input, lib);
      var g := GenerateResponse(cfg, d.intent, input, st.unresolved, lib.similarity, pick);
      var logged := LogConversation(st.(unresolved := g.unresolved), input, g.text, d.intent, d.confidence, timestamp);
      Outcome(g.text, logged)
  }

  /** `get_conversation_history`. */
  function History(st: State): seq<Turn> {
    st.history
  }

  /** The history is the log of answered turns: a blank message leaves it
      as it was, any other message appends exactly one entry holding the
      message, the reply, and the detected intent and confidence. */
  lemma HistoryRecordsTurns(cfg: Config, st: State, input: string, lib: Library, pick: Pick, timestamp: string)
    requires WellFormed(cfg)
    ensures var r := GetResponse(cfg, st, input, lib, pick, timestamp);
      var d := DetectIntent(cfg, input, lib);
      History(r.state) == if AllSpace(input) then History(st)
                          else History(st) + [Turn(timestamp, input, r.reply, d.intent, d.confidence)]
  {
    var r := GetResponse(cfg, st, input, lib, pick, timestamp);
    if !AllSpace(input) {
      var h := r.state.history;
      assert h == h[..|st.history|] + [h[|st.history|]];
    }
  }

  /** `reset_conversation`. */
  function Reset(st: State): (r: State)
    ensures History(r) == [] && r.context == map[] && r.unresolved == 0
  {
    Initial
  }

  /** After a reset the next turn does not depend on anything that came
      before: two chatbots, however different their past, answer alike. */
  lemma ResetForgetsThePast(cfg: Config, a: State, b: State, input: string, lib: Library, pick: Pick, timestamp: string)
    requires WellFormed(cfg)
    ensures GetResponse(cfg, Reset(a), input, lib, pick, timestamp) == GetResponse(cfg, Reset(b), input, lib, pick, timestamp)
    ensures var r := GetResponse(cfg, Reset(a), input, lib, pick, timestamp);
      var d := DetectIntent(cfg, input, lib);
      History(r.state) == if AllSpace(input) then [] else [Turn(timestamp, input, r.reply, d.intent, d.confidence)]
  {
    HistoryRecordsTurns(cfg, Reset(a), input, lib, pick, timestamp);
  }

  // ---------------------------------------------------------------------------
  // Conversations

  /** One user message with the random draws and the clock reading of its turn. */
  datatype Message = Message(input: string, pick: Pick, timestamp: string)

  /** A conversation: `get_response` called on each message in order. */
  function Converse(cfg: Config, st: State, msgs: seq<Message>, lib: Library): (r: (seq<string>, State))
    requires WellFormed(cfg)
    ensures |r.0| == |msgs|
    decreases |msgs|
  {
    if |msgs| == 0 then ([], st)
    else
      var o := GetResponse(cfg, st, msgs[0].input, lib, msgs[0].pick, msgs[0].timestamp);
      var rest := Converse(cfg, o.state, msgs[1..], lib);
      ([o.reply] + rest.0, rest.1)
  }

  /** The number of messages that are not blank. */
  function Answered(msgs: seq<Message>): (n: nat)
    ensures n <= |msgs|
  {
    if |msgs| == 0 then 0 else (if AllSpace(msgs[0].input) then 0 else 1) + Answered(msgs[1..])
  }

  /** A conversation only appends to the history, one turn per non-blank
      message, and never touches the user context. */
  lemma {:induction false} ConverseAppends(cfg: Config, st: State, msgs: seq<Message>, lib: Library)
    requires WellFormed(cfg)
    ensures var r := Converse(cfg, st, msgs, lib);
      && |r.1.history| == |st.history| + Answered(msgs)
      && r.1.history[..|st.history|] == st.history
      && r.1.context == st.context
    decreases |msgs|
  {
    if |msgs| > 0 {
      var o := GetResponse(cfg, st, msgs[0].input, lib, msgs[0].pick, msgs[0].timestamp);
      ConverseAppends(cfg, o.state, msgs[1..], lib);
      var r := Converse(cfg, o.state, msgs[1..], lib);
      assert r.1.history[..|o.state.history|] == o.state.history;
      assert o.state.history[..|st.history|] == st.history;
      assert r.1.history[..|st.history|] == r.1.history[..|o.state.history|][..|st.history|];
    }
  }

  /** The input is answered by neither the FAQ nor any intent: the turn
      counts as unresolved. */
  predicate Unresolvable(cfg: Config, input: string, lib: Library) {
    && !AllSpace(input)
    && FaqMiss(cfg, input, lib.similarity)
    && DetectIntent(cfg, input, lib).intent == DefaultIntent
  }

  /** `reply` is what an unresolved turn that brings the counter to `count`
      may say: an escalation exactly when `count` reaches the threshold, and
      a plain default template below it. */
  predicate FitsCount(cfg: Config, reply: string, count: nat)
    requires WellFormed(cfg)
  {
    && (IsEscalation(cfg, reply) <==> count >= EscalationThreshold)
    && (count < EscalationThreshold ==> reply in DefaultTemplates(cfg))
  }

  /** One unresolvable turn: the counter goes up by one, and the reply
      offers a human agent exactly when the new count reaches the
      threshold; below it the reply is a plain default template. */
  lemma UnresolvedTurn(cfg: Config, st: State, m: Message, lib: Library)
    requires WellFormed(cfg) && EscalationsDistinct(cfg)
    requires Unresolvable(cfg, m.input, lib)
    ensures var o := GetResponse(cfg, st, m.input, lib, m.pick, m.timestamp);
      && o.state.unresolved == st.unresolved + 1
      && FitsCount(cfg, o.reply, st.unresolved + 1)
  {
  }

  /** Every message of `msgs` is unresolvable. */
  predicate AllUnresolvable(cfg: Config, msgs: seq<Message>, lib: Library) {
    forall k :: 0 <= k < |msgs| ==> Unresolvable(cfg, msgs[k].input, lib)
  }

  lemma AllUnresolvableTail(cfg: Config, msgs: seq<Message>, lib: Library)
    requires AllUnresolvable(cfg, msgs, lib) && |msgs| > 0
    ensures Unresolvable(cfg, msgs[0].input, lib) && AllUnresolvable(cfg, msgs[1..], lib)
  {
    assert forall k :: 0 <= k < |msgs| - 1 ==> msgs[1..][k] == msgs[k + 1];
  }

  /** Every unresolvable message adds one to the counter. */
  lemma {:induction false} UnresolvedTurnsAccumulate(cfg: Config, st: State, msgs: seq<Message>, lib: Library)
    requires WellFormed(cfg)
    requires AllUnresolvable(cfg, msgs, lib)
    ensures Converse(cfg, st, msgs, lib).1.unresolved == st.unresolved + |msgs|
    decreases |msgs|
  {
    if |msgs| > 0 {
      AllUnresolvableTail(cfg, msgs, lib);
      var o := GetResponse(cfg, st, msgs[0].input, lib, msgs[0].pick, msgs[0].timestamp);
      assert o.state.unresolved == st.unresolved + 1;
      UnresolvedTurnsAccumulate(cfg, o.state, msgs[1..], lib);
    }
  }

  /** Reply `k` of `replies` fits the count `base + k + 1`. */
  predicate FitsFrom(cfg: Config, replies: seq<string>, base: nat)
    requires WellFormed(cfg)
  {
    forall k :: 0 <= k < |replies| ==> FitsCount(cfg, replies[k], base + k + 1)
  }

  /** In a run of unresolvable messages, reply `k` offers a human agent
      exactly when the count before the run plus `k + 1` reaches the
      threshold, and is a plain default template below it. */
  lemma {:induction false} UnresolvedRepliesEscalate(cfg: Config, st: State, msgs: seq<Message>, lib: Library)
    requires WellFormed(cfg) && EscalationsDistinct(cfg)
    requires AllUnresolvable(cfg, msgs, lib)
    ensures FitsFrom(cfg, Converse(cfg, st, msgs, lib).0, st.unresolved)
    decreases |msgs|
  {
    if |msgs| > 0 {
      AllUnresolvableTail(cfg, msgs, lib);
      var o := GetResponse(cfg, st, msgs[0].input, lib, msgs[0].pick, msgs[0].timestamp);
      UnresolvedTurn(cfg, st, msgs[0], lib);
      UnresolvedRepliesEscalate(cfg, o.state, msgs[1..], lib);
      var rest := Converse(cfg, o.state, msgs[1..], lib);
      FitsAfterFirst(cfg, o.reply, rest.0, st.unresolved);
    }
  }

  /** The counts of a run shift by one after its first reply. */
  lemma FitsAfterFirst(cfg: Config, first: string, rest: seq<string>, base: nat)
    requires WellFormed(cfg)
    requires FitsCount(cfg, first, base + 1)
    requires FitsFrom(cfg, rest, base + 1)
    ensures FitsFrom(cfg, [first] + rest, base)
  {
    var replies := [first] + rest;
    forall k | 0 <= k < |replies|
      ensures FitsCount(cfg, replies[k], base + k + 1)
    {
      if k > 0 {
        assert replies[k] == rest[k - 1];
      }
    }
  }

  /** From a fresh or reset chatbot (or one whose last turn was resolved), three unresolvable messages in a row:
      the first two replies are plain default templates, and the third
      offers a human agent. */
  lemma ThirdUnresolvedTurnEscalates(cfg: Config, st: State, msgs: seq<Message>, lib: Library)
    requires WellFormed(cfg) && EscalationsDistinct(cfg)
    requires st.unresolved == 0 && |msgs| == 3
    requires AllUnresolvable(cfg, msgs, lib)
    ensures var r := Converse(cfg, st, msgs, lib);
      && r.0[0] in DefaultTemplates(cfg) && !IsEscalation(cfg, r.0[0])
      && r.0[1] in DefaultTemplates(cfg) && !IsEscalation(cfg, r.0[1])
      && IsEscalation(cfg, r.0[2])
      && r.1.unresolved == 3
  {
    UnresolvedTurnsAccumulate(cfg, st, msgs, lib);
    UnresolvedRepliesEscalate(cfg, st, msgs, lib);
    var r := Converse(cfg, st, msgs, lib);
    assert FitsCount(cfg, r.0[0], 1) && FitsCount(cfg, r.0[1], 2) && FitsCount(cfg, r.0[2], 3);
  }

  /** Any turn the FAQ or a non-default intent settles, other than an order
      reply, clears the counter, so escalation needs consecutive
      unresolved turns. */
  lemma ResolvedTurnClearsCounter(cfg: Config, st: State, input: string, lib: Library, pick: Pick, timestamp: string)
    requires WellFormed(cfg)
    requires !AllSpace(input)
    requires !FaqMiss(cfg, input, lib.similarity) ||
      (DetectIntent(cfg, input, lib).intent != DefaultIntent && !OrderPath(DetectIntent(cfg, input, lib).intent, input))
    ensures GetResponse(cfg, st, input, lib, pick, timestamp).state.unresolved == 0
  {
  }
}
