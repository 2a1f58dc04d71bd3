/**
 * `OpenAIService.ask_openai` (src/services/openai_service.py): send the system
 * prompt and a window of the conversation to the chat model, and on success
 * store the window plus the answer as the new conversation history.
 *
 * The model is an oracle: `reply` is its answer to the messages sent, None
 * when the call raises. The system prompt is the one of module Prompts.
 */
module ChatService {
  import opened Wrappers
  import opened Sessions
  import opened Prompts

  /** What the service answers whenever the prompt or the call fails. */
  const APOLOGY := "Lo siento, tuve un problema al procesar tu mensaje. ¿Podrías intentarlo de nuevo?"

  /** How many past turns are sent along. */
  const WINDOW: nat := 15

  /** A message of the `messages` list sent to the model. */
  datatype ChatMessage = SystemMessage(prompt: ServicePrompt) | TurnMessage(turn: Turn)

  /** `history[-15:]`. */
  function Window(h: seq<Turn>): (w: seq<Turn>)
    ensures |w| == if |h| <= WINDOW then |h| else WINDOW
    ensures w == h[|h| - |w|..]
  {
    if |h| <= WINDOW then h else h[|h| - WINDOW..]
  }

  /** The window of the history, plus the new message when one is given. */
  function Outgoing(r: Record, newMessage: Option<Turn>): seq<Turn> {
    Window(r.history) + (if newMessage.Some? then [newMessage.value] else [])
  }

  function AsMessages(ts: seq<Turn>): (ms: seq<ChatMessage>)
    ensures |ms| == |ts| && forall i :: 0 <= i < |ts| ==> ms[i] == TurnMessage(ts[i])
  {
    if ts == [] then [] else [TurnMessage(ts[0])] + AsMessages(ts[1..])
  }

  /**
   * The result of one call: the text returned, the history stored in the
   * session (None: the session is left as it was), and the messages sent to
   * the model (None: none were).
   */
  datatype Asked = Asked(text: string, newHistory: Option<seq<Turn>>, sent: Option<seq<ChatMessage>>)

  /** `ask_openai(session, new_message)` when the model answers `reply`. */
  function Ask(r: Record, newMessage: Option<Turn>, reply: Option<string>): (a: Asked)
    ensures a.newHistory.Some? <==> ServiceSystemPrompt(r).Some? && reply.Some?
    ensures a.newHistory.None? ==> a.text == APOLOGY
    ensures a.newHistory.Some? ==> a.text == reply.value
  {
    match ServiceSystemPrompt(r)
    case None => Asked(APOLOGY, None, None)
    case Some(p) =>
      var turns := Outgoing(r, newMessage);
      var sent := Some([SystemMessage(p)] + AsMessages(turns));
      match reply
      case None => Asked(APOLOGY, None, sent)
      case Some(answer) => Asked(answer, Some(turns + [Turn(Assistant, Said(answer))]), sent)
  }

  /** The session data after the call. */
  function After(r: Record, a: Asked): Record {
    if a.newHistory.Some? then r.(history := a.newHistory.value) else r
  }

  // ------------------------------------------------------------ properties

  /** After a successful call the history holds at most the last 15 turns, the new message and the answer. */
  lemma HistoryStaysBounded(r: Record, newMessage: Option<Turn>, reply: Option<string>)
    ensures var a := Ask(r, newMessage, reply);
      a.newHistory.Some? ==> |a.newHistory.value| <= WINDOW + 2 && |a.newHistory.value| <= |r.history| + 2
    ensures var a := Ask(r, newMessage, reply);
      a.newHistory.Some? && newMessage.None? ==> |a.newHistory.value| <= WINDOW + 1
  {
  }

  /**
   * A successful call keeps the most recent turns in order, then the new
   * message, then the answer.
   */
  lemma SuccessKeepsRecentTurns(r: Record, newMessage: Option<Turn>, answer: string)
    requires ServiceSystemPrompt(r).Some?
    ensures var h := Ask(r, newMessage, Some(answer)).newHistory.value;
      var w := Window(r.history);
      |h| == |w| + (if newMessage.Some? then 2 else 1)
      && h[|h| - 1] == Turn(Assistant, Said(answer))
      && h[..|w|] == r.history[|r.history| - |w|..]
      && (newMessage.Some? ==> h[|h| - 2] == newMessage.value)
  {
    var w := Window(r.history);
    var h := Ask(r, newMessage, Some(answer)).newHistory.value;
    assert h[..|w|] == w;
  }

  /** The model sees the system prompt first and then exactly the outgoing turns, in order. */
  lemma SentMessages(r: Record, newMessage: Option<Turn>, reply: Option<string>)
    requires ServiceSystemPrompt(r).Some?
    ensures var a := Ask(r, newMessage, reply);
      a.sent.Some? && |a.sent.value| == 1 + |Outgoing(r, newMessage)|
      && a.sent.value[0] == SystemMessage(ServiceSystemPrompt(r).value)
      && forall i :: 0 <= i < |Outgoing(r, newMessage)| ==> a.sent.value[i + 1] == TurnMessage(Outgoing(r, newMessage)[i])
  {
    var turns := Outgoing(r, newMessage);
    var sent := [SystemMessage(ServiceSystemPrompt(r).value)] + AsMessages(turns);
    assert Ask(r, newMessage, reply).sent == Some(sent);
    forall i | 0 <= i < |turns| ensures sent[i + 1] == TurnMessage(turns[i]) {
    }
  }

  /** `ask_openai` on the session; the model's answer is the oracle `reply`. */
  method AskOpenAI(s: Session, newMessage: Option<Turn>, reply: Option<string>) returns (text: string)
    modifies s
    ensures text == Ask(old(s.data), newMessage, reply).text
    ensures s.data == After(old(s.data), Ask(old(s.data), newMessage, reply))
    ensures s.sessionId == old(s.sessionId)
  {
    ghost var a := Ask(s.data, newMessage, reply);
    var h := s.data.history;
    var history := if |h| > 0 then h[|h| - (if |h| <= WINDOW then |h| else WINDOW)..] else [];
    assert history == Window(h);
    if newMessage.Some? {
      history := history + [newMessage.value];
    }
    assert history == Outgoing(s.data, newMessage);
    var prompt := ServiceSystemPrompt(s.data);
    if prompt.None? || reply.None? {
      return APOLOGY;
    }
    history := history + [Turn(Assistant, Said(reply.value))];
    assert a.newHistory == Some(history);
    s.data := s.data.(history := history);
    text := reply.value;
  }
}
