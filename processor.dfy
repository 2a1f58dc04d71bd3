/**
 * The two pieces of src/processor.py that are not shared with the other
 * revision: the message list `ask_openai` hands to the chat model, and the
 * step name `SystemPromptGenerator.generate` prints. Its prescription
 * validation is the one of module FormulaValidation.
 */
module Processor {
  import opened Wrappers
  import opened Text
  import opened Steps
  import opened Prescription

  /** What the module's `ask_openai` answers when the call raises. */
  const APOLOGY := "Lo siento, tuve un problema al procesar tu mensaje. ¿Podrías intentarlo de nuevo?"

  /** A chat message as the model client takes it: a role and a content. */
  datatype Message = Message(role: string, content: string)

  /**
   * The loop of `ask_openai` that builds `formatted_messages`: the system
   * prompt first, then every message's role and content, in order.
   */
  method FormatMessages(systemPrompt: string, messages: seq<Message>) returns (formatted: seq<Message>)
    ensures |formatted| == |messages| + 1
    ensures formatted[0] == Message("system", systemPrompt)
    ensures forall i :: 0 <= i < |messages| ==> formatted[i + 1] == messages[i]
  {
    formatted := [Message("system", systemPrompt)];
    for k := 0 to |messages|
      invariant |formatted| == k + 1
      invariant formatted[0] == Message("system", systemPrompt)
      invariant forall i :: 0 <= i < k ==> formatted[i + 1] == messages[i]
    {
      formatted := formatted + [Message(messages[k].role, messages[k].content)];
    }
  }

  /**
   * `ask_openai`: the messages sent, and the text returned, which is the
   * model's answer (the oracle `reply`; None when the call raises) or the
   * apology.
   */
  method AskOpenAI(systemPrompt: string, messages: seq<Message>, reply: Option<string>)
    returns (text: string, sent: seq<Message>)
    ensures |sent| == |messages| + 1 && sent[0] == Message("system", systemPrompt)
    ensures forall i :: 0 <= i < |messages| ==> sent[i + 1] == messages[i]
    ensures reply.Some? ==> text == reply.value
    ensures reply.None? ==> text == APOLOGY
  {
    sent := FormatMessages(systemPrompt, messages);
    if reply.None? {
      return APOLOGY, sent;
    }
    text := reply.value;
  }

  /** `str(current_step).split('.')[-1] if current_step else "INICIO"`. */
  function StepName(step: Option<Step>): string {
    if step.None? then "INICIO"
    else
      var parts := SplitOn(EnumText(step.value), '.');
      parts[|parts| - 1]
  }

  lemma NameHasNoDot(s: Step)
    ensures '.' !in Name(s)
  {
  }

  /**
   * The printed step is the enum member's name, and an absent step prints
   * as the name of the first step.
   */
  lemma StepNameIsMemberName(step: Option<Step>)
    ensures StepName(step) == Name(if step.Some? then step.value else Inicio)
  {
    if step.Some? {
      NameHasNoDot(step.value);
      SplitAfterSep("ConversationSteps", Name(step.value), '.');
      SplitWithoutSep(Name(step.value), '.');
      assert EnumText(step.value) == "ConversationSteps" + ['.'] + Name(step.value);
    }
  }

  /** Different steps print differently, so the printed name identifies the step. */
  lemma StepNameInjective(a: Step, b: Step)
    requires StepName(Some(a)) == StepName(Some(b))
    ensures a == b
  {
    StepNameIsMemberName(Some(a));
    StepNameIsMemberName(Some(b));
  }
}
