/**
  Chat messages and the prompts the pipeline builds from them. A prompt is
  the list of role-tagged messages that the chat model receives once the
  template has been filled in; the template machinery itself is not modelled.
*/
module Prompts {

  datatype Role = System | Human | AI

  /** A chat message (`SystemMessage`, `HumanMessage` or `AIMessage`). */
  datatype Message = Message(role: Role, content: string)

  /** A filled-in chat prompt, in the order the model reads it. */
  type ChatPrompt = seq<Message>

  /** The caller's conversation so far, oldest first. */
  type History = seq<Message>

  /** The subject area the assistant is restricted to. */
  const AllowedTopic: string :=
    "den beruflichen Werdegang, die Hobbies, die Interessen, die Fähigkeiten und die Projekte von Robert"

  /** The relevance-check template around the question (the f-string has already put in the topic). */
  const RelevanceHead: string :=
    "\n        Die folgende Benutzerfrage wird gestellt. Bezieht sich diese Frage auf " + AllowedTopic
    + "? \n        Antworte ausschließlich mit 'Ja' oder 'Nein'.\n        \n        Benutzerfrage: \""
  const RelevanceTail: string := "\"\n        "

  /** The single human message of the relevance check; it sees the question and nothing else. */
  function RelevancePrompt(question: string): ChatPrompt {
    [Message(Human, RelevanceHead + question + RelevanceTail)]
  }

  /** System instructions of the rephrasing step. */
  const ContextualizeInstructions: string :=
    "Angesichts eines Chat-Verlaufs und der neuesten Benutzerfrage, "
    + "die sich auf den Kontext des Chat-Verlaufs beziehen könnte, "
    + "formuliere eine eigenständige Frage, die ohne den Chat-Verlauf "
    + "verstanden werden kann. Beantworte die Frage NICHT, "
    + "sondern formuliere sie bei Bedarf nur um, andernfalls gib sie unverändert zurück."

  /** `contextualize_q_prompt` filled with the history and the newest question. */
  function ContextualizePrompt(history: History, input: string): ChatPrompt {
    [Message(System, ContextualizeInstructions)] + history + [Message(Human, input)]
  }

  /** System instructions of the answering step; the context follows after a blank line. */
  const QaInstructions: string :=
    "Du bist ein Assistent für Fragen-Antworten-Aufgaben. Verwende die folgenden "
    + "abgerufenen Kontextinformationen, um die Frage zu beantworten.  "
    + "Wenn du die Antwort nicht kennst, sage einfach, dass du es nicht weißt. "
    + "Verwende maximal drei Sätze und halte die Antwort prägnant."

  /** `qa_prompt` filled with the context, the history and the question. */
  function QaPrompt(context: string, history: History, input: string): ChatPrompt {
    [Message(System, QaInstructions + "\n\n" + context)] + history + [Message(Human, input)]
  }

  /** The module-level template of the single-turn chain, around its two slots. */
  const GroundedHead: string :=
    "Du bist ein hilfsbereiter Assistent und beantwortest die Frage \n"
    + "basierend nur auf dem bereitgestellten Kontext. Wenn die Antwort nicht im Kontext enthalten ist, \n"
    + "sage höflich, dass du die Antwort nicht finden kannst.\n\nKONTEXT:\n"
  const GroundedMiddle: string := "\n\nFRAGE:\n"
  const GroundedTail: string := "\n"

  /** The module-level `prompt` filled with a context and a question: one human message. */
  function GroundedPrompt(context: string, question: string): ChatPrompt {
    [Message(Human, GroundedHead + context + GroundedMiddle + question + GroundedTail)]
  }

  /**
    The rephrasing and answering prompts carry the history unchanged between
    their system message and the newest question; the relevance prompt is a
    lone human message without the history.
  */
  lemma PromptsCarryHistory(history: History, input: string, context: string)
    ensures var p := ContextualizePrompt(history, input);
      |p| == |history| + 2 && p[0].role == System && p[1..|p| - 1] == history && p[|p| - 1] == Message(Human, input)
    ensures var p := QaPrompt(context, history, input);
      |p| == |history| + 2 && p[0].role == System && p[1..|p| - 1] == history && p[|p| - 1] == Message(Human, input)
    ensures |RelevancePrompt(input)| == 1 && RelevancePrompt(input)[0].role == Human
  {
    var p := ContextualizePrompt(history, input);
    assert p[1..|p| - 1] == history;
    var q := QaPrompt(context, history, input);
    assert q[1..|q| - 1] == history;
  }

  /** The answering prompt determines its context: the model is shown the context exactly. */
  lemma QaPromptDeterminesContext(c1: string, c2: string, history: History, input: string)
    requires QaPrompt(c1, history, input) == QaPrompt(c2, history, input)
    ensures c1 == c2
  {
    var head := QaInstructions + "\n\n";
    assert QaPrompt(c1, history, input)[0].content == head + c1;
    assert QaPrompt(c2, history, input)[0].content == head + c2;
    assert (head + c1)[|head|..] == c1;
    assert (head + c2)[|head|..] == c2;
  }

  /** The relevance prompt determines the question: the checker is shown the raw question exactly. */
  lemma RelevancePromptDeterminesQuestion(q1: string, q2: string)
    requires RelevancePrompt(q1) == RelevancePrompt(q2)
    ensures q1 == q2
  {
    var t1 := RelevanceHead + q1 + RelevanceTail;
    var t2 := RelevanceHead + q2 + RelevanceTail;
    assert RelevancePrompt(q1)[0].content == t1;
    assert t1 == t2;
    assert |q1| == |q2|;
    assert t1[|RelevanceHead|..|RelevanceHead| + |q1|] == q1;
    assert t2[|RelevanceHead|..|RelevanceHead| + |q2|] == q2;
  }

  /** No rephrasing or answering prompt is a relevance prompt: the guard's call is recognisable in a trace. */
  lemma GuardPromptIsDistinct(question: string, history: History, input: string, context: string)
    ensures ContextualizePrompt(history, input) != RelevancePrompt(question)
    ensures QaPrompt(context, history, input) != RelevancePrompt(question)
  {
    assert ContextualizePrompt(history, input)[0].role == System;
    assert QaPrompt(context, history, input)[0].role == System;
  }
}
