/**
  The module-level `rag_chain`, built once at import time: a single-turn
  chain (retrieve for the raw question, fill the template, ask the model)
  when a retriever could be created, and otherwise a replacement chain that
  answers every input with a fixed apology.
*/
module ModuleChain {
  import opened Common
  import opened Documents
  import opened Prompts
  import opened Pipeline

  /** The two shapes `rag_chain` can take. */
  datatype RagChain = Grounded(search: Search) | Replacement

  /** The replacement chain's one answer. */
  const PipelineUnavailable: string :=
    "Entschuldigung, die RAG-Pipeline konnte nicht geladen werden (Datenbankverbindung fehlgeschlagen)."

  /** How many documents `vectorstore.as_retriever()` fetches when no `k` is given. */
  const DefaultSearchK: nat := 4

  /** `if retriever: ... else: ...`, where the retriever exists exactly when the vector store does. */
  function BuildRagChain(svc: Services): (chain: RagChain)
    ensures chain.Replacement? <==> svc.vectorStore.None?
  {
    match svc.vectorStore
    case None => Replacement
    case Some(search) => Grounded(search)
  }

  /** `rag_chain.invoke(question)`. */
  function InvokeRagChain(chain: RagChain, llm: Llm, question: string): Step<string> {
    match chain
    case Replacement => Step(Ok(PipelineUnavailable), [])
    case Grounded(search) =>
      match search(question, DefaultSearchK)
      case Err(e) => Step(Err(e), [SearchCall(question, DefaultSearchK)])
      case Ok(docs) =>
        var p := GroundedPrompt(FormatDocs(docs), question);
        Step(llm(p), [SearchCall(question, DefaultSearchK), LlmCall(p)])
  }

  /** Without a vector store the chain gives the same apology for every input and calls nothing. */
  lemma ReplacementIgnoresInput(svc: Services, x: string, y: string)
    requires svc.vectorStore.None?
    ensures InvokeRagChain(BuildRagChain(svc), svc.llm, x) == Step(Ok(PipelineUnavailable), [])
    ensures InvokeRagChain(BuildRagChain(svc), svc.llm, x) == InvokeRagChain(BuildRagChain(svc), svc.llm, y)
  {
  }

  /**
    With a vector store the chain searches for the raw question and then
    asks the model once, with the formatted documents and the question in
    the template; there is no guard and no rephrasing.
  */
  lemma GroundedChainFlow(svc: Services, question: string, docs: seq<Doc>)
    requires svc.vectorStore.Some? && svc.vectorStore.value(question, DefaultSearchK) == Ok(docs)
    ensures var p := GroundedPrompt(FormatDocs(docs), question);
      && InvokeRagChain(BuildRagChain(svc), svc.llm, question).calls == [SearchCall(question, DefaultSearchK), LlmCall(p)]
      && InvokeRagChain(BuildRagChain(svc), svc.llm, question).out == svc.llm(p)
  {
  }
}
