/**
  `get_rag_chain_response`: the per-turn orchestration of relevance guard,
  question rephrasing, two-stage retrieval and answer generation.

  The chat model, the vector store and the reranker are not modelled; they
  are function-valued fields of `Services`. Every stage returns its output
  together with the calls it made to them, oldest first, so that the lemmas
  can say which stages run, in what order and what each one is fed.
  A collaborator that raises is modelled by an `Err` result; nothing in the
  pipeline catches it, so it ends the turn.
*/
module Pipeline {
  import opened Common
  import opened Documents
  import opened Prompts
  import opened Guard

  /** An exception raised by a collaborator (network, provider or quota error). */
  datatype ServiceError = ServiceError(message: string)

  datatype Result<T> = Ok(value: T) | Err(error: ServiceError)

  /** `llm | StrOutputParser()`: the chat model's reply text for a prompt. */
  type Llm = ChatPrompt -> Result<string>

  /** The vector store's similarity search: at most `k` documents for a query. */
  type Search = (string, nat) -> Result<seq<Doc>>

  /** The reranker: the `topN` candidates most relevant to the query, best first. */
  type Rerank = (string, seq<Doc>, nat) -> Result<seq<Doc>>

  /**
    The collaborators of a turn: the chat model and the vector store, which
    the module sets up at import time (`vectorStore` is `None` when
    connecting to the index failed), and the reranker, which each call
    builds before its guard runs.
  */
  datatype Services = Services(llm: Llm, vectorStore: Option<Search>, reranker: Rerank)

  /** One call made to a collaborator. */
  datatype Call =
    | LlmCall(prompt: ChatPrompt)
    | SearchCall(query: string, k: nat)
    | RerankCall(query: string, candidates: seq<Doc>, topN: nat)

  /** What a stage produced, and the calls it made on the way, oldest first. */
  datatype Step<T> = Step(out: Result<T>, calls: seq<Call>)

  /** `search_kwargs={"k": 10}` of the base retriever. */
  const BaseK: nat := 10

  /** `top_n=5` of the reranker. */
  const RerankTopN: nat := 5

  /** Returned when the vector store is missing. */
  const ConnectionApology: string := "Entschuldigung, die Verbindung zum ChatBot ist fehlgeschlagen."

  /** Returned for a question the guard rejects. */
  const OffTopicResponse: string :=
    "Entschuldigung, ich kann nur Fragen beantworten, die sich auf " + AllowedTopic + " beziehen."

  // ---------------------------------------------------------------------
  // Collaborator contracts (as configured in the code)
  // ---------------------------------------------------------------------

  /** The store returns no more documents than asked for. */
  ghost predicate StoreHonoursK(search: Search) {
    forall q, k :: search(q, k).Ok? ==> |search(q, k).value| <= k
  }

  /** The reranker returns at most `n` documents, each with the content of one of its candidates. */
  ghost predicate RerankerSelects(reranker: Rerank) {
    forall q, ds, n :: reranker(q, ds, n).Ok? ==>
      && |reranker(q, ds, n).value| <= n
      && forall j :: 0 <= j < |reranker(q, ds, n).value| ==> reranker(q, ds, n).value[j].pageContent in PageContents(ds)
  }

  // ---------------------------------------------------------------------
  // Stages
  // ---------------------------------------------------------------------

  /** The branch condition: ask the checker about the raw question and test its reply for "ja". */
  function CheckRelevance(llm: Llm, question: string): Step<bool> {
    var p := RelevancePrompt(question);
    match llm(p)
    case Err(e) => Step(Err(e), [LlmCall(p)])
    case Ok(reply) => Step(Ok(IsOnTopicReply(reply)), [LlmCall(p)])
  }

  /** `rephrase_question_chain`: one model call on the history and the newest question; its reply is used verbatim. */
  function Rephrase(llm: Llm, input: string, history: History): Step<string> {
    var p := ContextualizePrompt(history, input);
    Step(llm(p), [LlmCall(p)])
  }

  /**
    `compression_retriever`: the base retriever's top `BaseK` for the query,
    then the reranker's top `RerankTopN` of those. When the base retriever
    finds nothing, the reranker is not asked.
  */
  function CompressionRetrieve(search: Search, reranker: Rerank, query: string): (r: Step<seq<Doc>>)
    ensures 1 <= |r.calls| <= 2 && r.calls[0] == SearchCall(query, BaseK)
    ensures |r.calls| == 2 <==> (search(query, BaseK).Ok? && search(query, BaseK).value != [])
    ensures |r.calls| == 2 ==> r.calls[1] == RerankCall(query, search(query, BaseK).value, RerankTopN)
    ensures |r.calls| == 2 ==> r.out == reranker(query, search(query, BaseK).value, RerankTopN)
    ensures search(query, BaseK).Err? ==> r.out == Err(search(query, BaseK).error)
    ensures search(query, BaseK) == Ok([]) ==> r.out == Ok([])
    ensures StoreHonoursK(search) && RerankerSelects(reranker) && r.out.Ok? ==>
      && search(query, BaseK).Ok?
      && |search(query, BaseK).value| <= BaseK
      && |r.out.value| <= RerankTopN
      && forall j :: 0 <= j < |r.out.value| ==> r.out.value[j].pageContent in PageContents(search(query, BaseK).value)
  {
    match search(query, BaseK)
    case Err(e) => Step(Err(e), [SearchCall(query, BaseK)])
    case Ok(candidates) =>
      if candidates == [] then Step(Ok([]), [SearchCall(query, BaseK)])
      else Step(reranker(query, candidates, RerankTopN),
                [SearchCall(query, BaseK), RerankCall(query, candidates, RerankTopN)])
  }

  /** The `context` entry: rephrase, retrieve with the rephrased question, then `format_docs`. */
  function ContextChain(llm: Llm, search: Search, reranker: Rerank, input: string, history: History): Step<string> {
    var rephrased := Rephrase(llm, input, history);
    match rephrased.out
    case Err(e) => Step(Err(e), rephrased.calls)
    case Ok(query) =>
      var retrieved := CompressionRetrieve(search, reranker, query);
      match retrieved.out
      case Err(e) => Step(Err(e), rephrased.calls + retrieved.calls)
      case Ok(docs) => Step(Ok(FormatDocs(docs)), rephrased.calls + retrieved.calls)
  }

  /** `rag_chain_with_history`: the context, then the answer prompt (with the original question), then the model. */
  function RagChainWithHistory(llm: Llm, search: Search, reranker: Rerank, input: string, history: History): Step<string> {
    var context := ContextChain(llm, search, reranker, input, history);
    match context.out
    case Err(e) => Step(Err(e), context.calls)
    case Ok(c) =>
      var p := QaPrompt(c, history, input);
      Step(llm(p), context.calls + [LlmCall(p)])
  }

  /** `get_rag_chain_response(question, chat_history)`. */
  function GetRagChainResponse(svc: Services, question: string, history: History): (r: Step<string>)
    ensures svc.vectorStore.None? ==> r == Step(Ok(ConnectionApology), [])
    ensures svc.vectorStore.Some? ==> |r.calls| >= 1 && r.calls[0] == LlmCall(RelevancePrompt(question))
  {
    match svc.vectorStore
    case None => Step(Ok(ConnectionApology), [])
    case Some(search) =>
      var guard := CheckRelevance(svc.llm, question);
      match guard.out
      case Err(e) => Step(Err(e), guard.calls)
      case Ok(onTopic) =>
        if onTopic then
          var rag := RagChainWithHistory(svc.llm, search, svc.reranker, question, history);
          Step(rag.out, guard.calls + rag.calls)
        else
          Step(Ok(OffTopicResponse), guard.calls)
  }

  // ---------------------------------------------------------------------
  // Which stages run, and in what order
  // ---------------------------------------------------------------------

  /** The guard's call, as it appears in a trace. */
  function GuardCall(question: string): Call {
    LlmCall(RelevancePrompt(question))
  }

  /** The guard accepted the question: the relevance check came back `True`. */
  predicate GuardAccepts(svc: Services, question: string) {
    CheckRelevance(svc.llm, question).out == Ok(true)
  }

  /**
    The guard accepts exactly when the checker answers and its reply spells
    "ja", in any case, somewhere; a failing checker is never an acceptance.
  */
  lemma GuardAcceptsIffJa(svc: Services, question: string)
    ensures GuardAccepts(svc, question) <==>
      var reply := svc.llm(RelevancePrompt(question));
      reply.Ok? && exists i :: JaAt(reply.value, i)
  {
    var reply := svc.llm(RelevancePrompt(question));
    if reply.Ok? {
      GuardDecision(reply.value);
    }
  }

  /**
    The rejection branch: a reply without "ja" gives exactly the off-topic
    sentence, after the guard's call and no other.
  */
  lemma OffTopicBranch(svc: Services, question: string, history: History)
    requires svc.vectorStore.Some?
    requires svc.llm(RelevancePrompt(question)).Ok? && !GuardAccepts(svc, question)
    ensures GetRagChainResponse(svc, question, history) == Step(Ok(OffTopicResponse), [GuardCall(question)])
  {
  }

  /**
    The acceptance branch with every collaborator answering: the guard, the
    rephrasing, the base search and the reranking run once each, in that
    order; retrieval is fed only the rephrased question; the answer prompt
    gets the reranked passages, the history and the original question; the
    turn's reply is what the model answers to it.
  */
  lemma OnTopicBranch(svc: Services, question: string, history: History, query: string, candidates: seq<Doc>, top: seq<Doc>)
    requires svc.vectorStore.Some? && GuardAccepts(svc, question)
    requires svc.llm(ContextualizePrompt(history, question)) == Ok(query)
    requires svc.vectorStore.value(query, BaseK) == Ok(candidates) && candidates != []
    requires svc.reranker(query, candidates, RerankTopN) == Ok(top)
    ensures var qa := QaPrompt(FormatDocs(top), history, question);
      && GetRagChainResponse(svc, question, history).calls ==
           [ GuardCall(question),
             LlmCall(ContextualizePrompt(history, question)),
             SearchCall(query, BaseK),
             RerankCall(query, candidates, RerankTopN),
             LlmCall(qa) ]
      && GetRagChainResponse(svc, question, history).out == svc.llm(qa)
  {
    var search := svc.vectorStore.value;
    var rephraseCall := LlmCall(ContextualizePrompt(history, question));
    var retrieval := [SearchCall(query, BaseK), RerankCall(query, candidates, RerankTopN)];
    assert CompressionRetrieve(search, svc.reranker, query) == Step(Ok(top), retrieval);
    assert ContextChain(svc.llm, search, svc.reranker, question, history) == Step(Ok(FormatDocs(top)), [rephraseCall] + retrieval);
    AcceptedTurnOut(svc, question, history);
    AcceptedTurnCalls(svc, question, history);
  }

  /**
    When the base search finds nothing, the reranker is skipped and the
    answer prompt is built with the empty context.
  */
  lemma EmptyRetrievalGivesEmptyContext(svc: Services, question: string, history: History, query: string)
    requires svc.vectorStore.Some? && GuardAccepts(svc, question)
    requires svc.llm(ContextualizePrompt(history, question)) == Ok(query)
    requires svc.vectorStore.value(query, BaseK) == Ok([])
    ensures GetRagChainResponse(svc, question, history).calls ==
      [ GuardCall(question),
        LlmCall(ContextualizePrompt(history, question)),
        SearchCall(query, BaseK),
        LlmCall(QaPrompt("", history, question)) ]
  {
    var search := svc.vectorStore.value;
    var rephraseCall := LlmCall(ContextualizePrompt(history, question));
    assert CompressionRetrieve(search, svc.reranker, query) == Step(Ok([]), [SearchCall(query, BaseK)]);
    assert FormatDocs([]) == "";
    assert ContextChain(svc.llm, search, svc.reranker, question, history) == Step(Ok(""), [rephraseCall, SearchCall(query, BaseK)]);
    AcceptedTurnOut(svc, question, history);
    AcceptedTurnCalls(svc, question, history);
  }

  /** A failing relevance check is not read as "off topic": its error is the turn's result and nothing else runs. */
  lemma GuardFailurePropagates(svc: Services, question: string, history: History, e: ServiceError)
    requires svc.vectorStore.Some? && svc.llm(RelevancePrompt(question)) == Err(e)
    ensures GetRagChainResponse(svc, question, history) == Step(Err(e), [GuardCall(question)])
  {
  }

  /** The calls of the acceptance branch after the guard's call. */
  lemma RagCallsShape(llm: Llm, search: Search, reranker: Rerank, input: string, history: History)
    ensures var calls := RagChainWithHistory(llm, search, reranker, input, history).calls;
      && 1 <= |calls| <= 4
      && calls[0] == LlmCall(ContextualizePrompt(history, input))
      && (forall i :: 1 <= i < |calls| && calls[i].LlmCall? ==>
            i == |calls| - 1 && exists c :: calls[i] == LlmCall(QaPrompt(c, history, input)))
      && (forall i :: 1 <= i < |calls| && !calls[i].LlmCall? ==>
            llm(ContextualizePrompt(history, input)).Ok? && calls[i].query == llm(ContextualizePrompt(history, input)).value)
  {
    var rephrased := Rephrase(llm, input, history);
    if rephrased.out.Ok? {
      var query := rephrased.out.value;
      var retrieved := CompressionRetrieve(search, reranker, query);
      if retrieved.out.Ok? {
        var c := FormatDocs(retrieved.out.value);
        var calls := RagChainWithHistory(llm, search, reranker, input, history).calls;
        assert calls == rephrased.calls + retrieved.calls + [LlmCall(QaPrompt(c, history, input))];
      }
    }
  }

  /** An accepted turn answers with what the history-aware chain answers. */
  lemma AcceptedTurnOut(svc: Services, question: string, history: History)
    requires svc.vectorStore.Some? && GuardAccepts(svc, question)
    ensures GetRagChainResponse(svc, question, history).out ==
      RagChainWithHistory(svc.llm, svc.vectorStore.value, svc.reranker, question, history).out
  {
    assert CheckRelevance(svc.llm, question).out == Ok(true);
  }

  /** An accepted turn is the guard's call followed by the calls of the history-aware chain. */
  lemma AcceptedTurnCalls(svc: Services, question: string, history: History)
    requires svc.vectorStore.Some? && GuardAccepts(svc, question)
    ensures GetRagChainResponse(svc, question, history).calls ==
      [GuardCall(question)] + RagChainWithHistory(svc.llm, svc.vectorStore.value, svc.reranker, question, history).calls
  {
    assert CheckRelevance(svc.llm, question).out == Ok(true);
    GuardTrace(svc.llm, question);
  }

  /** A turn without a store, or whose guard did not accept, makes at most the guard's call. */
  lemma UnacceptedTurnCalls(svc: Services, question: string, history: History)
    requires !(svc.vectorStore.Some? && GuardAccepts(svc, question))
    ensures GetRagChainResponse(svc, question, history).calls ==
      if svc.vectorStore.None? then [] else [GuardCall(question)]
  {
    GuardTrace(svc.llm, question);
  }

  /** The relevance check makes exactly the guard's call. */
  lemma GuardTrace(llm: Llm, question: string)
    ensures CheckRelevance(llm, question).calls == [GuardCall(question)]
  {
  }

  /** Every model call of the history-aware chain carries the history and the newest input. */
  lemma RagPromptsCarryHistory(llm: Llm, search: Search, reranker: Rerank, input: string, history: History)
    ensures var calls := RagChainWithHistory(llm, search, reranker, input, history).calls;
      forall i :: 0 <= i < |calls| && calls[i].LlmCall? ==>
        var p := calls[i].prompt;
        |p| == |history| + 2 && p[0].role == System && p[1..|p| - 1] == history && p[|p| - 1] == Message(Human, input)
  {
    var calls := RagChainWithHistory(llm, search, reranker, input, history).calls;
    RagCallsShape(llm, search, reranker, input, history);
    forall i | 0 <= i < |calls| && calls[i].LlmCall?
      ensures var p := calls[i].prompt;
        |p| == |history| + 2 && p[0].role == System && p[1..|p| - 1] == history && p[|p| - 1] == Message(Human, input)
    {
      if i == 0 {
        PromptsCarryHistory(history, input, "");
      } else {
        var c :| calls[i] == LlmCall(QaPrompt(c, history, input));
        PromptsCarryHistory(history, input, c);
      }
    }
  }

  /**
    The guard runs first and only once; every later call is the rephrasing,
    a retrieval call, or the final answer, and there are later calls exactly
    when the guard accepted the question.
  */
  lemma GuardRunsFirstAndOnce(svc: Services, question: string, history: History)
    requires svc.vectorStore.Some?
    ensures var calls := GetRagChainResponse(svc, question, history).calls;
      && calls[0] == GuardCall(question)
      && (forall i :: 0 < i < |calls| ==> calls[i] != GuardCall(question))
      && (|calls| > 1 <==> GuardAccepts(svc, question))
  {
    var calls := GetRagChainResponse(svc, question, history).calls;
    if GuardAccepts(svc, question) {
      var search := svc.vectorStore.value;
      var rag := RagChainWithHistory(svc.llm, search, svc.reranker, question, history);
      RagCallsShape(svc.llm, search, svc.reranker, question, history);
      AcceptedTurnOut(svc, question, history);
      AcceptedTurnCalls(svc, question, history);
      forall i | 0 < i < |calls| ensures calls[i] != GuardCall(question) {
        assert calls[i] == rag.calls[i - 1];
        if i == 1 {
          GuardPromptIsDistinct(question, history, question, "");
        } else if calls[i].LlmCall? {
          var c :| rag.calls[i - 1] == LlmCall(QaPrompt(c, history, question));
          GuardPromptIsDistinct(question, history, question, c);
        }
      }
    } else {
      UnacceptedTurnCalls(svc, question, history);
    }
  }

  /**
    Retrieval is fed the rephrased question and nothing else: every search
    and rerank call of the turn carries the model's rephrasing as its query.
  */
  lemma RetrievalSeesOnlyRephrasedQuestion(svc: Services, question: string, history: History)
    ensures var calls := GetRagChainResponse(svc, question, history).calls;
      forall i :: 0 <= i < |calls| && !calls[i].LlmCall? ==>
        svc.llm(ContextualizePrompt(history, question)) == Ok(calls[i].query)
  {
    var calls := GetRagChainResponse(svc, question, history).calls;
    if svc.vectorStore.Some? && GuardAccepts(svc, question) {
      var search := svc.vectorStore.value;
      RagCallsShape(svc.llm, search, svc.reranker, question, history);
      var rag := RagChainWithHistory(svc.llm, search, svc.reranker, question, history);
      AcceptedTurnCalls(svc, question, history);
      forall i | 0 <= i < |calls| && !calls[i].LlmCall?
        ensures svc.llm(ContextualizePrompt(history, question)) == Ok(calls[i].query)
      {
        assert i > 0;
        assert calls[i] == rag.calls[i - 1];
      }
    } else {
      UnacceptedTurnCalls(svc, question, history);
    }
  }

  /**
    The history reaches the model unchanged: the rephrasing and answering
    prompts hold it whole, between their instructions and the newest
    question, which is the caller's question as given. The guard sees the
    question alone.
  */
  lemma HistoryPassesThrough(svc: Services, question: string, history: History)
    requires svc.vectorStore.Some?
    ensures var calls := GetRagChainResponse(svc, question, history).calls;
      && calls[0].prompt == RelevancePrompt(question)
      && forall i :: 0 < i < |calls| && calls[i].LlmCall? ==>
           var p := calls[i].prompt;
           |p| == |history| + 2 && p[0].role == System && p[1..|p| - 1] == history && p[|p| - 1] == Message(Human, question)
  {
    var calls := GetRagChainResponse(svc, question, history).calls;
    if GuardAccepts(svc, question) {
      var search := svc.vectorStore.value;
      var rag := RagChainWithHistory(svc.llm, search, svc.reranker, question, history);
      AcceptedTurnOut(svc, question, history);
      AcceptedTurnCalls(svc, question, history);
      RagPromptsCarryHistory(svc.llm, search, svc.reranker, question, history);
      forall i | 0 < i < |calls| && calls[i].LlmCall?
        ensures var p := calls[i].prompt;
          |p| == |history| + 2 && p[0].role == System && p[1..|p| - 1] == history && p[|p| - 1] == Message(Human, question)
      {
        assert calls[i] == rag.calls[i - 1];
      }
    }
  }

  /**
    Under the configured collaborator contracts, a successful acceptance
    turn answers from at most `RerankTopN` passages, each taken from the at
    most `BaseK` candidates the store returned for the rephrased question.
  */
  lemma ContextIsBounded(svc: Services, question: string, history: History, query: string)
    requires svc.vectorStore.Some? && StoreHonoursK(svc.vectorStore.value) && RerankerSelects(svc.reranker)
    requires GuardAccepts(svc, question)
    requires svc.llm(ContextualizePrompt(history, question)) == Ok(query)
    requires GetRagChainResponse(svc, question, history).out.Ok?
    ensures var search := svc.vectorStore.value;
      var retrieved := CompressionRetrieve(search, svc.reranker, query);
      var calls := GetRagChainResponse(svc, question, history).calls;
      && retrieved.out.Ok?
      && |search(query, BaseK).value| <= BaseK
      && |retrieved.out.value| <= RerankTopN
      && (forall j :: 0 <= j < |retrieved.out.value| ==>
            retrieved.out.value[j].pageContent in PageContents(search(query, BaseK).value))
      && calls[|calls| - 1] == LlmCall(QaPrompt(FormatDocs(retrieved.out.value), history, question))
  {
  }

  // ---------------------------------------------------------------------
  // Failures
  // ---------------------------------------------------------------------

  /** The call `c` raised, given the collaborators `svc`. */
  predicate CallFails(svc: Services, c: Call) {
    match c
    case LlmCall(p) => svc.llm(p).Err?
    case SearchCall(q, k) => svc.vectorStore.Some? && svc.vectorStore.value(q, k).Err?
    case RerankCall(q, ds, n) => svc.reranker(q, ds, n).Err?
  }

  /** The error a failing call raised. */
  function CallError(svc: Services, c: Call): ServiceError
    requires CallFails(svc, c)
  {
    match c
    case LlmCall(p) => svc.llm(p).error
    case SearchCall(q, k) => svc.vectorStore.value(q, k).error
    case RerankCall(q, ds, n) => svc.reranker(q, ds, n).error
  }

  /**
    A step stops at the first failing call: all calls but the last
    succeeded, and the step failed exactly when its last call did, with that
    call's error.
  */
  ghost predicate StopsAtFirstFailure<T>(svc: Services, st: Step<T>) {
    && (forall i :: 0 <= i < |st.calls| - 1 ==> !CallFails(svc, st.calls[i]))
    && (st.out.Err? <==> (|st.calls| > 0 && CallFails(svc, st.calls[|st.calls| - 1])))
    && (st.out.Err? ==> st.out.error == CallError(svc, st.calls[|st.calls| - 1]))
  }

  /** Running a second step after a first one that succeeded keeps the property. */
  lemma SequenceStops<T, U>(svc: Services, first: Step<T>, second: Step<U>)
    requires StopsAtFirstFailure(svc, first) && first.out.Ok?
    requires StopsAtFirstFailure(svc, second)
    ensures StopsAtFirstFailure(svc, Step(second.out, first.calls + second.calls))
  {
    var calls := first.calls + second.calls;
    forall i | 0 <= i < |calls| - 1 ensures !CallFails(svc, calls[i]) {
      if i < |first.calls| {
        assert calls[i] == first.calls[i];
      } else {
        assert calls[i] == second.calls[i - |first.calls|];
      }
    }
    if |second.calls| > 0 {
      assert calls[|calls| - 1] == second.calls[|second.calls| - 1];
    }
  }

  lemma RetrievalStops(svc: Services, query: string)
    requires svc.vectorStore.Some?
    ensures StopsAtFirstFailure(svc, CompressionRetrieve(svc.vectorStore.value, svc.reranker, query))
  {
  }

  lemma ContextChainStops(svc: Services, input: string, history: History)
    requires svc.vectorStore.Some?
    ensures StopsAtFirstFailure(svc, ContextChain(svc.llm, svc.vectorStore.value, svc.reranker, input, history))
  {
    var search := svc.vectorStore.value;
    var rephrased := Rephrase(svc.llm, input, history);
    if rephrased.out.Ok? {
      var retrieved := CompressionRetrieve(search, svc.reranker, rephrased.out.value);
      RetrievalStops(svc, rephrased.out.value);
      SequenceStops(svc, rephrased, retrieved);
    }
  }

  lemma RagChainStops(svc: Services, input: string, history: History)
    requires svc.vectorStore.Some?
    ensures StopsAtFirstFailure(svc, RagChainWithHistory(svc.llm, svc.vectorStore.value, svc.reranker, input, history))
  {
    var context := ContextChain(svc.llm, svc.vectorStore.value, svc.reranker, input, history);
    ContextChainStops(svc, input, history);
    if context.out.Ok? {
      var p := QaPrompt(context.out.value, history, input);
      SequenceStops(svc, context, Step(svc.llm(p), [LlmCall(p)]));
    }
  }

  /**
    No call is retried and no failure is hidden: the turn makes its calls
    until one raises, and then the error of that call is the turn's result.
    In particular a failing reranker does not fall back to the unranked
    candidates, and a failing retrieval is not replaced by an apology.
  */
  lemma TurnStopsAtFirstFailure(svc: Services, question: string, history: History)
    ensures StopsAtFirstFailure(svc, GetRagChainResponse(svc, question, history))
  {
    if svc.vectorStore.Some? {
      var guard := CheckRelevance(svc.llm, question);
      var turn := GetRagChainResponse(svc, question, history);
      if guard.out.Ok? && guard.out.value {
        var rag := RagChainWithHistory(svc.llm, svc.vectorStore.value, svc.reranker, question, history);
        AcceptedTurnOut(svc, question, history);
        AcceptedTurnCalls(svc, question, history);
        assert guard.calls == [GuardCall(question)];
        RagChainStops(svc, question, history);
        SequenceStops(svc, guard, rag);
      } else {
        UnacceptedTurnCalls(svc, question, history);
      }
    }
  }
}
