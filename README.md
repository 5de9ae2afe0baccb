# Conversational RAG pipeline: a Dafny model of `get_rag_chain_response`

This project models the deterministic control layer of a retrieval-augmented
chat assistant. Each turn starts with a relevance guard: the chat model is
asked whether the question concerns the allowed topic, and the reply is
tested for the substring "ja" after `.strip().lower()`. A rejected question
gets a fixed refusal that names the topic. An accepted question goes through
four stages:

1. The question is rephrased using the chat history.
2. The vector store returns at most 10 candidates for the rephrased question.
3. The reranker keeps at most 5 of those.
4. The passages are joined with `"\n\n"` into a context, and the model
   answers from the context, the history and the original question.

If the vector store could not be opened, a fixed apology comes back. The
module-level single-turn chain has its own fixed-apology replacement.

The chat model, the vector search and the reranker are not modelled. They
are function-valued fields of `Pipeline.Services`. Each stage returns its
output together with the list of calls it made to those collaborators, in
order (`Pipeline.Step`). The lemmas state which calls a turn makes, in what
order, and what each call receives. A collaborator that raises an exception
is modelled as an `Err` result. The code catches no exception inside the
turn, so the first failing call ends it.

Everything is a function of its inputs. So the model is stateless across
turns by construction: the same inputs give the same output. The history is
a value that the turn only reads.

Modules, one per concern:

- `Text`: the Python string operations used (`strip`, `lower`, `in`, `join`)
  and a `Split` used as the inverse of `Join`.
- `Documents`: `Doc` and `format_docs`.
- `Guard`: the relevance predicate.
- `Prompts`: messages and the filled-in prompts.
- `Pipeline`: the stages and `get_rag_chain_response`.
- `ModuleChain`: the module-level `rag_chain` and its replacement.

## Behaviour worth knowing

- **Guard failures.** A failed relevance check is not read as off-topic: the
  checker's exception propagates and is the turn's result
  (`Pipeline.GuardFailurePropagates`).
- **Retrieval failures.** A failed search or rerank is not turned into an
  apology: its error is the turn's result too
  (`Pipeline.TurnStopsAtFirstFailure`).
- **The guard mostly fails closed.** Every reply without "ja" is rejected,
  including the empty reply and "Nein". But a negative reply that only
  *mentions* a word holding "ja", such as "Nein, mit Japan …", is accepted
  (`Guard.GuardAcceptsNegativeMentioningJa`). The comment above the test
  describes an equality check with "ja". The code does a substring test,
  and the model keeps the code's test.
- **Source defects the model does not reproduce; it follows the evident
  intent instead:**
  - `src/rag_core/pipeline.py:265` is indented one space too far.
  - `app.py:39` and `src/rag_core/pipeline.py:318` call
    `get_rag_chain_response` with one argument instead of two.
  - `src/rag_core/pipeline.py:164` tests `vectorstore`, which is unbound
    when `from_existing_index` raised at line 92. The model reads that case
    as "no vector store" and returns the connection apology.

## Model

| member | source | states |
|---|---|---|
| `Documents.FormatDocs` | src/rag_core/pipeline.py:121-123 | Renders `"\n\n".join(doc.page_content for doc in docs)`; its laws are the `FormatDocs…` lemmas. |
| `Documents.FormatDocsEmptyAndSingle` | src/rag_core/pipeline.py:121-123 | No documents give the empty string. One document gives its page content alone. |
| `Documents.FormatDocsAppend` | src/rag_core/pipeline.py:259-260 | Formatting keeps document order: formatting `a + b` is formatting `a`, then exactly `"\n\n"`, then formatting `b`. |
| `Documents.FormatDocsLength` | src/rag_core/pipeline.py:259-260 | The context is the passages' total length plus 2 characters per separator. Nothing is added or trimmed. |
| `Documents.FormatDocsRoundTrip` | src/rag_core/pipeline.py:121-123 | For at least one document, none of whose passages holds a blank line or ends with a newline, cutting the context at each `"\n\n"` gives back the page contents, unmodified and in order. |
| `Documents.SeparableIffBlankLineFree` | src/rag_core/pipeline.py:123 | A passage that is followed by the separator `"\n\n"` is cut off exactly at that separator if and only if it holds no blank line and does not end with a newline. |
| `Text.JoinSplit` | src/rag_core/pipeline.py:123 | Joining the pieces of any string at a non-empty separator gives the string back. |
| `Text.SplitJoin` | src/rag_core/pipeline.py:123 | Splitting a join of separable pieces gives the pieces back, in order. |
| `Text.JoinAppend` | src/rag_core/pipeline.py:123 | `sep.join(xs + ys)` equals `sep.join(xs) + sep + sep.join(ys)` for non-empty lists. |
| `Text.LeadingSpace` | src/rag_core/pipeline.py:288 | Counts the whitespace (Python's `isspace` set) that the text starts with: everything counted is whitespace, and the next character, if any, is not. |
| `Text.TrailingSpace` | src/rag_core/pipeline.py:288 | Counts the whitespace that the text ends with: everything counted is whitespace, and the character before it, if any, is not. |
| `Text.Strip` | src/rag_core/pipeline.py:288 | The result is no longer than the input, and it is empty or neither starts nor ends with whitespace. |
| `Text.StripOffset` | src/rag_core/pipeline.py:288 | The stripped text is a contiguous slice of the input, and everything cut from either end is whitespace. |
| `Text.Lower` | src/rag_core/pipeline.py:288 | Lower-casing keeps the length and maps each character on its own; only `J` and `j` become `j`, only `A` and `a` become `a`. |
| `Text.Find` | src/rag_core/pipeline.py:288 | Returns the first index where the substring occurs, or `None` exactly when it occurs nowhere. |
| `Text.Contains` | src/rag_core/pipeline.py:288 | `sub in s` holds exactly when `sub` occurs at some index of `s`. |
| `Guard.IsOnTopicReply` | src/rag_core/pipeline.py:288 | Renders `"ja" in reply.strip().lower()`; `Guard.GuardDecision` characterises it. |
| `Guard.StripKeepsJa` | src/rag_core/pipeline.py:288 | Stripping whitespace neither creates nor removes a "ja" in the reply. |
| `Guard.LowerContainsJa` | src/rag_core/pipeline.py:288 | After lower-casing, "ja" occurs exactly where the reply spells j/J directly followed by a/A. |
| `Guard.GuardDecision` | src/rag_core/pipeline.py:288 | The on-topic branch is taken exactly when the reply, anywhere, has j or J directly followed by a or A. Every other reply takes the off-topic branch. |
| `Guard.GuardAcceptsJa` | src/rag_core/pipeline.py:175 | A reply holding "Ja", "JA" or "ja" anywhere is accepted, whatever surrounds it, so the affirmative answers the prompt asks for are accepted. |
| `Guard.GuardRejectsNeinAndEmpty` | src/rag_core/pipeline.py:288 | "Nein" and the empty reply take the off-topic branch. |
| `Guard.GuardAcceptsNegativeMentioningJa` | src/rag_core/pipeline.py:286-288 | A reply that starts with "Nein" but contains "Ja" anywhere is accepted, so the guard does not keep the question out. |
| `Prompts.RelevancePrompt` | src/rag_core/pipeline.py:172-179 | Renders the relevance template with the topic filled in: one human message holding the template text around the raw question. |
| `Prompts.ContextualizePrompt` | src/rag_core/pipeline.py:213-227 | Renders `contextualize_q_prompt`: the system instructions, then the history, then the newest question as a human message. |
| `Prompts.QaPrompt` | src/rag_core/pipeline.py:239-253 | Renders `qa_prompt`: the system instructions, a blank line and the context, then the history, then the question as a human message. |
| `Prompts.GroundedPrompt` | src/rag_core/pipeline.py:109-119 | Renders the module-level template: one human message with the context and the question in their slots. |
| `Prompts.PromptsCarryHistory` | src/rag_core/pipeline.py:221-253 | The rephrasing and answering prompts hold the whole history, unchanged, between the system message and the newest question. The relevance prompt is a single human message. |
| `Prompts.QaPromptDeterminesContext` | src/rag_core/pipeline.py:239-253 | The answer prompt determines its context, so the model sees the formatted passages exactly. |
| `Prompts.RelevancePromptDeterminesQuestion` | src/rag_core/pipeline.py:172-179 | The relevance prompt determines the question, so the checker sees the raw question exactly. |
| `Prompts.GuardPromptIsDistinct` | src/rag_core/pipeline.py:172-253 | No rephrasing or answering prompt equals a relevance prompt. |
| `Pipeline.CheckRelevance` | src/rag_core/pipeline.py:181-185 | One model call on the relevance prompt; a reply gives `Ok(IsOnTopicReply(reply))` (line 288), an error propagates. |
| `Pipeline.Rephrase` | src/rag_core/pipeline.py:230-234 | One model call on the rephrasing prompt; the reply is used verbatim as the retrieval query. |
| `Pipeline.ContextChain` | src/rag_core/pipeline.py:267-273 | Rephrase, then retrieve with the rephrased question, then `format_docs`; the first error stops the stage. |
| `Pipeline.RagChainWithHistory` | src/rag_core/pipeline.py:265-280 | The context stage, then one model call on the answer prompt built from the context, the history and the original question. |
| `Pipeline.GetRagChainResponse` | src/rag_core/pipeline.py:154-165 | Without a vector store, the result is the fixed connection apology and no collaborator is called. With one, the first call is always the relevance check on the raw question (the reranker and retrievers are taken as already built). |
| `Pipeline.CompressionRetrieve` | src/rag_core/pipeline.py:196-209 | Searches once with k = 10, then reranks those candidates with top_n = 5, skipping the reranker when the search found nothing. The result is the reranker's answer, or the search's error, or no documents when the search found none. Under the collaborator contracts, the result has at most 5 documents, each taken from the at most 10 candidates. |
| `Pipeline.GuardAcceptsIffJa` | src/rag_core/pipeline.py:285-290 | The guard accepts exactly when the checker answers and its reply spells j/J followed by a/A somewhere. A failing checker never counts as acceptance. |
| `Pipeline.AcceptedTurnCalls` | src/rag_core/pipeline.py:285-302 | An accepted turn makes the guard's call and then exactly the calls of the history-aware chain. |
| `Pipeline.AcceptedTurnOut` | src/rag_core/pipeline.py:285-302 | An accepted turn's result is the history-aware chain's result. |
| `Pipeline.UnacceptedTurnCalls` | src/rag_core/pipeline.py:154-302 | A turn without a store calls nothing. A turn whose guard rejected or failed makes only the guard's call. |
| `Pipeline.OffTopicBranch` | src/rag_core/pipeline.py:189-192 | A checker reply without "ja" gives exactly the off-topic sentence naming the allowed topic. The only call is the relevance check. |
| `Pipeline.OnTopicBranch` | src/rag_core/pipeline.py:265-280 | On acceptance, when every collaborator answers and the search finds at least one document, the calls are, in order: guard, rephrase, search(q, 10), rerank(q, candidates, 5), answer prompt. Retrieval gets the rephrased q. The answer prompt gets the formatted reranked docs, the history and the original question, and its reply is the result. |
| `Pipeline.EmptyRetrievalGivesEmptyContext` | src/rag_core/pipeline.py:272 | If the search returns nothing, the reranker is skipped and the answer prompt gets the empty context. |
| `Pipeline.GuardFailurePropagates` | src/rag_core/pipeline.py:285-290 | A failing relevance check is the turn's result. Nothing else runs. |
| `Pipeline.RagCallsShape` | src/rag_core/pipeline.py:265-280 | The accepted branch makes 1 to 4 calls. The first is the rephrasing. A later model call can only be the last call, and it is an answer prompt with the history and the original question. Every retrieval call carries the rephrasing. |
| `Pipeline.GuardRunsFirstAndOnce` | src/rag_core/pipeline.py:285-294 | With a vector store, the guard is the first call and is never repeated. Later calls happen exactly when the guard accepted. |
| `Pipeline.RetrievalSeesOnlyRephrasedQuestion` | src/rag_core/pipeline.py:272 | Every search and rerank call of a turn has the model's rephrasing of (history, question) as its query. |
| `Pipeline.RagPromptsCarryHistory` | src/rag_core/pipeline.py:221-280 | Every model call of the history-aware chain gets the history whole and unchanged, followed by the newest input. |
| `Pipeline.HistoryPassesThrough` | src/rag_core/pipeline.py:299-302 | With a vector store, the guard sees the question alone. Every later model call gets the history whole and unchanged, followed by the caller's question as given. |
| `Pipeline.ContextIsBounded` | src/rag_core/pipeline.py:199-209 | Under the configured collaborator contracts, a successful accepted turn answers from at most 5 passages, drawn from at most 10 candidates for the rephrased question. The last call is the answer prompt on exactly those passages. |
| `Pipeline.SequenceStops` | src/rag_core/pipeline.py:265-280 | Chaining a successful stage with a second stage keeps the property "stops at the first failing call". |
| `Pipeline.TurnStopsAtFirstFailure` | src/rag_core/pipeline.py:285-302 | Every call but the last succeeded. The turn fails exactly when its last call failed, and then with that call's error. So there are no retries, no fallback to unranked documents, and no masking of errors. |
| `ModuleChain.BuildRagChain` | src/rag_core/pipeline.py:128-138 | The replacement chain is built exactly when there is no vector store (and so no retriever). |
| `ModuleChain.InvokeRagChain` | src/rag_core/pipeline.py:128-138 | `rag_chain.invoke(question)`: the replacement gives its apology; the grounded chain searches the raw question, fills the template and asks the model once. |
| `ModuleChain.ReplacementIgnoresInput` | src/rag_core/pipeline.py:136-138 | The replacement chain returns the same fixed apology for every input and calls nothing. |
| `ModuleChain.GroundedChainFlow` | src/rag_core/pipeline.py:128-135 | With a vector store, and when the search answers, the single-turn chain searches for the raw question, then asks the model once with the template filled with the formatted documents and the question. |

## Left out

- The chat model, the embedding model, the Pinecone store and the Cohere
  reranker (src/rag_core/pipeline.py:68-69, 92-98, 199-209). They are
  foreign services, so they appear only as function parameters.
  Embeddings and similarity scores are left out. The reranker's
  relevance order and the metadata it adds are not constrained.
- Pipeline.ContextIsBounded and Pipeline.CompressionRetrieve: the bounds of
  10 and 5 hold only under `StoreHonoursK` and `RerankerSelects`. These
  state what the configured store and reranker promise; the code does not
  check them itself.
- Pipeline.Services: the reranker, the k=10 retriever and the compression
  retriever are built inside every call (src/rag_core/pipeline.py:199-209),
  after the store check and before the guard. The model takes them as built
  once and does not cover a failure while building them (for example a
  missing Cohere key), in which case no guard call would happen.
- Pipeline.CompressionRetrieve: skipping the reranker when the search
  returns nothing is the behaviour of LangChain's
  `ContextualCompressionRetriever`. That library is not part of this model.
- ModuleChain.GroundedChainFlow: `DefaultSearchK = 4` is LangChain's default
  for `as_retriever()` without `search_kwargs`. It is not set in this code.
- Text.Lower: only ASCII capitals are lower-cased. Python's `str.lower`
  applies the full Unicode mapping. No other character lower-cases to `j`
  or `a`, so the guard's verdict stays the same; the model states this and
  does not prove it.
- Loading `.env` and environment variables, the API-key check and the
  `print` diagnostics (src/rag_core/pipeline.py:32-61, 100-103). These are
  configuration and I/O.
- Template rendering internals (`ChatPromptTemplate`,
  `MessagesPlaceholder`). A prompt is modelled as the filled-in list of
  role-tagged messages.
- `as_retriever()` failing at line 98 after the store opened. In the code,
  `rag_chain` then becomes the replacement while `get_rag_chain_response`
  still runs. The model has one optional store behind both, so it does not
  cover that mixed case.
- Streaming answers. The code only calls `invoke`.
- Timeouts, concurrency and provider-side retries. None of them appear in
  the code.
- The commented-out single-argument version, the debug lines and the
  `__main__` smoke test (src/rag_core/pipeline.py:144-151, 304-306, 313-322).
- All of `app.py` (Streamlit UI, secrets, session history). `app.py` is not
  part of this model.
