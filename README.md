# Chakra: a verified model of the multi-agent learning loop

Chakra answers a coding or document question with three language-model
agents:

- **Yantra** writes a first solution.
- **Sutra** critiques it.
- **Agni** rewrites it.

A heuristic **evaluator** scores the rewrite. The loop repeats while the
score keeps rising by at least `min_improvement`, up to `max_iterations`
rounds. It keeps the best solution. When that solution scores above 0.6,
it is remembered in **Smriti**, a memory table keyed by task hash.
Remembered solutions are offered to the generator next time.

Documents reach the agents through two retrievers:

- a keyword retriever, which ranks paragraphs by Jaccard similarity;
- a vector retriever, whose paragraph chunker is modelled here.

The HTTP API replays the same loop as a stream of server-sent events. A
browser client folds that stream into a "first code" panel and a "refined
code" panel. An analytics tracker records every run in Redis and serves
dashboard figures.

This project models that core in Dafny and proves what the code promises
about it. Each module mirrors one source file:

| module | file | form |
|---|---|---|
| `Wrappers`, `Text`, `Ranking` | helpers | Python string functions, `list.sort(reverse=True)` as a stable sort |
| `Evaluator` | `backend/evaluation/evaluator.py` | score functions, plus methods with the pattern loop |
| `BaseAgent` | `backend/agents/base_agent.py` | presets, messages, options, the two model calls |
| `StreamFramer` | `backend/agents/base_agent.py` | the line framer of `_call_ollama_stream`, as nested loops |
| `Yantra`, `Sutra`, `Agni` | `backend/agents/*.py` | prompt assembly loops proved equal to part lists |
| `Memory` | `backend/agents/smriti.py` | class `Smriti` over a `map` from task hash to row |
| `Retrieval` | `backend/rag/retriever.py` | class `SimpleRagRetriever` over a `seq` of chunks |
| `VectorRetrieval` | `backend/rag/vector_retriever.py` | `_chunk_text` as a loop, and the batch of `add_document` |
| `Orchestration` | `backend/orchestrator.py` | class `Orchestrator`, its round loop and the store gate |
| `Api` | `backend/api.py` | the event stream of `generate_process_events`, and its SSE framing |
| `Frontend` | `test_thorough_frontend_simulation.py` | class `FrontendSimulator` and its handlers |
| `Analytics` | `backend/analytics/tracker.py` | class `Tracker` over the Redis keys, with the metric derivation |

Each round goes through the model server, and the model server is not
computed. A `Backend` value answers every request of every round: a reply,
a streamed reply or a failure. The evaluator's regular-expression searches
on a text arrive as `Signals`. Everything else is computed as the source
computes it: prompts, options, framing, scores, improvements, plateau
stops, best tracking, memory updates, ranking, chunking, events, the
client's state and the tracker's figures.

Main results:

- **The loop stops as promised.** `Orchestration.LoopShape` proves:
  - the history is exactly the rounds played, each with its improvement;
  - `best_score` is the maximum of 0.0 and all scores, and
    `best_solution` is the output of the first round reaching it;
  - only the last round can fall short of `min_improvement`;
  - there are at most `max_iterations` rounds, and fewer only after a
    plateau.

  `Orchestration.Orchestrator.Process` adds that the memory table goes
  through exactly one store exactly when the best score is above 0.6, and
  is otherwise unchanged. The store itself keeps an existing row with an
  equal or higher score.
- **The stream is well framed.** `Api.SessionFrame`: the stream opens with
  `start`. It announces retrieval and memory matches exactly when there are
  some. It ends with exactly one `end` or `error`. `Api.FramesRoundTrip`
  and `Api.StreamDecodes`: the `data: ...\n\n` framing reads back the
  events in order.
- **End to end.** `Frontend.SessionView`: a client fed the whole stream of
  a normal run ends outside the improvement phase. Its refined code is the
  last round's improver output, and its first code is every round's
  generator text, in order. The `improved_token` event handler never runs,
  because the router sends those events to the token callback.
  (`Frontend.RoundView` proves all of this round by round.)
- **Tokens are never empty, and chunking does not matter.** The stream
  framer yields no empty token. A stream that is never stopped yields the
  same tokens however its decoded text was split into chunks
  (`StreamFramer.ChunkingIrrelevant`).

Some behaviour of the code as written is observable but is not a defect:

- The tracker's 200% cap for runs that start at zero is never reached. A
  gain from zero is handled by the earlier low-start branch
  (`Analytics.NonPositiveStart`).
- For streamed runs, the analytics `score` of a round is the improver's
  score (backend/api.py line 313). So the quality chart shows improver
  scores only.
- `get_quality_improvement_data(0)` returns the whole chart, as Python's
  `[-0:]` does.

`Api.Rules` selects between the two readings of two lines in backend/api.py
and one in backend/analytics/tracker.py:

- `AsWritten`: the code as written;
- `Intended`: the evident intent, described under Findings.

Both are modelled and proved, side by side. Where the code and its
comments disagree, the model follows the code.
`Orchestration.TaskRequest` holds the request defaults of backend/api.py
lines 56-60: no context, no retrieval, a code task.

## Model

| member | source | states |
|---|---|---|
| Evaluator.CodeEvaluation | backend/evaluation/evaluator.py:17-56 | correctness stays 0.5; completeness is 0.5 or 0.7; quality is 0.5 plus 0.1 per pattern and import hit, capped at 1; the total is the 0.4/0.3/0.3 average, lies in [0.5, 0.71], and is 0.5 exactly when nothing was found |
| Evaluator.AddPatternHits | backend/evaluation/evaluator.py:36-38 | the pattern loop adds 0.1 of quality per matching pattern |
| Evaluator.EvaluateCode | backend/evaluation/evaluator.py:17-56 | the method with the pattern loop computes exactly `CodeEvaluation` |
| Evaluator.CodeScoreMonotone | backend/evaluation/evaluator.py:36-54 | finding more patterns or imports never lowers the code total |
| Evaluator.AnswerEvaluation | backend/evaluation/evaluator.py:58-112 | without chunks every figure is 0.5; otherwise grounding lies in [0, 1], clarity in [0.5, 0.8], completeness stays 0.5, and the 0.5/0.3/0.2 total lies in [0.25, 0.84] |
| Evaluator.UngroundedAnswer | backend/evaluation/evaluator.py:74-91 | an answer sharing no word with the chunks and citing nothing has grounding 0 |
| Evaluator.FullyGroundedAnswer | backend/evaluation/evaluator.py:74-91 | an answer with exactly the chunks' words has grounding 1 |
| Evaluator.Evaluation | backend/evaluation/evaluator.py:114-125 | dispatches on `is_code`: code totals lie in [0.5, 0.71], prose totals in [0.25, 0.84], and prose without chunks scores 0.5; the task is not an input |
| Evaluator.Evaluate | backend/evaluation/evaluator.py:114-125 | the method computes `Evaluation` |
| Evaluator.TotalInUnitRange | backend/evaluation/evaluator.py:50-54 | every total lies in [0.25, 0.84], inside [0, 1] |
| BaseAgent.MakeAgent | backend/agents/base_agent.py:11-34 | default agents talk to `http://localhost:11434/api/chat` with the fast preset |
| BaseAgent.Messages | backend/agents/base_agent.py:54-57 | a system message only for a non-empty system prompt, then exactly one user message, last |
| BaseAgent.WithOverrides | backend/agents/base_agent.py:59-64 | the per-call options copy the preset, replacing only `num_predict` and `temperature` when given |
| BaseAgent.NoOverrides | backend/agents/base_agent.py:59-64 | without overrides the options are the preset itself |
| BaseAgent.Payload | backend/agents/base_agent.py:66-71 | the request carries the agent's URL and model, the messages, the stream flag and the overridden options |
| BaseAgent.Call | backend/agents/base_agent.py:46-80 | succeeds exactly when the server answers, with the stripped content; a failure raises "Error calling Ollama API: …" |
| BaseAgent.CallStream | backend/agents/base_agent.py:82-205 | the streamed call yields no empty token and raises only with the API error prefix |
| StreamFramer.NewlineAt | backend/agents/base_agent.py:125-126 | the cut is at the first newline, or at the end when there is none |
| StreamFramer.FinalContent | backend/agents/base_agent.py:170-178 | the leftover buffer yields at most one token, never an empty one |
| StreamFramer.TakeLine | backend/agents/base_agent.py:126-184 | one line: blank lines and invalid JSON are skipped, `error` stops silently, content is yielded, and `done` stops after one last decode of the buffer |
| StreamFramer.DrainLines | backend/agents/base_agent.py:125-184 | the `while '\n' in buffer` loop computes `Drain` |
| StreamFramer.FrameStream | backend/agents/base_agent.py:115-205 | the chunk loop around the line loop computes `StreamTokens` |
| StreamFramer.FeedAllStopped | backend/agents/base_agent.py:145-149 | once the generator has returned, later chunks change nothing |
| StreamFramer.StreamTokensNonEmpty | backend/agents/base_agent.py:152-163 | no empty token is ever yielded |
| StreamFramer.StreamRaises | backend/agents/base_agent.py:202-205 | an exception is raised only for a transport failure that arrived while still reading, and it carries the failure's text |
| StreamFramer.FeedAllIsDrain | backend/agents/base_agent.py:119-138 | until something stops the stream, feeding chunks equals draining their concatenation: unterminated text waits in the buffer |
| StreamFramer.ChunkingIrrelevant | backend/agents/base_agent.py:119-195 | a stream that is never stopped yields the same tokens however its decoded text is split into chunks |
| Yantra.BuildUserPrompt | backend/agents/yantra.py:29-51 | the appending loop builds the parts joined by newlines |
| Yantra.Outcome | backend/agents/yantra.py:54-62 | the result carries the stripped model text and the agent name; `used_rag` iff there are chunks, `used_examples` iff there are examples; a call failure propagates |
| Yantra.Process | backend/agents/yantra.py:12-62 | the method computes `Outcome` |
| Yantra.PromptStartsWithTask | backend/agents/yantra.py:29 | the prompt opens with "Task: " and the task |
| Yantra.ChunkSectionIffChunks | backend/agents/yantra.py:31-38 | the document-context header appears iff there are chunks |
| Yantra.ChunkSectionLayout | backend/agents/yantra.py:31-38 | chunks follow their header in order, numbered from 1, then the grounding instruction |
| Yantra.ExampleSectionIffExamples | backend/agents/yantra.py:40-46 | the past-solutions header appears iff there are examples |
| Yantra.ExampleSectionLayout | backend/agents/yantra.py:40-46 | examples follow their header in order, numbered from 1, then the reference hint |
| Yantra.ContextSectionLast | backend/agents/yantra.py:48-49 | non-empty context is the last part; otherwise there is no context part |
| Yantra.PromptQuotesChunks | backend/agents/yantra.py:31-38 | every chunk occurs in the prompt |
| Yantra.PromptQuotesExamples | backend/agents/yantra.py:40-46 | every example occurs in the prompt |
| Yantra.PromptQuotesContext | backend/agents/yantra.py:48-49 | non-empty context occurs in the prompt |
| Sutra.BuildUserPrompt | backend/agents/sutra.py:26-52 | the appending loop builds the parts joined by newlines |
| Sutra.Outcome | backend/agents/sutra.py:54-61 | the critique is the model text; the reviewed output and the task are echoed; a failure propagates |
| Sutra.Process | backend/agents/sutra.py:12-61 | the method computes `Outcome` |
| Sutra.PromptOpening | backend/agents/sutra.py:26-29 | the prompt opens with "Original Task: …", and the reviewed-output section is the second part |
| Sutra.ChecklistLast | backend/agents/sutra.py:40-52 | the review checklist is the last part, so the prompt ends with it |
| Sutra.VerifySectionIffChunks | backend/agents/sutra.py:31-38 | the verification header appears iff there are chunks |
| Sutra.VerifySectionLayout | backend/agents/sutra.py:31-38 | chunks follow the header in order, numbered from 1, then the hallucination check |
| Sutra.PromptQuotesInputs | backend/agents/sutra.py:26-38 | the reviewed output and every chunk occur in the prompt |
| Agni.BuildUserPrompt | backend/agents/agni.py:27-52 | the appending loop builds the parts joined by newlines |
| Agni.Outcome | backend/agents/agni.py:54-62 | the improved output is the model text; original output, critique and task are echoed; a failure propagates |
| Agni.Process | backend/agents/agni.py:12-62 | the method computes `Outcome` |
| Agni.PromptOpening | backend/agents/agni.py:27-31 | the first three parts are task, original output and critique, in that order |
| Agni.InstructionsLast | backend/agents/agni.py:41-52 | the rewrite instructions are the last part, so the prompt ends with them |
| Agni.DocSectionIffChunks | backend/agents/agni.py:33-39 | the document-context header appears iff there are chunks |
| Agni.DocSectionLayout | backend/agents/agni.py:33-39 | chunks follow the header in order, numbered from 1, then the grounding instruction |
| Agni.PromptQuotesInputs | backend/agents/agni.py:27-39 | original output, critique and every chunk occur in the prompt |
| Memory.StoreInto | backend/agents/smriti.py:53-88 | a new hash is inserted; an existing one is replaced only by a strictly better score, keeping its task text; otherwise the table is unchanged; no other row changes, and no stored score decreases |
| Memory.StoreKeepsConsistent | backend/agents/smriti.py:27 | storing under the task's own hash keeps every row under its task's hash: one row per task hash |
| Memory.StoreIdempotent | backend/agents/smriti.py:62-88 | storing the same thing twice is storing it once |
| Memory.Eligible | backend/agents/smriti.py:107-113 | the candidates are exactly the rows scoring at least `min_score` |
| Memory.SelectTop | backend/agents/smriti.py:107-115 | the scan selects distinct candidates in non-increasing score order, as many as `LIMIT` allows, and no row left out scores above a selected one |
| Memory.Matches | backend/agents/smriti.py:119-134 | the kept entries are exactly the candidates more than 0.2 similar |
| Memory.RankedShape | backend/agents/smriti.py:136-138 | the result is ordered by (similarity, score) descending, holds only entries more than 0.2 similar, at most `limit` of them, and every match when the limit allows |
| Memory.UnrelatedNeverReturned | backend/agents/smriti.py:121-127 | a stored task sharing no word with the query is never returned |
| Memory.Smriti.Store | backend/agents/smriti.py:44-91 | the table becomes `StoreInto` under the task's hash, and the one-row-per-hash invariant holds |
| Memory.Smriti.RetrieveSimilar | backend/agents/smriti.py:93-138 | the result is the ranked, cut matches among the top `2 * limit` eligible rows |
| Memory.Smriti.GetBestExamples | backend/agents/smriti.py:140-155 | the solutions of the top `limit` rows, best first, as many as the limit allows |
| Retrieval.ChunkIdInjective | backend/rag/retriever.py:44 | chunk ids of one document differ for different paragraph numbers |
| Retrieval.DocChunksShape | backend/rag/retriever.py:74-80 | one chunk per non-blank paragraph, stripped, from `source`, numbered over the kept paragraphs only |
| Retrieval.FileChunksShape | backend/rag/retriever.py:35-45 | chunks loaded from `.txt` files are non-empty stripped paragraphs, each from one of the files |
| Text.WordSimilarity | backend/rag/retriever.py:52-64 | the similarity lies in [0, 1] and is positive iff the two lower-cased word sets meet; backend/agents/smriti.py lines 121-125 compute the same measure |
| Retrieval.Retrieved | backend/rag/retriever.py:49-50 | with no chunks the result is empty |
| Retrieval.RetrievedIsTopPositive | backend/rag/retriever.py:66-70 | for `top_k >= 0` the result is the first min(`top_k`, p) ranked chunks, where the first p are those with a positive score; ties keep insertion order |
| Retrieval.RankingEntries | backend/rag/retriever.py:56-69 | every ranked entry carries its own text's score and comes from a chunk |
| Retrieval.RetrievedShape | backend/rag/retriever.py:69-70 | every returned text is a chunk text sharing a word with the query, in non-increasing score order |
| Retrieval.SimpleRagRetriever.constructor | backend/rag/retriever.py:11-45 | the index is `index.json` when present, else every `.txt` file chunked by paragraphs |
| Retrieval.SimpleRagRetriever.AddDocument | backend/rag/retriever.py:72-80 | the new chunks are appended after the existing ones, which stay unchanged |
| Retrieval.SimpleRagRetriever.Retrieve | backend/rag/retriever.py:47-70 | the method computes `Retrieved` |
| VectorRetrieval.Chunked | backend/rag/vector_retriever.py:61-102 | blank text gives no chunks; non-blank text gives at least one |
| VectorRetrieval.ChunkText | backend/rag/vector_retriever.py:61-102 | the loop updating `chunks`, `current_chunk` and `current_length` computes `Chunked` |
| VectorRetrieval.Flush | backend/rag/vector_retriever.py:76-86 | the current chunk is flushed only when the paragraph would overflow it and it is non-empty; the next chunk starts with the last `chunk_overlap` words of its last paragraph |
| VectorRetrieval.SlicesAt | backend/rag/vector_retriever.py:89-93 | window k is `words[i:i + chunk_size]` for the k-th start i of the range |
| VectorRetrieval.SlicesCover | backend/rag/vector_retriever.py:89-93 | with `chunk_size > chunk_overlap` the windows cover every word |
| VectorRetrieval.AppendWindows | backend/rag/vector_retriever.py:91-93 | the window loop appends each window joined by spaces, in order |
| VectorRetrieval.ChunkWordBound | backend/rag/vector_retriever.py:76-102 | unless the whole text is the fallback, no chunk holds more than `chunk_size + chunk_overlap` words |
| VectorRetrieval.ChunkedErr | backend/rag/vector_retriever.py:91 | chunking can fail only when the window step `chunk_size - chunk_overlap` is zero |
| VectorRetrieval.SmallTextOneChunk | backend/rag/vector_retriever.py:95-102 | a text of at most `chunk_size` words is one chunk: its paragraphs joined by single spaces |
| VectorRetrieval.ChunkMetadata | backend/rag/vector_retriever.py:122-126 | a chunk's metadata has `source` and `chunk_index` = str(i), unless the caller's metadata overrides them |
| VectorRetrieval.DocumentBatch | backend/rag/vector_retriever.py:104-134 | the batch has one distinct id `"{source}_{i}"`, one document and one metadata per chunk |
| VectorRetrieval.AddDocument | backend/rag/vector_retriever.py:104-140 | returns True iff the store is available, the text is not blank and the store accepts the batch |
| Orchestration.RoundOutcome | backend/orchestrator.py:68-115 | a round numbers itself k + 1 and scores the improver's output with the evaluator, a score in [0.25, 0.84] |
| Orchestration.ExamplesFirstRoundOnly | backend/orchestrator.py:83 | past solutions reach the generator's prompt in the first round only |
| Orchestration.RunStep | backend/orchestrator.py:117-137 | one step: the improvement is 0.0 in round 1 and the change from the previous score after it; the best is replaced only by a strictly greater score; the loop stops when a later round gains less than `min_improvement` |
| Orchestration.RunRecord | backend/orchestrator.py:63-137 | the history is the rounds played with their improvements, and the best is the maximum with its first round |
| Orchestration.RunGrows | backend/orchestrator.py:68 | the history only grows, one round per step, up to `max_iterations` |
| Orchestration.RunPlateau | backend/orchestrator.py:133-137 | only the last round can fall short, and a short history ends with one that did |
| Orchestration.RunLength | backend/orchestrator.py:68-137 | the history reaches `max_iterations` rounds unless some later round gains less than `min_improvement` |
| Orchestration.LoopShape | backend/orchestrator.py:63-137 | for the world's rounds: the history, the improvements, the best score and its first solution, the plateau rule, the bound, and at least one round when allowed |
| Orchestration.Iterate | backend/orchestrator.py:63-137 | the `for`/`break` loop computes `Run` |
| Orchestration.PlayRound | backend/orchestrator.py:78-115 | one round runs the three agents and the evaluator, and the first failure ends it |
| Orchestration.ReportOf | backend/orchestrator.py:152-160 | `final_score` and `final_solution` are the best; `total_iterations` counts the rounds; `rag_chunks` is present iff retrieval was requested |
| Orchestration.StoredHasSolution | backend/orchestrator.py:139-150 | a result above 0.6 always has a solution to store |
| Orchestration.Orchestrator.Process | backend/orchestrator.py:31-160 | looks up the top three matches above 0.7 among the six best rows and runs the loop; exactly when the run succeeds with a best score above 0.6, memory goes through one store of the best solution with metadata `iterations = len(iterations)` (which keeps an existing row scoring as high), and otherwise it is unchanged |
| Api.TokenLimitAsWritten | backend/api.py:189-190 | as written, fast mode always gets 512 tokens, and 384 is never chosen |
| Api.TokenLimitIntended | backend/api.py:189-190 | corrected: code gets 384 or 640, prose 512 or 1024, the smaller in fast mode; it differs only for code in fast mode |
| Api.YantraPartsVersusAgent | backend/api.py:172-184 | the stream's generator prompt is the agent's without the grounding instruction and the examples hint |
| Api.ExamplesFirstRoundOnly | backend/api.py:177 | past solutions are sent in the first round only |
| Api.YantraPromptQuotesChunks | backend/api.py:173-176 | the stream's generator prompt quotes every chunk |
| Api.AgniPromptQuotes | backend/api.py:241-258 | the stream's improver prompt quotes the output, the critique and every chunk |
| Api.ImprovedText | backend/api.py:265-284 | an improver exception becomes the error fallback, an empty answer the "Unable to generate" fallback; the text is stripped |
| Api.ImprovedTextNonEmpty | backend/api.py:272-284 | the improver text shown is never empty |
| Api.TokenEvents | backend/api.py:194-202 | one `token` event per generator token, counted from 1 |
| Api.Scored | backend/api.py:304-326 | `improvement` is the improver's score minus the generator's; `iteration_improvement` is the change from the previous improver score, or `improvement` in round 1 |
| Api.PlayTurn | backend/api.py:160-335 | a completed round yields `iteration_start`, `first_response_started`, the tokens, `first_response_complete`, `sutra_started`, `improving_started`, `improved_token`, `improved`, `iteration_complete`; a failed one at most the events up to `sutra_started` |
| Api.ImproverFailureContinues | backend/api.py:265-281 | an improver failure does not end the round: the round completes with the fallback text |
| Api.GeneratorOrCriticFailureRaises | backend/api.py:194-228 | a generator or critic failure ends the round with the exception's message |
| Api.GainAsWrittenIsZero | backend/api.py:328-346 | as written, the plateau check compares the round with itself: the gain is 0 |
| Api.RoundsAsWritten | backend/api.py:343-352 | as written, with a positive `min_improvement` at most min(2, `max_iterations`) rounds complete, and a second round ends at a plateau |
| Api.PlateauAsWrittenExample | backend/api.py:343-352 | three rounds gaining 0.2 each over a 0.05 threshold stop after two as written, and run all three as intended |
| Api.RoundsIntended | backend/api.py:343-352 | corrected: no round but the last gains less than `min_improvement`, and a short history ends with one that did |
| Api.RoundsRecord | backend/api.py:150-352 | the history is the rounds played and stays within `max_iterations` |
| Api.RoundsBest | backend/api.py:337-340 | the best is the maximum improver score (at least 0.0) with its first round |
| Api.SessionFrame | backend/api.py:131-393 | the stream opens with `start`, announces retrieval iff requested and memory iff there are matches, and ends with exactly one `end` or `error` |
| Api.SessionEnd | backend/api.py:367-376 | `end` carries the task, the best score and its first solution, and the round count |
| Api.FramesRoundTrip | backend/api.py:133-393 | a body of one-line payloads framed as `data: …\n\n` reads back as exactly those payloads |
| Api.StreamDecodes | backend/api.py:133-393 | with a newline-free encoding and its decoder, the client reads back the events in order |
| Api.StreamTurn | backend/api.py:150-335 | one round as the generator runs it computes `PlayTurn` |
| Api.RelayTokens | backend/api.py:192-202 | the token loop accumulates the text and yields one counted event per token |
| Api.StreamRounds | backend/api.py:150-352 | the round loop computes `Rounds` |
| Api.StreamLoop | backend/api.py:146-352 | a finished loop with a positive best score has a best solution |
| Api.Conclude | backend/api.py:354-393 | memory changes only for a finished result above 0.6, by one store of the task, best solution and score; the closing event is `end` or `error` |
| Api.Generate | backend/api.py:124-393 | the events are the session for the memory's top matches, and the memory changes only as `Remembered` says |
| Frontend.FrontendSimulator.constructor | test_thorough_frontend_simulation.py:13-24 | a fresh simulator is outside the improvement phase, with all code strings empty |
| Frontend.FrontendSimulator.ProcessLine | test_thorough_frontend_simulation.py:26-42 | the method performs `AfterLine` on the whole state |
| Frontend.FrontendSimulator.OnToken | test_thorough_frontend_simulation.py:44-67 | the method performs `AfterToken` on the whole state |
| Frontend.FrontendSimulator.OnEvent | test_thorough_frontend_simulation.py:69-119 | the method performs `AfterEvent` on the whole state |
| Frontend.Routing | test_thorough_frontend_simulation.py:31-42 | an event reaches exactly one callback: the token callback iff it is `token` or `improved_token` with a non-empty token |
| Frontend.TokenPlacement | test_thorough_frontend_simulation.py:54-67 | a token extends the refined code while improving, else the first code, never both |
| Frontend.ImprovingStartedClears | test_thorough_frontend_simulation.py:79-83 | `improving_started` enters the phase with empty refined code |
| Frontend.ImprovedShows | test_thorough_frontend_simulation.py:102-119 | `improved` shows `improved_output`, or else `solution`, and leaves the phase; with neither, only the log changes |
| Frontend.FirstCodeGrows | test_thorough_frontend_simulation.py:63-64 | the first code is never reset: every later first code extends it |
| Frontend.AfterAllSynced | test_thorough_frontend_simulation.py:54-115 | the displayed states always equal the working strings |
| Frontend.RoundView | test_thorough_frontend_simulation.py:86-100 | after a round of the stream the refined code is the improver's output, the phase is closed, and the `improved_token` event handler never ran |
| Frontend.SessionView | test_thorough_frontend_simulation.py:26-119 | fed a whole normal stream, the client ends outside the improvement phase, shows the last improver output as refined code and every round's generator text, in order, as first code, and its event callback never received `improved_token` |
| Analytics.PercentSign | backend/analytics/tracker.py:84-96 | the percentage is positive iff the final score beats the initial one, and negative only from a positive start |
| Analytics.PercentRelative | backend/analytics/tracker.py:85-86 | above 0.01 the percentage is the improvement relative to the initial score |
| Analytics.PercentLowStart | backend/analytics/tracker.py:87-89 | from at most 0.01, any gain counts between 10% and 500% |
| Analytics.NonPositiveStart | backend/analytics/tracker.py:90-96 | from zero or less, the 200% branch is never reached, and no gain gives 0% |
| Analytics.DeriveFacts | backend/analytics/tracker.py:72-104 | improvement is final minus initial; the percentage is positive iff it is; with no rounds, both scores are the final score and nothing improved |
| Analytics.ApiDerive | backend/analytics/tracker.py:75-80 | for streamed rounds, the initial figure is the first generator score (or the improver score when it is zero), and the final figure is the improver score unless zero or equal, when it is the best score |
| Analytics.RecordedFacts | backend/analytics/tracker.py:106-150 | the task gets the next id and becomes the newest; its hash holds the task cut to 100 characters and the derived figures; rounds are stored under 1..n; nothing else changes |
| Analytics.ZRevRangeFacts | backend/analytics/tracker.py:185-193 | the range is the newest ids, newest first, as many as `limit` asks for |
| Analytics.ForgetFacts | backend/analytics/tracker.py:170-181 | deleting removes each doomed task's hash, id, listed rounds and round set, and keeps everything else |
| Analytics.CleanupAsWrittenNeverTrims | backend/analytics/tracker.py:164-165 | as written, with `keep_count >= 1` the deletion branch is never entered and the store is unchanged |
| Analytics.CleanupExample | backend/analytics/tracker.py:164-168 | with 101 tasks and a limit of 100, nothing is deleted as written; corrected, the oldest is |
| Analytics.CleanupIntendedKeepsNewest | backend/analytics/tracker.py:158-181 | corrected: exactly the newest `keep_count` ids stay in order, and every other task is deleted |
| Analytics.RecordKeepsAllAsWritten | backend/analytics/tracker.py:153 | as written, recording never deletes a task: every earlier id stays |
| Analytics.PresentFacts | backend/analytics/tracker.py:224-232 | the listed tasks are exactly the stored ones among the ids |
| Analytics.SummaryFacts | backend/analytics/tracker.py:245-266 | with no tasks every figure is 0; otherwise the count is the number of tasks, latency and rounds are not negative, and scores in [0, 1] give accuracy in [0, 100] |
| Analytics.Ascending | backend/analytics/tracker.py:281 | `sorted(iter_nums, key=int)`: each round number once, increasing |
| Analytics.PointFacts | backend/analytics/tracker.py:292-306 | a bar's improvement is after minus before: the lowest and highest stored rounds' scores times 100, or the task's own figures times 100 |
| Analytics.ChartTail | backend/analytics/tracker.py:273-308 | of a chart of at most ten bars, a positive limit keeps exactly min(`limit`, its length) bars, and a limit of 0 keeps all of them |
| Analytics.Tracker.TaskIds | backend/analytics/tracker.py:185-196 | the newest ids, newest first, `limit` of them; none without a connection |
| Analytics.Tracker.Task | backend/analytics/tracker.py:198-223 | a task is found iff connected and its hash exists |
| Analytics.Tracker.RecordTask | backend/analytics/tracker.py:58-156 | without a connection nothing changes; otherwise the store is the recorded one, cleaned with a limit of 100 |
| Analytics.Tracker.StoreRounds | backend/analytics/tracker.py:136-150 | the loop writes every round's hash and adds its number to the task's set |
| Analytics.Tracker.CleanupOldTasks | backend/analytics/tracker.py:158-183 | the store becomes `Cleaned` for the rules in force |
| Analytics.Tracker.ForgetTasks | backend/analytics/tracker.py:170-181 | the deletion loop removes the doomed tasks one at a time |
| Analytics.Tracker.GetAllTasks | backend/analytics/tracker.py:224-232 | the stored hashes of the newest `limit` ids, newest first |
| Analytics.Tracker.GetMetrics | backend/analytics/tracker.py:234-266 | the summary of the 100 newest tasks: zeros without a connection or without tasks |
| Analytics.Tracker.GetQualityImprovementData | backend/analytics/tracker.py:268-308 | one bar per task of the ten newest, then the last `limit` bars |
| Ranking.SortDescSorted | backend/rag/retriever.py:69 | the descending sort yields non-increasing keys |
| Ranking.SortDescPermutes | backend/rag/retriever.py:69 | the sort is a permutation of its input |
| Ranking.SortDescStable | backend/agents/smriti.py:137 | the sort keeps the input order among equal keys, as Python's sort does |
| Text.StripIdempotent | backend/agents/base_agent.py:78 | stripping twice is stripping once |
| Text.SplitOnJoin | backend/rag/retriever.py:74 | joining the pieces of a split with its separator gives back the text |
| Text.NatToStringRoundTrip | backend/analytics/tracker.py:114 | the decimal text of a number reads back as that number |

## Left out

- Model-server HTTP calls (httpx) are not modelled. The server is a
  `Backend` value whose answers are given per round and per request;
  timeouts and status codes are only a `Failure` with a message. The
  `token_callback` of `_call_ollama_stream` does not change what is yielded,
  and it is left out.
- Text.WordSimilarity: lower-cases through `Text.Lower`, which folds ASCII
  capitals only. Python's `str.lower()` folds every Unicode cased letter and
  can lengthen a string ('İ' becomes two code points). Full Unicode case
  mapping needs Unicode tables, which are not modelled. So for text with
  non-ASCII capitals the similarity can be lower than in the source: "Éclair
  recipe" against "éclair recipe" scores 1/3 here but 1.0 in
  backend/rag/retriever.py lines 52-64 and backend/agents/smriti.py lines
  121-125.
- Memory.Matches: for non-ASCII capitals, the 0.2 threshold is applied to
  the ASCII-folded similarity.
- Retrieval.Retrieved: for non-ASCII capitals, chunks are ranked by the
  ASCII-folded similarity.
- Evaluator.AnswerEvaluation: for non-ASCII capitals, grounding is computed
  on ASCII-folded word sets.
- StreamFramer.ChunkingIrrelevant: stated over chunks that are already
  text. The source decodes each byte chunk on its own with
  `decode('utf-8', errors='ignore')` (backend/agents/base_agent.py line
  123), so a multi-byte character split across two chunks is dropped. The
  model does not capture this loss, and in the source the tokens can
  depend on how the bytes were chunked.
- JSON encoding and decoding are not modelled. Events are a datatype. The
  framer's `json.loads` is a parameter `parse`, and the SSE payload
  encoding is a parameter `encode` with its decoder. The
  `max_tokens_reached` flag of the framer is never read, and it is left out.
- The evaluator's regular expressions are not matched character by
  character. The outcome of each search on a text is a `Signals` input.
- Float arithmetic is not modelled. Scores are `real`, so rounding such as
  0.5 + 5 × 0.1 is exact here. `round(…, 1)`, `round(…, 2)` and the `:.2%`
  plateau message formatting are left out: the plateau event keeps its two
  numbers.
- Concurrency is not modelled. The `asyncio` parallel retrieval in
  `Orchestrator.process` is two sequential reads. The analytics call that
  `run_background_task` spawns after a run is not part of the stream model.
  The tracker is modelled on its own, fed the recorded rounds through
  `Analytics.ApiIterations`.
- The vector store is not modelled: ChromaDB, sentence-transformer
  embeddings, `retrieve`, `delete_document`, `list_documents` and
  `get_document_count` all call into it. What `retrieve` answers is an
  input to the orchestrator and the stream. `add_document` is modelled up
  to the batch it sends; whether the store is available and accepts the
  batch are inputs.
- SQLite mechanics are not modelled. The memory table is a map from task
  hash to row, and md5 is an opaque function fixed at construction. The SQL
  `ORDER BY quality_score DESC` leaves the order of equal scores open, so
  the model fixes no tie order either. The `created_at` and `id` columns
  are left out.
- File I/O is not modelled. The keyword retriever's documents directory is
  given as its contents: an optional `index.json` and the `.txt` files in
  scan order. `_save_index` writes a file and is left out.
- Redis is not modelled. Its keys are a `Store` value. `hset` replaces a
  hash here instead of merging into it: ids are fresh, so nothing is
  merged. Redis errors and the `except` branches that print them are left
  out. The round set's members are numbers rather than strings, and the
  per-round deletion loop of the cleanup is one map comprehension, done
  task by task.
- Clocks and dates are not modelled. The record timestamp is a parameter.
  `zadd` with the current time is modelled as moving the id to the newest
  end, which assumes no two records share a timestamp.
  `get_performance_history` and `get_recent_tasks` only filter by datetimes
  and format them, and they are left out.
- `print` calls and the simulator's `events_received` and
  `tokens_received` logs are left out. They are written but never read by
  the handlers. The `onToken` and `onEvent` call logs are kept, without
  their timestamps.
- The FastAPI app, CORS, the endpoints other than the event stream, and
  `StreamingResponse` are not modelled. Neither are the test scripts
  outside `FrontendSimulator`, nor backend/rag/document_parser.py.
- `str()` and `int()`/`float()` conversions of tracker fields are left out.
  Numbers are kept as numbers.

## Findings

| source | as written | input that shows it | evidently intended | confidence | as-written member | corrected member |
|---|---|---|---|---|---|---|
| backend/api.py:328-346 | the plateau check reads `iterations[-1]` after the current round was appended, so it compares the round's score with itself | three rounds with improver scores 0.3, 0.5, 0.7 and `min_improvement` 0.05: the stream reports a plateau and stops after round 2 | compare with the previous round, as backend/orchestrator.py:134 does with `iterations[-2]` | high, not executed | Api.RoundsAsWritten, Api.PlateauAsWrittenExample | Api.RoundsIntended |
| backend/api.py:189-190 | `512 if fast_mode else 1024 if not is_code else (384 if fast_mode else 640)` tests `fast_mode` first, so fast mode always gets 512 (the same line recurs at 263) | a code task in fast mode gets 512 tokens, not the 384 of the comment on line 189 | code 384/640 and prose 512/1024, the smaller in fast mode | high, not executed | Api.TokenLimitAsWritten | Api.TokenLimitIntended |
| backend/analytics/tracker.py:164-165 | the guard counts the ids fetched with `limit=keep_count`, which are never more than `keep_count` | 101 stored tasks and `keep_count` 100: nothing is deleted | the guard counts all ids, so tasks beyond the newest 100 are deleted | high, not executed | Analytics.CleanupAsWrittenNeverTrims, Analytics.CleanupExample | Analytics.CleanupIntendedKeepsNewest |
