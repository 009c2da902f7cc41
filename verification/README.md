# Conversation memory and prompt slots of a RAG question-answering bot

This project models the part of the retrieval-augmented chat bot that has its
own logic. The rest of the repository is wiring around a vector store, a chat
model and an evaluation library. Three pieces are modelled:

- **The rolling conversation memory** (`MemoryHandler`). It is a list of
  strings. `append_message` grows it by one. `summarize_messages` joins the last
  ten messages with single spaces and sends that text to a summariser. Once the
  summary comes back, it drops the last five messages with a clamping Python
  slice (`messages[:-5]`) and appends the summary. In `Memory` it is a class
  with a `seq<string>` field that its methods reassign. The pure functions
  `Window`, `WindowText` and `Compacted` specify those methods.
- **Prompt slot assembly** (`RAGSystem.create_chat_prompt`) and the guard in
  `generate_response`. These are pure functions in `Prompting`. The context
  slot is the retrieved `page_content` strings joined with no separator. The
  history slot is the memory joined with no separator. The question slot is the
  input line unchanged.
- **The chat loop of `main()`**, in `Session`. `Turn` and `Run` state one
  turn and a whole session as functions. `RunSession` and `TakeTurn` run the
  loop on a live `MemoryHandler` and are proved equal to those functions. Each
  turn reads a line and stops on `/exit`, compared after `strip().lower()`.
  Otherwise it retrieves documents, builds the prompt from the memory as it
  stands, and asks the model. It then appends `Human Question: <line>` and
  `AI Response: <reply>`, and compacts when the memory holds more than ten
  messages.

Python's built-ins used here live in `PyText`. They are negative, clamping
slice bounds, `str.join`, and `strip()`/`lower()` restricted to ASCII.

The external services are function-typed parameters that return an `Option`.
`None` stands for a call that raised. In a session, each turn carries its own
`Services` value, so the services may answer differently from turn to turn:
- the vector-store query;
- the chat-model call;
- the summarisation chain.

`main.py:77-157` holds a second copy of `MemoryHandler` and `RAGSystem`. Its
memory logic and slot values are the same as in `src/core/memory_handler.py`
and `src/core/rag_system.py`. The copies differ in four ways:
- the prompt wording;
- a `print` after summarising (main.py:114);
- `create_chat_prompt` has no `memory=[]` default at main.py:124, where
  src/core/rag_system.py:15 has one;
- main.py:147 returns `format_messages({...})` with the slot dictionary passed
  positionally, where src/core/rag_system.py:39 calls `invoke({...})`.

Both copies are modelled by one definition, and the table cites whichever copy
a row is about. The loop model assumes that formatting the prompt succeeds, as
it does with `invoke` (see "Left out").

Facts about the code that the model makes explicit:
- The summariser sees the last ten messages (src/core/memory_handler.py:38),
  but only five are evicted (src/core/memory_handler.py:43).
- No prefix (such as a persona message) is reserved from eviction.
- A memory shorter than five is replaced by the summary alone.
- A failure in retrieval, in the model call or in the summariser is not
  caught by the loop. It ends `main()`. The model records it as a `Raised`
  session end.
- A summariser failure leaves both of the turn's appends in place. The memory
  then holds twelve messages.

## Model

| member | source | states |
|---|---|---|
| `PyText.SliceBound` | src/core/memory_handler.py:43 | a Python slice bound: a negative bound counts from the end and the result is clamped to `0..n` |
| `PyText.SliceFrom` | src/core/memory_handler.py:38 | `s[i:]` with negative `i` has length `min(-i, n)` and is a suffix of `s` |
| `PyText.SliceTo` | src/core/memory_handler.py:43 | `s[:j]` with negative `j` has length `max(0, n + j)` and is a prefix of `s` |
| `PyText.Join` | src/core/memory_handler.py:38 | `sep.join(xs)` is empty for no pieces; otherwise its length is the pieces' total length plus `n - 1` separators |
| `PyText.JoinPieceAt` | src/core/rag_system.py:19 | piece `i` appears unchanged in the joined text, after the earlier pieces and `i` separators |
| `PyText.JoinSeparatorAt` | src/core/memory_handler.py:38 | between pieces `i` and `i + 1` the joined text holds exactly the separator |
| `PyText.JoinEmptyAppend` | src/core/rag_system.py:20 | `''.join` distributes over list concatenation |
| `PyText.StripTrims` | main.py:186 | `strip()` returns the part of the line between its leading and trailing whitespace; that part neither starts nor ends with whitespace and all around it is whitespace |
| `PyText.Strip` | main.py:186 | `str.strip()`: drops the leading and trailing ASCII whitespace; its properties are stated by `StripTrims` and `StripPadded` |
| `PyText.StripPadded` | main.py:186 | whitespace added around a string does not change what `strip()` returns |
| `PyText.Lower` | main.py:186 | `lower()` keeps the length and lowers each character (ASCII letters) |
| `Memory.Window` | src/core/memory_handler.py:38 | `messages[-10:]` is the last `min(10, n)` messages, oldest first |
| `Memory.WindowText` | src/core/memory_handler.py:38 | `' '.join(self.messages[-10:])`, the summariser's input: the window joined with single spaces; its properties are stated by `WindowTextSmall` and `WindowTextHolds` |
| `Memory.Compacted` | src/core/memory_handler.py:43-44 | after compaction the last element is the summary and the first `max(0, n - 5)` messages are unchanged; the length is `n - 4`, or 1 when `n < 5` |
| `Memory.MemoryHandler.constructor` | src/core/memory_handler.py:7-8 | a new memory is empty |
| `Memory.MemoryHandler.AppendMessage` | src/core/memory_handler.py:11-12 | appends exactly one message at the end and leaves the earlier ones unchanged |
| `Memory.MemoryHandler.SummarizeMessages` | src/core/memory_handler.py:38-44 | the summariser gets the space-joined window; on success the list becomes `old[:-5] + [summary]`; when the summariser raises the list is unchanged |
| `Memory.CompactedLong` | src/core/memory_handler.py:43-44 | with `n >= 5` the result is `old[0..n-5]` followed by the summary, of length `n - 4` |
| `Memory.CompactedShort` | src/core/memory_handler.py:43-44 | with `n < 5` the slice clamps to empty and the result is `[summary]` |
| `Memory.WindowTextSmall` | src/core/memory_handler.py:38 | with at most ten messages the summariser gets all of them space-joined; with none it gets `""` |
| `Memory.WindowTextHolds` | src/core/memory_handler.py:38 | each of the last ten messages appears verbatim in the summariser's input, in order, after the earlier window messages and one space each |
| `Memory.WindowOverlapsKept` | main.py:107-113 | with `n >= 10`, messages `n-10 .. n-6` are both in the summarised window and kept in place after compaction |
| `Prompting.PageContents` | src/core/rag_system.py:18 | one text per retrieved document, in retrieval order |
| `Prompting.CreateChatPrompt` | src/core/rag_system.py:11-43 | the question slot is the input unchanged; the context length is the sum of the `page_content` lengths; the history length is the sum of the memory lengths |
| `Prompting.GenerateResponse` | src/core/rag_system.py:45-53 | without a configured model it fails with `NoLlm` whatever the model would answer; otherwise it succeeds exactly when the model call does and returns its answer |
| `Prompting.ContextInRetrievalOrder` | main.py:126-127 | each document's text sits, unchanged and in retrieval order, at the offset given by the lengths of the documents before it |
| `Prompting.ContextAppend` | src/core/rag_system.py:18-19 | the context of `a + b` is the context of `a` followed by that of `b`, with no separator |
| `Prompting.HistoryAppend` | main.py:128 | the history slot of `memory + [m]` is the history of `memory` followed directly by `m` |
| `Prompting.EmptySlots` | src/core/rag_system.py:15-20 | with the default empty memory the history slot is `""`; with no documents the context slot is `""` |
| `Session.Grown` | main.py:193-194 | a turn appends exactly two messages, `Human Question: ` + input then `AI Response: ` + response, after the unchanged old memory |
| `Session.IsExit` | main.py:186 | `input_prompt.strip().lower() == '/exit'`; its properties are stated by `ExitAccepted` and `ExitOnlyPadded` |
| `Session.Turn` | main.py:189-197 | one non-exit loop body: retrieve, build the prompt from the memory as it stands, ask the model, append the two tagged messages, and compact past ten messages; each raise becomes `Crashed` with the memory at that point. Its properties are stated by `TurnLength`, `TurnSummaryOnlyWhenDue`, `TurnCompactionEvictsCurrentPair` and `TurnPromptPrecedesAppend` |
| `Session.Run` | main.py:184-199 | the whole loop: stop on `/exit` or at the end of input, otherwise take a turn and go on with the new memory, or end on a raise; its properties are stated by `RunBound`, `RunSteady` and `ExitEndsSession`, and `RunSession` is proved equal to it |
| `Session.TurnLength` | main.py:189-197 | an answered turn leaves `n + 2` messages if that is at most ten and `n - 2` otherwise; a failure before the appends leaves the memory unchanged; a summariser failure leaves `n + 2` messages |
| `Session.TurnSummaryOnlyWhenDue` | main.py:196-197 | while the two appends leave at most ten messages, the summariser is never consulted (any other summariser gives the same turn), and an answered turn leaves exactly the two appends |
| `Session.TurnCompactionEvictsCurrentPair` | main.py:196-197 | when a turn compacts, the pair it has just appended is among the five evicted: the memory becomes the old one without its last three messages, followed by the summariser's answer for the window of the grown list |
| `Session.TurnPromptPrecedesAppend` | main.py:190-194 | the prompt is built from the memory before the turn's appends; without compaction the next history is this history followed by exactly the new question and answer |
| `Session.RunBound` | main.py:184-199 | from an even length of at most ten (such as the empty start), every session end except a summariser failure leaves an even length of at most ten; a summariser failure leaves twelve |
| `Session.RunSteady` | main.py:196-197 | once the memory holds eight or ten messages, as after the first compaction, it holds eight or ten at every later end of session other than a summariser failure |
| `Session.ExitEndsSession` | main.py:185-187 | an `/exit` line ends the session with the memory and the printed answers unchanged; the session's end does not depend on that turn's services or on any later line |
| `Session.ExitAccepted` | main.py:186 | `/exit` in any letter case with any whitespace around it is an exit line |
| `Session.ExitOnlyPadded` | main.py:186 | an exit line is five characters that lower to `/exit`, with only whitespace around them |
| `Session.TakeTurn` | main.py:189-197 | one loop body on the live memory handler leaves the memory and returns the outcome that `Turn` specifies |
| `Session.RunSession` | main.py:174-199 | the loop over a fresh memory handler ends exactly as `Run` specifies from the empty memory |

## Left out

- Chat-model and summariser calls: these are network calls (`src/core/llm.py`, the summarisation chain and `generate_response`'s `invoke`). They are function parameters returning `Option`. Model name, endpoint, credentials and the float temperatures are not modelled.
- Prompt formatting in main.py: main.py:147 passes the slot dictionary to `format_messages` positionally. The prompt library is not part of this model. If its `format_messages` accepts keyword arguments only, that call raises on every non-exit line, after retrieval and before any append. `Session.Turn` instead follows src/core/rag_system.py:39 (`invoke`) and assumes formatting succeeds.
- Prompt templates (`PromptTemplate`, `ChatPromptTemplate`) and their Persian and English instruction text are library formatting. Only the slot dictionary is modelled.
- Vector store (`ChromaDB`, `src/core/chroma_db.py`), document loading and chunking (`DocumentHandler`, `src/core/document_handler.py`), the reranker (`src/core/reranker.py`) and the evaluation scripts (`evaluation.py`, `src/evaluation/evaluator.py`, `setup_knowledge_base.py`) delegate to external libraries. They are not part of this model. Retrieval is the per-turn `retrieve` function. A document carries only its `page_content`.
- Console I/O: `input()` is a finite list of lines, and running out of lines ends the session as `InputClosed` (Python raises `EOFError` there). The answers printed are returned in `replies`. The banner prints, the `SUMMARIZED LAST 5 MESSAGES` print and the error-log prints made before re-raising are not modelled. Those are `Error generating a response` (src/core/rag_system.py:52, main.py:156) and `Error retrieving related documents` (main.py:64).
- `strip()` and `lower()` are modelled on ASCII only. Non-ASCII whitespace and non-ASCII case mappings are not modelled.
- `MemoryHandler` does not keep the summariser as a field. It is passed to `SummarizeMessages` on each call, which also lets it answer differently each time.
- `Prompting.GenerateResponse`: "no configured model" is a boolean. In the source `self.llm` is always a chat-model object, so this guard does not fire in practice.
- Determinism of the slot values is not a separate lemma. `CreateChatPrompt` is a function, so equal inputs give equal slots by construction.
- `Session.RunSession` states only that the loop equals `Run`. The length bounds are stated about `Run` by `Session.RunBound` and `Session.RunSteady`.
