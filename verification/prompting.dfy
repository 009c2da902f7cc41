/** `RAGSystem`: the three slot values handed to the chat prompt template, and
    the guard in front of the chat-model call. The template text itself is
    configuration and is not modelled; only the slot dictionary is. */
module Prompting {
  import opened Outcomes
  import opened PyText

  /** A retrieved chunk; only its text is used when building the prompt. */
  datatype Document = Document(pageContent: string)

  /** The slot dictionary passed to the prompt template. */
  datatype PromptSlots = PromptSlots(conversationHistory: string, context: string, question: string)

  /** Why a turn raised instead of producing an answer. */
  datatype Failure =
    | RetrievalFailed  // the vector store query raised
    | NoLlm            // `ValueError('No initialized LLM found')`
    | CompletionFailed // the chat model call raised (re-raised after logging)
    | SummaryFailed    // the summarisation chain raised

  /** `[doc.page_content for doc in related_documents]` */
  function PageContents(docs: seq<Document>): (texts: seq<string>)
    ensures |texts| == |docs|
    ensures forall k :: 0 <= k < |docs| ==> texts[k] == docs[k].pageContent
  {
    seq(|docs|, k requires 0 <= k < |docs| => docs[k].pageContent)
  }

  /** `create_chat_prompt`: context is `''.join` of the retrieved texts,
      history is `''.join(memory)`, the question passes through. */
  function CreateChatPrompt(question: string, docs: seq<Document>, memory: seq<string>): (p: PromptSlots)
    ensures p.question == question
    ensures |p.context| == SumLengths(PageContents(docs))
    ensures |p.conversationHistory| == SumLengths(memory)
  {
    PromptSlots(Join(memory, ""), Join(PageContents(docs), ""), question)
  }

  /** `generate_response`: without a configured model it raises before any call;
      otherwise it returns whatever the model call returns or raises. */
  function GenerateResponse(llmReady: bool, complete: PromptSlots -> Option<string>, prompt: PromptSlots)
    : (r: Result<string, Failure>)
    ensures !llmReady ==> r == Err(NoLlm)
    ensures llmReady ==> (r.Ok? <==> complete(prompt).Some?)
    ensures r.Ok? ==> r.value == complete(prompt).value
    ensures r.Err? ==> r.error == (if llmReady then CompletionFailed else NoLlm)
  {
    if !llmReady then Err(NoLlm)
    else match complete(prompt)
      case None => Err(CompletionFailed)
      case Some(text) => Ok(text)
  }

  /** Each retrieved document's text sits, in retrieval order and with nothing
      between, at the offset given by the lengths of the documents before it. */
  lemma ContextInRetrievalOrder(question: string, docs: seq<Document>, memory: seq<string>, i: nat)
    requires i < |docs|
    ensures var context := CreateChatPrompt(question, docs, memory).context;
            var off := SumLengths(PageContents(docs)[..i]);
            off + |docs[i].pageContent| <= |context| &&
            context[off..off + |docs[i].pageContent|] == docs[i].pageContent
  {
    JoinPieceAt(PageContents(docs), "", i);
  }

  /** Retrieving `a` then `b` gives the context of `a` followed by that of `b`. */
  lemma ContextAppend(question: string, a: seq<Document>, b: seq<Document>, memory: seq<string>)
    ensures CreateChatPrompt(question, a + b, memory).context
         == CreateChatPrompt(question, a, memory).context + CreateChatPrompt(question, b, memory).context
  {
    assert PageContents(a + b) == PageContents(a) + PageContents(b);
    JoinEmptyAppend(PageContents(a), PageContents(b));
  }

  /** The history slot is each memory entry in order with no separator; adding a
      message to memory extends the history by exactly that message. */
  lemma HistoryAppend(question: string, docs: seq<Document>, memory: seq<string>, message: string)
    ensures CreateChatPrompt(question, docs, memory + [message]).conversationHistory
         == CreateChatPrompt(question, docs, memory).conversationHistory + message
  {
    JoinEmptyAppend(memory, [message]);
  }

  /** With the default `memory=[]` the history slot is empty; with no documents
      the context slot is empty. */
  lemma EmptySlots(question: string)
    ensures CreateChatPrompt(question, [], []).conversationHistory == ""
    ensures CreateChatPrompt(question, [], []).context == ""
  {
  }
}
