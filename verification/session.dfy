/** The question-answer loop of `main()`: read a line, stop on `/exit`,
    retrieve, build the prompt from the memory as it stands, ask the model,
    append the question and the answer, and compact when the memory has grown
    past ten messages. Console input is a finite list of lines; the external
    services answer through the functions each turn carries. */
module Session {
  import opened Outcomes
  import opened PyText
  import opened Memory
  import opened Prompting

  /** The memory is compacted once it holds more than this many messages. */
  const Threshold: nat := 10
  const HumanTag := "Human Question: "
  const AiTag := "AI Response: "

  /** The lengths the memory can have between turns, starting from empty:
      even and at most `Threshold`. */
  predicate Settled(n: nat)
  {
    n == 0 || n == 2 || n == 4 || n == 6 || n == 8 || n == 10
  }

  /** How the external services answer during one turn; `None` is a call that raised. */
  datatype Services = Services(
    retrieve: string -> Option<seq<Document>>,
    complete: PromptSlots -> Option<string>,
    summarize: string -> Option<string>)

  /** One line typed at the prompt, with the services' behaviour for that turn. */
  datatype TurnInput = TurnInput(line: string, services: Services)

  /** `input.strip().lower() == '/exit'` */
  predicate IsExit(line: string)
  {
    Lower(Strip(line)) == "/exit"
  }

  datatype TurnOutcome =
    | Answered(prompt: PromptSlots, reply: string, memory: seq<string>)
    | Crashed(failure: Failure, memory: seq<string>)

  /** The memory after the two appends of a turn. */
  function Grown(memory: seq<string>, question: string, reply: string): (g: seq<string>)
    ensures |g| == |memory| + 2
    ensures g[..|memory|] == memory
    ensures g[|memory|] == HumanTag + question && g[|memory| + 1] == AiTag + reply
  {
    memory + [HumanTag + question, AiTag + reply]
  }

  /** One non-exit turn of the loop, starting from `memory`. */
  function Turn(llmReady: bool, services: Services, memory: seq<string>, question: string): TurnOutcome
  {
    match services.retrieve(question)
    case None => Crashed(RetrievalFailed, memory)
    case Some(docs) =>
      var prompt := CreateChatPrompt(question, docs, memory);
      match GenerateResponse(llmReady, services.complete, prompt)
      case Err(f) => Crashed(f, memory)
      case Ok(reply) =>
        var grown := Grown(memory, question, reply);
        if |grown| <= Threshold then Answered(prompt, reply, grown)
        else match services.summarize(WindowText(grown))
          case None => Crashed(SummaryFailed, grown)
          case Some(summary) => Answered(prompt, reply, Compacted(grown, summary))
  }

  datatype EndReason = Exited | InputClosed | Raised(failure: Failure)

  /** How a session ends: why, the memory at that point, and the answers printed. */
  datatype SessionEnd = SessionEnd(reason: EndReason, memory: seq<string>, replies: seq<string>)

  /** The rest of a session from `memory`, having printed `replies` so far. */
  function Run(llmReady: bool, memory: seq<string>, replies: seq<string>, inputs: seq<TurnInput>): SessionEnd
    decreases |inputs|
  {
    if inputs == [] then SessionEnd(InputClosed, memory, replies)
    else if IsExit(inputs[0].line) then SessionEnd(Exited, memory, replies)
    else match Turn(llmReady, inputs[0].services, memory, inputs[0].line)
      case Crashed(f, m) => SessionEnd(Raised(f), m, replies)
      case Answered(_, reply, m) => Run(llmReady, m, replies + [reply], inputs[1..])
  }

  /** A turn that answers leaves `n + 2` messages when that is at most ten,
      and otherwise `n + 2 - 4` after compaction; a turn that raises before
      appending leaves the memory as it was, one whose summariser raises
      leaves both appends in place. */
  lemma TurnLength(llmReady: bool, services: Services, memory: seq<string>, question: string)
    ensures var t := Turn(llmReady, services, memory, question);
            && (t.Answered? ==> |t.memory| == if |memory| + 2 <= Threshold then |memory| + 2 else |memory| - 2)
            && (t.Crashed? && t.failure != SummaryFailed ==> t.memory == memory)
            && (t.Crashed? && t.failure == SummaryFailed ==> |memory| + 2 > Threshold && |t.memory| == |memory| + 2)
  {
  }

  /** The summariser is consulted only when the turn's appends take the memory
      past ten messages: below that, any other summariser gives the same turn,
      and an answered turn leaves exactly the two appends. */
  lemma TurnSummaryOnlyWhenDue(llmReady: bool, services: Services, memory: seq<string>, question: string,
                               other: string -> Option<string>)
    requires |memory| + 2 <= Threshold
    ensures Turn(llmReady, services, memory, question) == Turn(llmReady, services.(summarize := other), memory, question)
    ensures var t := Turn(llmReady, services, memory, question);
            t.Answered? ==> t.memory == Grown(memory, question, t.reply)
  {
  }

  /** When a turn compacts, the pair it has just appended falls inside the five
      evicted messages: the new memory is the old one without its last three
      messages, plus the summary. */
  lemma TurnCompactionEvictsCurrentPair(llmReady: bool, services: Services, memory: seq<string>, question: string)
    requires |memory| + 2 > Threshold
    ensures var t := Turn(llmReady, services, memory, question);
            t.Answered? ==>
              t.memory == memory[..|memory| - 3] + [services.summarize(WindowText(Grown(memory, question, t.reply))).value]
  {
    var t := Turn(llmReady, services, memory, question);
    if t.Answered? {
      var docs := services.retrieve(question).value;
      var reply := GenerateResponse(llmReady, services.complete, CreateChatPrompt(question, docs, memory)).value;
      assert t.reply == reply;
      var grown := Grown(memory, question, reply);
      var summary := services.summarize(WindowText(grown)).value;
      assert t.memory == Compacted(grown, summary);
      CompactedLong(grown, summary);
      assert grown[..|grown| - EvictCount] == memory[..|memory| - 3];
    }
  }

  /** The prompt is built from the memory before the turn's own messages are
      appended; when no compaction follows, the next turn's history is this
      turn's history extended by exactly the new question and answer. */
  lemma TurnPromptPrecedesAppend(llmReady: bool, services: Services, memory: seq<string>, question: string, nextDocs: seq<Document>, nextQuestion: string)
    ensures var t := Turn(llmReady, services, memory, question);
            t.Answered? ==>
              && services.retrieve(question).Some?
              && t.prompt == CreateChatPrompt(question, services.retrieve(question).value, memory)
              && (|memory| + 2 <= Threshold ==>
                    CreateChatPrompt(nextQuestion, nextDocs, t.memory).conversationHistory
                    == t.prompt.conversationHistory + HumanTag + question + AiTag + t.reply)
  {
    var t := Turn(llmReady, services, memory, question);
    if t.Answered? && |memory| + 2 <= Threshold {
      var first := memory + [HumanTag + question];
      HistoryAppend(nextQuestion, nextDocs, memory, HumanTag + question);
      HistoryAppend(nextQuestion, nextDocs, first, AiTag + t.reply);
      assert t.memory == first + [AiTag + t.reply];
    }
  }

  /** Starting from an even length of at most ten, every finished turn keeps the
      length even and at most ten; a summariser failure leaves twelve. */
  lemma {:induction false} RunBound(llmReady: bool, memory: seq<string>, replies: seq<string>, inputs: seq<TurnInput>)
    requires Settled(|memory|)
    ensures var end := Run(llmReady, memory, replies, inputs);
            && (end.reason != Raised(SummaryFailed) ==> Settled(|end.memory|))
            && (end.reason == Raised(SummaryFailed) ==> |end.memory| == Threshold + 2)
    decreases |inputs|
  {
    if inputs != [] && !IsExit(inputs[0].line) {
      var t := Turn(llmReady, inputs[0].services, memory, inputs[0].line);
      TurnLength(llmReady, inputs[0].services, memory, inputs[0].line);
      if t.Answered? {
        RunBound(llmReady, t.memory, replies + [t.reply], inputs[1..]);
      }
    }
  }

  /** Once the memory holds eight or ten messages (as after the first
      compaction), it holds eight or ten at the end of every later turn. */
  lemma {:induction false} RunSteady(llmReady: bool, memory: seq<string>, replies: seq<string>, inputs: seq<TurnInput>)
    requires |memory| == 8 || |memory| == 10
    ensures var end := Run(llmReady, memory, replies, inputs);
            end.reason != Raised(SummaryFailed) ==> |end.memory| == 8 || |end.memory| == 10
    decreases |inputs|
  {
    if inputs != [] && !IsExit(inputs[0].line) {
      var t := Turn(llmReady, inputs[0].services, memory, inputs[0].line);
      TurnLength(llmReady, inputs[0].services, memory, inputs[0].line);
      if t.Answered? {
        RunSteady(llmReady, t.memory, replies + [t.reply], inputs[1..]);
      }
    }
  }

  /** An `/exit` line ends the session at once, with the memory and the printed
      answers as they were: neither that turn's services nor any later line
      make a difference. */
  lemma ExitEndsSession(llmReady: bool, memory: seq<string>, replies: seq<string>, line: string,
                        services: Services, rest: seq<TurnInput>, otherServices: Services, otherRest: seq<TurnInput>)
    requires IsExit(line)
    ensures Run(llmReady, memory, replies, [TurnInput(line, services)] + rest)
         == Run(llmReady, memory, replies, [TurnInput(line, otherServices)] + otherRest)
    ensures var end := Run(llmReady, memory, replies, [TurnInput(line, services)] + rest);
            end.reason == Exited && end.memory == memory && end.replies == replies
  {
  }

  /** `/exit` in any letter case, with any whitespace around it, ends the loop. */
  lemma ExitAccepted(pre: string, word: string, post: string)
    requires AllSpace(pre) && AllSpace(post)
    requires Lower(word) == "/exit"
    ensures IsExit(pre + word + post)
  {
    StripPadded(pre, word, post);
    assert LowerChar(word[0]) == '/' && LowerChar(word[4]) == 't';
    assert Strip(word) == word;
  }

  /** Conversely, an exit line is `/exit`, in some letter case, with only
      whitespace around it. */
  lemma ExitOnlyPadded(line: string)
    requires IsExit(line)
    ensures var l := LeadingSpaces(line);
            && l + 5 <= |line|
            && AllSpace(line[..l]) && AllSpace(line[l + 5..])
            && Lower(line[l..l + 5]) == "/exit"
  {
    StripTrims(line);
  }

  /** The body of `main()`'s loop for a line that is not `/exit`: retrieval,
      prompt, answer, the two appends and the conditional compaction, each
      step on the live `MemoryHandler`. */
  method TakeTurn(memoryHandler: MemoryHandler, llmReady: bool, input: TurnInput) returns (outcome: TurnOutcome)
    modifies memoryHandler
    ensures outcome == Turn(llmReady, input.services, old(memoryHandler.messages), input.line)
    ensures memoryHandler.messages == outcome.memory
  {
    ghost var before := memoryHandler.messages;
    var related := input.services.retrieve(input.line);
    if related.None? {
      return Crashed(RetrievalFailed, memoryHandler.messages);
    }
    var prompt := CreateChatPrompt(input.line, related.value, memoryHandler.messages);
    var response := GenerateResponse(llmReady, input.services.complete, prompt);
    if response.Err? {
      return Crashed(response.error, memoryHandler.messages);
    }
    memoryHandler.AppendMessage(HumanTag + input.line);
    memoryHandler.AppendMessage(AiTag + response.value);
    assert memoryHandler.messages == Grown(before, input.line, response.value);
    if |memoryHandler.messages| > Threshold {
      var ok := memoryHandler.SummarizeMessages(input.services.summarize);
      if !ok {
        return Crashed(SummaryFailed, memoryHandler.messages);
      }
    }
    outcome := Answered(prompt, response.value, memoryHandler.messages);
  }

  /** `main()`'s loop over a fresh `MemoryHandler`, until `/exit`, the end of
      input, or an exception. */
  method RunSession(llmReady: bool, inputs: seq<TurnInput>) returns (end: SessionEnd)
    ensures end == Run(llmReady, [], [], inputs)
  {
    var memoryHandler := new MemoryHandler();
    var replies: seq<string> := [];
    var i := 0;
    while i < |inputs|
      invariant 0 <= i <= |inputs|
      invariant Run(llmReady, memoryHandler.messages, replies, inputs[i..]) == Run(llmReady, [], [], inputs)
    {
      var input := inputs[i];
      assert inputs[i..][0] == input && inputs[i..][1..] == inputs[i + 1..];
      if IsExit(input.line) {
        end := SessionEnd(Exited, memoryHandler.messages, replies);
        break;
      }
      var outcome := TakeTurn(memoryHandler, llmReady, input);
      if outcome.Crashed? {
        end := SessionEnd(Raised(outcome.failure), memoryHandler.messages, replies);
        break;
      }
      replies := replies + [outcome.reply];
      i := i + 1;
    }
    if i == |inputs| {
      end := SessionEnd(InputClosed, memoryHandler.messages, replies);
    }
  }
}
