/** The rolling conversation memory (`MemoryHandler`): a list of strings that
    grows one message at a time and is compacted in place by asking a
    summariser for a summary of the most recent messages. */
module Memory {
  import opened Outcomes
  import opened PyText

  /** How many of the most recent messages are shown to the summariser. */
  const WindowSize: nat := 10
  /** How many messages are dropped from the tail when compacting. */
  const EvictCount: nat := 5

  /** `messages[-10:]`: the last `min(10, n)` messages, oldest first. */
  function Window(messages: seq<string>): (w: seq<string>)
    ensures |w| == if |messages| < WindowSize then |messages| else WindowSize
    ensures w == messages[|messages| - |w|..]
  {
    SliceFrom(messages, -(WindowSize as int))
  }

  /** `' '.join(messages[-10:])`: the text handed to the summariser. */
  function WindowText(messages: seq<string>): string
  {
    Join(Window(messages), " ")
  }

  /** `messages[:-5] + [summary]`: the list after a successful compaction. */
  function Compacted(messages: seq<string>, summary: string): (r: seq<string>)
    ensures |r| == if |messages| < EvictCount then 1 else |messages| - EvictCount + 1
    ensures r[|r| - 1] == summary
    ensures r[..|r| - 1] == messages[..|r| - 1]
  {
    SliceTo(messages, -(EvictCount as int)) + [summary]
  }

  /** The conversation memory; `summarize` stands for the summarisation chain
      (prompt template, chat model and string parser), `None` for a call that raised. */
  class MemoryHandler {
    var messages: seq<string>

    constructor ()
      ensures messages == []
    {
      messages := [];
    }

    method AppendMessage(message: string)
      modifies this
      ensures messages == old(messages) + [message]
    {
      messages := messages + [message];
    }

    /** Hands the window text to `summarize`; only once it has answered are the
        last five messages replaced by the summary. */
    method SummarizeMessages(summarize: string -> Option<string>) returns (ok: bool)
      modifies this
      ensures ok == summarize(WindowText(old(messages))).Some?
      ensures ok ==> messages == Compacted(old(messages), summarize(WindowText(old(messages))).value)
      ensures !ok ==> messages == old(messages)
    {
      var concatenated := Join(SliceFrom(messages, -(WindowSize as int)), " ");
      var summary := summarize(concatenated);
      if summary.None? {
        return false;
      }
      messages := SliceTo(messages, -(EvictCount as int));
      messages := messages + [summary.value];
      ok := true;
    }
  }

  /** With five or more messages, compaction keeps all but the last five and
      appends the summary, so the list shrinks by exactly four. */
  lemma CompactedLong(messages: seq<string>, summary: string)
    requires |messages| >= EvictCount
    ensures Compacted(messages, summary) == messages[..|messages| - EvictCount] + [summary]
    ensures |Compacted(messages, summary)| == |messages| - 4
  {
    var r := Compacted(messages, summary);
    assert r == r[..|r| - 1] + [r[|r| - 1]];
  }

  /** With fewer than five messages the slice clamps to empty: only the summary remains. */
  lemma CompactedShort(messages: seq<string>, summary: string)
    requires |messages| < EvictCount
    ensures Compacted(messages, summary) == [summary]
  {
  }

  /** The summariser sees nothing for an empty memory, and the whole memory,
      space-joined, when it holds at most ten messages. */
  lemma WindowTextSmall(messages: seq<string>)
    requires |messages| <= WindowSize
    ensures WindowText(messages) == Join(messages, " ")
    ensures messages == [] ==> WindowText(messages) == ""
  {
    assert Window(messages) == messages;
  }

  /** Message `i` of the memory (one of the last ten) appears verbatim in the
      summariser's input, after the `j` earlier window messages and `j` spaces. */
  lemma WindowTextHolds(messages: seq<string>, i: nat)
    requires |messages| - WindowSize <= i < |messages|
    ensures var w := Window(messages);
            var j := i - (|messages| - |w|);
            0 <= j < |w| && w[j] == messages[i] &&
            PieceOffset(w, " ", j) + |messages[i]| <= |WindowText(messages)| &&
            WindowText(messages)[PieceOffset(w, " ", j)..PieceOffset(w, " ", j) + |messages[i]|] == messages[i]
  {
    var w := Window(messages);
    var j := i - (|messages| - |w|);
    JoinPieceAt(w, " ", j);
  }

  /** The window (ten) is wider than the eviction (five): when at least ten
      messages are held, messages `n-10 .. n-6` are both summarised and kept,
      at their old positions, so they reach later prompts twice. */
  lemma WindowOverlapsKept(messages: seq<string>, summary: string, i: nat)
    requires |messages| >= WindowSize
    requires |messages| - WindowSize <= i < |messages| - EvictCount
    ensures Window(messages)[i - (|messages| - WindowSize)] == messages[i]
    ensures i < |Compacted(messages, summary)| - 1 && Compacted(messages, summary)[i] == messages[i]
  {
    CompactedLong(messages, summary);
  }
}
