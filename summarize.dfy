/** The summarize strategy: everything before the most recent messages is
    condensed by a language model into one user message that heads the kept
    suffix. The model's summary text is a parameter. */
module Summarize {
  import opened Wrappers
  import opened AgentTypes
  import opened CompactionUtils

  /** The header of the summary message. */
  const SummaryHeader := "[Context Summary of prior turns]:\n"
  /** How many recent messages stay raw unless the caller says otherwise. */
  const DefaultKeepRecent := 6
  const MissingModel := "SummarizeStrategy requires a model"

  /** The strategy's options; the system prompt only reaches the model. */
  datatype SummarizeOptions = SummarizeOptions(model: Option<ModelId>, keepRecent: Option<int>, systemPrompt: Option<string>)

  /** How many messages are summarized: all before the boundary, but never
      more than there are. */
  function Cut(n: nat, keepRecent: int): (r: nat)
    ensures r <= n
    ensures keepRecent >= 0 ==> r == Boundary(n, keepRecent)
  {
    var boundary := Boundary(n, keepRecent);
    if boundary <= n then boundary else n
  }

  /** The summary message built from the model's text, stamped `now`. */
  function SummaryMessage(text: string, now: int): Message {
    UserMessage(Str(SummaryHeader + text), now)
  }

  /** SummarizeStrategy.compact (src/compaction/summarize.ts:25-66), with
      `text` standing for what the model answers and `now` for the clock. */
  function Compact(messages: seq<Message>, options: SummarizeOptions, text: string, now: int): (r: Result<CompactionResult>)
    ensures r.Failure? <==> options.model.None?
    ensures r.Failure? ==> r.error == MissingModel
    ensures r.Success? ==> r.value.tokensBefore == Tokens(messages) && r.value.tokensAfter == Tokens(r.value.messages)
  {
    if options.model.None? then Failure(MissingModel)
    else
      var keepRecent := options.keepRecent.GetOr(DefaultKeepRecent);
      var tokensBefore := Tokens(messages);
      var cut := Cut(|messages|, keepRecent);
      var toKeep := messages[cut..];
      if cut == 0 then Success(CompactionResult(messages, 0, tokensBefore, tokensBefore))
      else
        var processed := [SummaryMessage(text, now)] + toKeep;
        Success(CompactionResult(processed, cut, tokensBefore, Tokens(processed)))
  }

  /** With a model, the output is the input when nothing precedes the kept
      suffix (the boundary, capped at the length, is 0); otherwise it is the
      summary message followed by exactly the messages from the boundary
      on, and the count is the number of messages folded into the summary. */
  lemma CompactShape(messages: seq<Message>, options: SummarizeOptions, text: string, now: int)
    requires options.model.Some?
    ensures var keepRecent := options.keepRecent.GetOr(DefaultKeepRecent);
      var cut := Cut(|messages|, keepRecent);
      var r := Compact(messages, options, text, now).value;
      && (cut == 0 ==> r.messages == messages && r.compactedCount == 0 && r.tokensAfter == r.tokensBefore)
      && (cut > 0 ==>
            && r.compactedCount == cut
            && |r.messages| == 1 + |messages| - r.compactedCount
            && r.messages[0] == UserMessage(Str(SummaryHeader + text), now)
            && r.messages[1..] == messages[r.compactedCount..])
  {
  }

  /** Nothing is lost silently: every input message is either counted as
      summarized or kept, in order, as the output's tail; and with a
      non-negative `keepRecent` the tail is the last `min(n, keepRecent)`
      input messages. */
  lemma CompactAccounts(messages: seq<Message>, options: SummarizeOptions, text: string, now: int)
    requires options.model.Some?
    ensures var r := Compact(messages, options, text, now).value;
      var kept := |messages| - r.compactedCount;
      && r.compactedCount <= |messages|
      && kept <= |r.messages|
      && r.messages[|r.messages| - kept..] == messages[r.compactedCount..]
      && |r.messages| == kept + (if r.compactedCount > 0 then 1 else 0)
      && (options.keepRecent.GetOr(DefaultKeepRecent) >= 0 ==>
            kept == if |messages| < options.keepRecent.GetOr(DefaultKeepRecent) then |messages| else options.keepRecent.GetOr(DefaultKeepRecent))
  {
    var r := Compact(messages, options, text, now).value;
    if r.compactedCount > 0 {
      assert r.messages[|r.messages| - (|messages| - r.compactedCount)..] == r.messages[1..];
    } else {
      assert r.messages[|r.messages| - |messages|..] == r.messages;
    }
  }
}
