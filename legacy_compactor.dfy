/** The older, self-contained compactor: the same threshold-and-mode
    orchestration, with its own pruning (no already-pruned check, a longer
    marker), its own summarizing (which falls back to the raw input when
    the model fails) and its own estimate (which leaves tool names out). */
module LegacyCompactor {
  import opened Wrappers
  import opened AgentTypes
  import opened CompactionUtils
  import Prune

  const DefaultThreshold := 30000
  const DefaultKeepRecent := 10
  /** What an erased tool result reads. */
  const PrunedOutput := "(Output pruned to save context space)"
  /** What the summary message starts with. */
  const SummaryPrefix := "[Context Summary of prior turns]: "

  datatype CompactorOptions = CompactorOptions(threshold: Option<int>, keepRecent: Option<int>, strategy: Option<Mode>)

  /** The legacy estimator's token count. */
  function LegacyTokens(messages: seq<Message>): nat {
    CeilQuarter(Chars(messages, false))
  }

  class ContextCompactor {
    const threshold: int
    const keepRecent: int
    const strategy: Mode

    /** The constructor (src/compactor.ts:23-27). */
    constructor (opts: CompactorOptions)
      ensures threshold == opts.threshold.GetOr(DefaultThreshold)
      ensures keepRecent == opts.keepRecent.GetOr(DefaultKeepRecent)
      ensures strategy == opts.strategy.GetOr(Hybrid)
    {
      threshold := opts.threshold.GetOr(DefaultThreshold);
      keepRecent := opts.keepRecent.GetOr(DefaultKeepRecent);
      strategy := opts.strategy.GetOr(Hybrid);
    }

    /** pruneToolOutputs (src/compactor.ts:57-71): every tool message before
        `n - keepRecent` has its results replaced. */
    function PruneToolOutputs(messages: seq<Message>): (r: seq<Message>)
      ensures |r| == |messages|
      ensures forall i :: 0 <= i < |messages| && (i >= |messages| - keepRecent || !messages[i].ToolMessage?) ==> r[i] == messages[i]
      ensures forall i :: 0 <= i < |messages| && i < |messages| - keepRecent && messages[i].ToolMessage? ==>
        && r[i].ToolMessage?
        && r[i].timestamp == messages[i].timestamp
        && |r[i].results| == |messages[i].results|
        && forall j :: 0 <= j < |messages[i].results| ==> r[i].results[j] == messages[i].results[j].(result := JString(PrunedOutput))
    {
      Prune.PruneShape(messages, |messages| - keepRecent, PrunedOutput);
      Prune.PruneBefore(messages, |messages| - keepRecent, PrunedOutput)
    }

    /** summarizeHistory (src/compactor.ts:76-107), with `reply` standing for
        what the model call gives: its text, or the error it throws. */
    function SummarizeHistory(messages: seq<Message>, reply: Result<string>, now: int): (r: seq<Message>)
    {
      var boundary := Boundary(|messages|, keepRecent);
      var cut := if boundary <= |messages| then boundary else |messages|;
      if cut == 0 then messages
      else if reply.Failure? then messages
      else [UserMessage(Str(SummaryPrefix + reply.value), now)] + messages[cut..]
    }

    /** estimateTokens (src/compactor.ts:112-127). */
    method EstimateTokens(messages: seq<Message>) returns (tokens: nat)
      ensures tokens == LegacyTokens(messages)
      ensures 4 * tokens >= Chars(messages, false) && 4 * tokens < Chars(messages, false) + 4
    {
      var chars := CountChars(messages, false);
      tokens := CeilQuarter(chars);
    }

    /** run (src/compactor.ts:33-52), with `reply` standing for what the
        model call would give. */
    method Run(messages: seq<Message>, model: Option<ModelId>, reply: Result<string>, now: int)
      returns (processed: seq<Message>)
      ensures LegacyTokens(messages) < threshold ==> processed == messages
      ensures LegacyTokens(messages) >= threshold ==>
        var pruned := if strategy == PruneMode || strategy == Hybrid then PruneToolOutputs(messages) else messages;
        var summarize := strategy == SummarizeMode || (strategy == Hybrid && LegacyTokens(pruned) > threshold);
        processed == if summarize && model.Some? then SummarizeHistory(pruned, reply, now) else pruned
    {
      var totalTokens := EstimateTokens(messages);
      if totalTokens < threshold {
        return messages;
      }
      processed := messages;
      if strategy == PruneMode || strategy == Hybrid {
        processed := PruneToolOutputs(processed);
      }
      var summarize := strategy == SummarizeMode;
      if !summarize && strategy == Hybrid {
        var tokens := EstimateTokens(processed);
        summarize := tokens > threshold;
      }
      if summarize && model.Some? {
        processed := SummarizeHistory(processed, reply, now);
      }
    }

    /** Pruning is idempotent, and a history no longer than `keepRecent` is
        left alone. */
    lemma PruneSettles(messages: seq<Message>)
      ensures PruneToolOutputs(PruneToolOutputs(messages)) == PruneToolOutputs(messages)
      ensures |messages| <= keepRecent ==> PruneToolOutputs(messages) == messages
    {
      Prune.PruneIdempotent(messages, |messages| - keepRecent, PrunedOutput);
      if |messages| <= keepRecent {
        assert Prune.PruneBefore(messages, |messages| - keepRecent, PrunedOutput) == messages;
      }
    }

    /** The summarized history is the input itself when nothing precedes the
        kept suffix or the model fails; otherwise a summary message, then the
        input from the boundary on. */
    lemma SummarizeShape(messages: seq<Message>, reply: Result<string>, now: int)
      ensures var cut := if Boundary(|messages|, keepRecent) <= |messages| then Boundary(|messages|, keepRecent) else |messages|;
        var r := SummarizeHistory(messages, reply, now);
        && (cut == 0 || reply.Failure? ==> r == messages)
        && (cut > 0 && reply.Success? ==>
              && |r| == 1 + |messages| - cut
              && r[0] == UserMessage(Str(SummaryPrefix + reply.value), now)
              && r[1..] == messages[cut..])
        && (keepRecent >= 0 && reply.Success? ==> r[|r| - (|messages| - cut)..] == messages[cut..] && |messages| - cut <= keepRecent)
    {
    }
  }
}
