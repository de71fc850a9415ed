/** The compactor that orchestrates the prune and summarize strategies:
    nothing happens below a token threshold; above it, pruning runs first
    in the "prune" and "hybrid" modes, and summarizing runs in the
    "summarize" mode, or in the "hybrid" mode when pruning was not enough,
    provided a model is available. */
module Compaction {
  import opened Wrappers
  import opened AgentTypes
  import opened CompactionUtils
  import Prune
  import Summarize

  const DefaultThreshold := 30000

  /** The compactor's options. */
  datatype CompactorOptions = CompactorOptions(
    threshold: Option<int>,
    mode: Option<Mode>,
    pruneOptions: Option<Prune.PruneOptions>,
    summarizeOptions: Option<Summarize.SummarizeOptions>)

  /** The model the summarizer is given: the runtime one when there is one,
      else the one in the summarize options. */
  function SummaryModel(options: CompactorOptions, runtimeModel: Option<ModelId>): (r: Option<ModelId>)
    ensures runtimeModel.Some? ==> r == runtimeModel
    ensures runtimeModel.None? && options.summarizeOptions.Some? ==> r == options.summarizeOptions.value.model
    ensures runtimeModel.None? && options.summarizeOptions.None? ==> r.None?
  {
    if runtimeModel.Some? then runtimeModel
    else if options.summarizeOptions.Some? then options.summarizeOptions.value.model
    else None
  }

  /** The summarize options spread from the configured ones, with the model
      replaced. */
  function SummaryOptions(options: CompactorOptions, model: Option<ModelId>): Summarize.SummarizeOptions {
    if options.summarizeOptions.Some? then options.summarizeOptions.value.(model := model)
    else Summarize.SummarizeOptions(model, None, None)
  }

  /** The keep-recent count the pruner resolves from the prune options. */
  function PruneKeepRecent(options: CompactorOptions): int {
    if options.pruneOptions.Some? then options.pruneOptions.value.keepRecent.GetOr(Prune.DefaultKeepRecent)
    else Prune.DefaultKeepRecent
  }

  /** What the pruner returns for `messages`. */
  function Pruned(options: CompactorOptions, messages: seq<Message>): seq<Message> {
    Prune.PruneBefore(messages, Boundary(|messages|, PruneKeepRecent(options)), Prune.PrunedResult)
  }

  /** What the summarizer returns for `messages` with model `model`. */
  function Summarized(options: CompactorOptions, model: ModelId, messages: seq<Message>, text: string, now: int): seq<Message> {
    Summarize.Compact(messages, SummaryOptions(options, Some(model)), text, now).value.messages
  }

  class ContextCompactor {
    const threshold: int
    const mode: Mode
    const options: CompactorOptions

    /** The constructor (src/compaction/compactor.ts:27-32). */
    constructor (options: CompactorOptions)
      ensures threshold == options.threshold.GetOr(DefaultThreshold)
      ensures mode == options.mode.GetOr(Hybrid)
      ensures this.options == options
    {
      threshold := options.threshold.GetOr(DefaultThreshold);
      mode := options.mode.GetOr(Hybrid);
      this.options := options;
    }

    /** ContextCompactor.run (src/compaction/compactor.ts:34-63), with
        `summaryText` standing for what the model answers and `now` for
        the clock. */
    method Run(messages: seq<Message>, runtimeModel: Option<ModelId>, summaryText: string, now: int)
      returns (processed: seq<Message>)
      ensures Tokens(messages) < threshold ==> processed == messages
      ensures Tokens(messages) >= threshold && mode == PruneMode ==> processed == Pruned(options, messages)
      ensures Tokens(messages) >= threshold && mode == SummarizeMode ==>
        processed == match SummaryModel(options, runtimeModel)
                     case None => messages
                     case Some(model) => Summarized(options, model, messages, summaryText, now)
      ensures Tokens(messages) >= threshold && mode == Hybrid ==>
        var pruned := Pruned(options, messages);
        processed == if Tokens(pruned) > threshold && SummaryModel(options, runtimeModel).Some?
                     then Summarized(options, SummaryModel(options, runtimeModel).value, pruned, summaryText, now)
                     else pruned
    {
      var tokens := EstimateTokens(messages);
      if tokens < threshold {
        return messages;
      }
      var result := CompactionResult(messages, 0, tokens, tokens);
      if mode == PruneMode || mode == Hybrid {
        result := Prune.Compact(result.messages, options.pruneOptions);
      }
      if mode == SummarizeMode || (mode == Hybrid && result.tokensAfter > threshold) {
        var model := SummaryModel(options, runtimeModel);
        if model.Some? {
          var summarized := Summarize.Compact(result.messages, SummaryOptions(options, model), summaryText, now);
          result := summarized.value;
        }
      }
      processed := result.messages;
    }
  }

  /** In "prune" mode a second run changes nothing more: pruning what the
      pruner returned gives it back unchanged. */
  lemma PruneModeSettles(options: CompactorOptions, messages: seq<Message>)
    ensures Pruned(options, Pruned(options, messages)) == Pruned(options, messages)
  {
    Prune.CompactIdempotent(messages, PruneKeepRecent(options));
  }
}
