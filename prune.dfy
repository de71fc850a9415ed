/** The prune strategy: the results of tool messages older than the most
    recent ones are replaced with a short marker, so the conversation keeps
    its shape (the tool was called) at a fraction of the tokens. */
module Prune {
  import opened Wrappers
  import opened AgentTypes
  import opened CompactionUtils

  /** What an erased tool result reads. */
  const PrunedResult := "(result pruned)"
  /** How many recent messages stay intact unless the caller says otherwise. */
  const DefaultKeepRecent := 10

  /** The strategy's options (`minimumPruneTokens` is declared but unused). */
  datatype PruneOptions = PruneOptions(keepRecent: Option<int>, minimumPruneTokens: Option<int>)

  /** Every result of tool message `m` already reads `marker`. */
  predicate AllMarked(m: Message, marker: string)
    requires m.ToolMessage?
  {
    forall j :: 0 <= j < |m.results| ==> m.results[j].result == JString(marker)
  }

  /** A tool message with every part's result replaced by `marker`, all other
      fields kept; any other message as it is. */
  function ReplaceResults(m: Message, marker: string): Message {
    if m.ToolMessage? then
      m.(results := seq(|m.results|, j requires 0 <= j < |m.results| => m.results[j].(result := JString(marker))))
    else m
  }

  /** Replacing the results changes a message exactly when it is a tool
      message not already marked throughout. */
  lemma ReplaceChanges(m: Message, marker: string)
    ensures ReplaceResults(m, marker) == m <==> !m.ToolMessage? || AllMarked(m, marker)
  {
    if m.ToolMessage? {
      var r := ReplaceResults(m, marker);
      if AllMarked(m, marker) {
        assert r.results == m.results;
      } else {
        var j :| 0 <= j < |m.results| && m.results[j].result != JString(marker);
        assert r.results[j] != m.results[j];
      }
    }
  }

  /** The pruned list: messages before `boundary` have their results
      replaced, the rest are kept. */
  function PruneBefore(messages: seq<Message>, boundary: int, marker: string): seq<Message> {
    seq(|messages|, i requires 0 <= i < |messages| => if i < boundary then ReplaceResults(messages[i], marker) else messages[i])
  }

  /** The number of tool messages before `boundary` that are not already
      marked throughout. */
  function StaleCount(messages: seq<Message>, boundary: int, marker: string): nat {
    if messages == [] then 0
    else
      var last := messages[|messages| - 1];
      StaleCount(messages[..|messages| - 1], boundary, marker)
        + (if |messages| - 1 < boundary && last.ToolMessage? && !AllMarked(last, marker) then 1 else 0)
  }

  /** The number of positions at which two lists of equal length differ. */
  function Differences(a: seq<Message>, b: seq<Message>): nat
    requires |a| == |b|
  {
    if a == [] then 0
    else Differences(a[..|a| - 1], b[..|b| - 1]) + (if a[|a| - 1] != b[|b| - 1] then 1 else 0)
  }

  /** The map over the messages with the `compactedCount` counter
      (src/compaction/prune.ts:29-49). */
  method PruneLoop(messages: seq<Message>, boundary: nat) returns (processed: seq<Message>, compactedCount: nat)
    ensures processed == PruneBefore(messages, boundary, PrunedResult)
    ensures compactedCount == StaleCount(messages, boundary, PrunedResult)
  {
    processed := [];
    compactedCount := 0;
    for idx := 0 to |messages|
      invariant processed == PruneBefore(messages[..idx], boundary, PrunedResult)
      invariant compactedCount == StaleCount(messages[..idx], boundary, PrunedResult)
    {
      var msg := messages[idx];
      var out := msg;
      if idx < boundary && msg.ToolMessage? {
        var isAlreadyPruned := forall j :: 0 <= j < |msg.results| ==> msg.results[j].result == JString(PrunedResult);
        if !isAlreadyPruned {
          compactedCount := compactedCount + 1;
          out := ReplaceResults(msg, PrunedResult);
        } else {
          ReplaceChanges(msg, PrunedResult);
        }
      }
      assert messages[..idx + 1][..idx] == messages[..idx];
      processed := processed + [out];
    }
    assert messages[..|messages|] == messages;
  }

  /** PruneStrategy.compact (src/compaction/prune.ts:22-58). */
  method Compact(messages: seq<Message>, options: Option<PruneOptions>) returns (result: CompactionResult)
    ensures
      var keepRecent := if options.Some? then options.value.keepRecent.GetOr(DefaultKeepRecent) else DefaultKeepRecent;
      var boundary := Boundary(|messages|, keepRecent);
      && |result.messages| == |messages|
      && (forall i :: 0 <= i < |messages| && (i >= boundary || !messages[i].ToolMessage?) ==> result.messages[i] == messages[i])
      && (forall i :: 0 <= i < |messages| && i < boundary && messages[i].ToolMessage? ==>
            && result.messages[i].ToolMessage?
            && result.messages[i].timestamp == messages[i].timestamp
            && |result.messages[i].results| == |messages[i].results|
            && forall j :: 0 <= j < |messages[i].results| ==>
                 result.messages[i].results[j] == messages[i].results[j].(result := JString(PrunedResult)))
      && result.messages == PruneBefore(messages, boundary, PrunedResult)
      && result.compactedCount == StaleCount(messages, boundary, PrunedResult)
      && result.tokensBefore == Tokens(messages)
      && result.tokensAfter == Tokens(result.messages)
  {
    var keepRecent := if options.Some? then options.value.keepRecent.GetOr(DefaultKeepRecent) else DefaultKeepRecent;
    var tokensBefore := EstimateTokens(messages);
    var boundary := Boundary(|messages|, keepRecent);
    var processed, compactedCount := PruneLoop(messages, boundary);
    var tokensAfter := EstimateTokens(processed);
    PruneShape(messages, boundary, PrunedResult);
    result := CompactionResult(processed, compactedCount, tokensBefore, tokensAfter);
  }

  /** The pruned list has the input's length; recent and non-tool messages
      are kept, older tool messages keep every field but their results. */
  lemma PruneShape(messages: seq<Message>, boundary: int, marker: string)
    ensures var r := PruneBefore(messages, boundary, marker);
      && |r| == |messages|
      && (forall i :: 0 <= i < |messages| && (i >= boundary || !messages[i].ToolMessage?) ==> r[i] == messages[i])
      && (forall i :: 0 <= i < |messages| && i < boundary && messages[i].ToolMessage? ==>
            && r[i].ToolMessage?
            && r[i].timestamp == messages[i].timestamp
            && |r[i].results| == |messages[i].results|
            && forall j :: 0 <= j < |messages[i].results| ==> r[i].results[j] == messages[i].results[j].(result := JString(marker)))
  {
  }

  /** The count of stale tool messages is the number of messages the prune
      changes. */
  lemma {:induction false} StaleCountIsDifferences(messages: seq<Message>, boundary: int, marker: string)
    ensures StaleCount(messages, boundary, marker) == Differences(messages, PruneBefore(messages, boundary, marker))
    decreases |messages|
  {
    if messages != [] {
      var init := messages[..|messages| - 1];
      var last := messages[|messages| - 1];
      StaleCountIsDifferences(init, boundary, marker);
      assert PruneBefore(messages, boundary, marker)[..|messages| - 1] == PruneBefore(init, boundary, marker);
      ReplaceChanges(last, marker);
    }
  }

  /** Pruning is idempotent: pruning the output again with the same boundary
      changes nothing and finds no stale message. */
  lemma PruneIdempotent(messages: seq<Message>, boundary: int, marker: string)
    ensures PruneBefore(PruneBefore(messages, boundary, marker), boundary, marker) == PruneBefore(messages, boundary, marker)
    ensures StaleCount(PruneBefore(messages, boundary, marker), boundary, marker) == 0
  {
    var once := PruneBefore(messages, boundary, marker);
    forall i | 0 <= i < |once| && i < boundary
      ensures ReplaceResults(once[i], marker) == once[i]
    {
      ReplaceChanges(once[i], marker);
    }
    assert PruneBefore(once, boundary, marker) == once;
    StaleCountIsDifferences(once, boundary, marker);
    NoDifferences(once);
  }

  lemma {:induction false} NoDifferences(a: seq<Message>)
    ensures Differences(a, a) == 0
    decreases |a|
  {
    if a != [] {
      NoDifferences(a[..|a| - 1]);
    }
  }

  /** Compacting the output of a compaction again, with the same options,
      returns the same messages and counts nothing. */
  lemma CompactIdempotent(messages: seq<Message>, keepRecent: int)
    ensures
      var boundary := Boundary(|messages|, keepRecent);
      var once := PruneBefore(messages, boundary, PrunedResult);
      && Boundary(|once|, keepRecent) == boundary
      && PruneBefore(once, Boundary(|once|, keepRecent), PrunedResult) == once
      && StaleCount(once, Boundary(|once|, keepRecent), PrunedResult) == 0
  {
    PruneIdempotent(messages, Boundary(|messages|, keepRecent), PrunedResult);
  }

  /** The count never exceeds the number of older messages. */
  lemma {:induction false} StaleCountBound(messages: seq<Message>, boundary: nat, marker: string)
    ensures StaleCount(messages, boundary, marker) <= if boundary < |messages| then boundary else |messages|
    decreases |messages|
  {
    if messages != [] {
      StaleCountBound(messages[..|messages| - 1], boundary, marker);
    }
  }
}
