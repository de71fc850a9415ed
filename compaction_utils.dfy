/** The character-count token heuristic shared by the compaction strategies,
    and the result record every strategy returns. */
module CompactionUtils {
  import opened AgentTypes

  /** What a compaction strategy returns: the new messages, how many
      messages it compacted, and the estimates before and after. */
  datatype CompactionResult = CompactionResult(messages: seq<Message>, compactedCount: nat, tokensBefore: nat, tokensAfter: nat)

  /** A language model handle, known only by its identity. */
  type ModelId = string

  /** The three orchestration modes of both compactors. */
  datatype Mode = PruneMode | SummarizeMode | Hybrid

  /** The first index of the recent messages: `max(0, n - keepRecent)`. */
  function Boundary(n: nat, keepRecent: int): nat {
    if n - keepRecent > 0 then n - keepRecent else 0
  }

  /** Characters an image part is assumed to cost. */
  const ImageChars: nat := 4800
  /** Characters a tool call costs on top of its arguments. */
  const ToolCallOverhead: nat := 50

  /** Characters one part contributes. Only "text", "image" and "tool-call"
      parts count; the loop's own "toolCall" parts and every other kind
      count nothing. `withToolName` says whether a tool call's tool name
      counts (it does in the current estimator, not in the legacy one). */
  function PartChars(p: Part, withToolName: bool): nat {
    match p
    case Text(text) => |text|
    case Image(_, _) => ImageChars
    case LlmToolCall(_, toolName, args) => (if withToolName then |toolName| else 0) + StringifyLength(args) + ToolCallOverhead
    case _ => 0
  }

  function PartsChars(parts: seq<Part>, withToolName: bool): nat {
    if parts == [] then 0
    else PartsChars(parts[..|parts| - 1], withToolName) + PartChars(parts[|parts| - 1], withToolName)
  }

  /** A "tool-result" part counts the length of its serialised result. */
  function ResultsChars(results: seq<ToolResultPart>): nat {
    if results == [] then 0
    else ResultsChars(results[..|results| - 1]) + StringifyLength(results[|results| - 1].result)
  }

  /** Characters of one message: the length of string content, or the sum
      over its parts. */
  function MessageChars(m: Message, withToolName: bool): nat {
    match m
    case UserMessage(Str(s), _) => |s|
    case UserMessage(Parts(parts), _) => PartsChars(parts, withToolName)
    case AssistantMessage(parts, _, _) => PartsChars(parts, withToolName)
    case ToolResultMessage(_, _, parts, _, _, _) => PartsChars(parts, withToolName)
    case ToolMessage(results, _) => ResultsChars(results)
    case SystemMessage(text, _) => |text|
  }

  /** Characters of a message list: the sum over its messages. */
  function Chars(messages: seq<Message>, withToolName: bool): nat {
    if messages == [] then 0
    else Chars(messages[..|messages| - 1], withToolName) + MessageChars(messages[|messages| - 1], withToolName)
  }

  /** `Math.ceil(chars / 4)`: the least whole number of four-character
      tokens that covers `chars`. */
  function CeilQuarter(chars: nat): (r: nat)
    ensures 4 * r >= chars && 4 * r < chars + 4
  {
    (chars + 3) / 4
  }

  /** The current estimator's token count. */
  function Tokens(messages: seq<Message>): nat {
    CeilQuarter(Chars(messages, true))
  }

  /** The `chars` accumulator: string content adds its length, and each part
      of array content adds what its kind costs. */
  method CountChars(messages: seq<Message>, withToolName: bool) returns (chars: nat)
    ensures chars == Chars(messages, withToolName)
  {
    chars := 0;
    for i := 0 to |messages|
      invariant chars == Chars(messages[..i], withToolName)
    {
      var msg := messages[i];
      var added := MessageCharsOf(msg, withToolName);
      assert messages[..i + 1][..i] == messages[..i];
      chars := chars + added;
    }
    assert messages[..|messages|] == messages;
  }

  /** The body of the outer loop for one message. */
  method MessageCharsOf(msg: Message, withToolName: bool) returns (chars: nat)
    ensures chars == MessageChars(msg, withToolName)
  {
    chars := 0;
    if msg.UserMessage? && msg.content.Str? {
      chars := |msg.content.s|;
    } else if msg.SystemMessage? {
      chars := |msg.text|;
    } else if msg.ToolMessage? {
      var results := msg.results;
      for j := 0 to |results|
        invariant chars == ResultsChars(results[..j])
      {
        assert results[..j + 1][..j] == results[..j];
        chars := chars + StringifyLength(results[j].result);
      }
      assert results[..|results|] == results;
    } else {
      var parts := if msg.UserMessage? then msg.content.parts else msg.parts;
      for j := 0 to |parts|
        invariant chars == PartsChars(parts[..j], withToolName)
      {
        var part := parts[j];
        assert parts[..j + 1][..j] == parts[..j];
        if part.Text? {
          chars := chars + |part.text|;
        }
        if part.LlmToolCall? {
          chars := chars + (if withToolName then |part.toolName| else 0) + StringifyLength(part.args) + ToolCallOverhead;
        }
        if part.Image? {
          chars := chars + ImageChars;
        }
      }
      assert parts[..|parts|] == parts;
    }
  }

  /** estimateTokens (src/compaction/utils.ts:7-28). */
  method EstimateTokens(messages: seq<Message>) returns (tokens: nat)
    ensures tokens == Tokens(messages)
    ensures 4 * tokens >= Chars(messages, true) && 4 * tokens < Chars(messages, true) + 4
  {
    var chars := CountChars(messages, true);
    tokens := CeilQuarter(chars);
  }

  /** The character count is additive: a concatenation counts what its two
      halves count, and the empty list counts nothing. */
  lemma {:induction false} CharsAppend(a: seq<Message>, b: seq<Message>, withToolName: bool)
    ensures Chars(a + b, withToolName) == Chars(a, withToolName) + Chars(b, withToolName)
    decreases |b|
  {
    if b == [] {
      assert a + b == a;
    } else {
      assert (a + b)[..|a + b| - 1] == a + b[..|b| - 1];
      CharsAppend(a, b[..|b| - 1], withToolName);
    }
  }

  /** The legacy estimator, which leaves tool names out, never counts more
      than the current one, and counts the same on lists without tool-call
      parts. */
  lemma {:induction false} LegacyNeverAbove(messages: seq<Message>)
    ensures Chars(messages, false) <= Chars(messages, true)
    ensures (forall i :: 0 <= i < |messages| ==> !HasToolCall(messages[i])) ==> Chars(messages, false) == Chars(messages, true)
    decreases |messages|
  {
    if messages != [] {
      var init := messages[..|messages| - 1];
      LegacyNeverAbove(init);
      MessageLegacyNeverAbove(messages[|messages| - 1]);
    }
  }

  /** Whether a message holds a "tool-call" part. */
  predicate HasToolCall(m: Message) {
    match m
    case UserMessage(Parts(parts), _) => exists j :: 0 <= j < |parts| && parts[j].LlmToolCall?
    case AssistantMessage(parts, _, _) => exists j :: 0 <= j < |parts| && parts[j].LlmToolCall?
    case ToolResultMessage(_, _, parts, _, _, _) => exists j :: 0 <= j < |parts| && parts[j].LlmToolCall?
    case _ => false
  }

  lemma MessageLegacyNeverAbove(m: Message)
    ensures MessageChars(m, false) <= MessageChars(m, true)
    ensures !HasToolCall(m) ==> MessageChars(m, false) == MessageChars(m, true)
  {
    match m
    case UserMessage(Str(_), _) =>
    case UserMessage(Parts(parts), _) => PartsLegacyNeverAbove(parts);
    case AssistantMessage(parts, _, _) => PartsLegacyNeverAbove(parts);
    case ToolResultMessage(_, _, parts, _, _, _) => PartsLegacyNeverAbove(parts);
    case ToolMessage(_, _) =>
    case SystemMessage(_, _) =>
  }

  lemma {:induction false} PartsLegacyNeverAbove(parts: seq<Part>)
    ensures PartsChars(parts, false) <= PartsChars(parts, true)
    ensures (forall j :: 0 <= j < |parts| ==> !parts[j].LlmToolCall?) ==> PartsChars(parts, false) == PartsChars(parts, true)
    decreases |parts|
  {
    if parts != [] {
      var init := parts[..|parts| - 1];
      PartsLegacyNeverAbove(init);
      assert forall j :: 0 <= j < |init| ==> init[j] == parts[j];
    }
  }
}
