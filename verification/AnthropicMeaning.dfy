/** What the finish, the usage and the errors of an Anthropic response say, in the provider's own terms. */
module AnthropicMeaning {
  import opened Common
  import opened Text
  import opened Anthropic
  import opened AnthropicLaws

  /** Every tool block is the schema tool's, so that no call is left for the caller. */
  predicate OnlySchemaTool(tool: SchemaTool, blocks: seq<Block>) {
    && tool.Some? && tool.value != ""
    && forall j :: 0 <= j < |blocks| && blocks[j].ToolUse? ==> blocks[j].name == tool.value
  }

  /** A finish for a raw reason; `structured` when a call of tools alone was the structured output. */
  ghost predicate FinishMeans(finish: Finish, reason: Option<string>, structured: bool) {
    && (finish == Length <==> reason == Some("max_tokens"))
    && (finish == ContentFilter <==> reason == Some("refusal"))
    && (finish == ToolCalls <==> reason == Some("tool_use") && !structured)
  }

  lemma StopReasonsMean(reason: Option<string>)
    ensures FinishMeans(NormalizeStopReason(reason), reason, false)
  {
  }

  lemma OnlySchemaToolMeans(tool: SchemaTool, blocks: seq<Block>)
    ensures HasSchemaTool(tool) && CallsOf(tool, blocks) == [] <==> OnlySchemaTool(tool, blocks)
  {
    NoCallsMeansSchemaOnly(tool, blocks);
  }

  /** One block: text is content, thinking is dropped, the schema tool's input is content, any other call a call. */
  lemma OneBlockMeans(tool: SchemaTool, b: Block)
    ensures b.TextBlock? ==> ContentOf(tool, [b]) == b.text && CallsOf(tool, [b]) == []
    ensures b.Thinking? || b.RedactedThinking? ==> ContentOf(tool, [b]) == "" && CallsOf(tool, [b]) == []
    ensures b.ToolUse? ==>
              if tool == Some(b.name) && b.name != ""
              then CallsOf(tool, [b]) == [] && (b.input.Some? ==> ContentOf(tool, [b]) == b.input.value)
              else ContentOf(tool, [b]) == ""
                   && CallsOf(tool, [b]) == [ToolCall(b.id, b.name, if b.input.Some? then b.input.value else "{}")]
  {
    assert [b][1..] == [];
    NoPrefix(BlockText(tool, b));
    NoPrefix(BlockCalls(tool, b));
  }

  /** The blocks of a message are read one after the other. */
  lemma {:induction false} BlocksAreReadInOrder(tool: SchemaTool, a: seq<Block>, b: seq<Block>)
    ensures ContentOf(tool, a + b) == ContentOf(tool, a) + ContentOf(tool, b)
    ensures CallsOf(tool, a + b) == CallsOf(tool, a) + CallsOf(tool, b)
    ensures ContentOf(tool, []) == "" && CallsOf(tool, []) == []
  {
    if a == [] {
      NoPrefix(b);
      NoPrefix(ContentOf(tool, b));
      NoPrefix(CallsOf(tool, b));
    } else {
      assert (a + b)[1..] == a[1..] + b;
      BlocksAreReadInOrder(tool, a[1..], b);
      Regroup(BlockText(tool, a[0]), ContentOf(tool, a[1..]), ContentOf(tool, b));
      Regroup(BlockCalls(tool, a[0]), CallsOf(tool, a[1..]), CallsOf(tool, b));
    }
  }

  /** The finish of the batch form, from the raw reason. */
  lemma BatchFinishMeans(tool: SchemaTool, m: Message)
    ensures FinishMeans(Batch(tool, m).finish, m.stopReason, OnlySchemaTool(tool, m.content))
  {
    StopReasonsMean(m.stopReason);
    OnlySchemaToolMeans(tool, m.content);
  }

  /** The usage of the batch form, field by field. */
  lemma BatchUsageMeans(tool: SchemaTool, m: Message)
    ensures var u := Batch(tool, m).usage;
            && u.prompt == m.usage.input && u.completion == m.usage.output
            && u.cachedRead == (if m.usage.cacheRead.Some? then m.usage.cacheRead.value else 0)
            && u.cacheWrite == (if m.usage.cacheWrite.Some? then m.usage.cacheWrite.value else 0)
  {
  }

  /** The finish and the usage of an assembled stream, from what its events carried. */
  lemma StreamEndMeans(tool: SchemaTool, m: Message, pieces: seq<seq<string>>, start: RawUsage, output: Option<int>,
                       events: seq<Event>)
    requires Streams(tool, m, pieces, start, output)
    requires WithoutPings(events) == StreamOf(m, pieces, start, output)
    ensures var end := AbsorbAll(NOTHING, Chunks(tool, INITIAL, events)).end;
            && end.Some?
            && FinishMeans(end.value.0, m.stopReason, OnlySchemaTool(tool, m.content) && HasToolUse(m.content))
            && end.value.1.prompt == start.input
            && end.value.1.completion == (if output.Some? then output.value else start.output)
            && end.value.1.cachedRead == (if start.cacheRead.Some? then start.cacheRead.value else 0)
            && end.value.1.cacheWrite == (if start.cacheWrite.Some? then start.cacheWrite.value else 0)
  {
    StreamEqualsBatch(tool, m, pieces, start, output, events);
    BatchFinishMeans(tool, m);
    BatchUsageMeans(tool, m);
    StopReasonsMean(m.stopReason);
  }

  /** An error event becomes the router's code for its type. */
  lemma StreamErrorsMean(tool: SchemaTool, st: State, kind: string)
    ensures var r := Emitted(tool, st, ErrorEvent(kind));
            && r.Err?
            && (r.error.code == AuthError <==> kind == "authentication_error" || kind == "permission_error")
            && (r.error.code == RateLimited <==> kind == "rate_limit_error")
            && (r.error.code == ContextExceeded <==> kind == "request_too_large")
            && r.error.code in {AuthError, RateLimited, ContextExceeded, ProviderUnavailable}
  {
  }
}
