/** The streamed form of a response against its batch translation. */
module AnthropicLaws {
  import opened Common
  import opened Text
  import opened Anthropic

  // ---------------------------------------------------------------- numbering, on any events

  /** Chunks of a run from `st`; an error event ends it. */
  function Chunks(tool: SchemaTool, st: State, events: seq<Event>): seq<Chunk>
    decreases |events|
  {
    if events == [] then []
    else
      var emitted := Emitted(tool, st, events[0]);
      if emitted.Err? then [] else emitted.value + Chunks(tool, Next(tool, st, events[0]), events[1..])
  }

  /** Starts are numbered `n`, `n + 1`, ... and every delta names a number already started. */
  predicate WellNumbered(chunks: seq<Chunk>, n: nat) {
    chunks == [] ||
    match chunks[0]
    case ToolStart(i, _, _) => i == n && WellNumbered(chunks[1..], n + 1)
    case ToolDelta(i, _) => i < n && WellNumbered(chunks[1..], n)
    case _ => WellNumbered(chunks[1..], n)
  }

  predicate Indexed(st: State) {
    forall b :: b in st.toolIndexByBlock ==> st.toolIndexByBlock[b] < st.nextToolIndex
  }

  lemma {:induction false} ToolsAreNumberedInOrder(tool: SchemaTool, st: State, events: seq<Event>)
    requires Indexed(st)
    ensures WellNumbered(Chunks(tool, st, events), st.nextToolIndex)
    decreases |events|
  {
    if events != [] && Emitted(tool, st, events[0]).Ok? {
      var next := Next(tool, st, events[0]);
      ToolsAreNumberedInOrder(tool, next, events[1..]);
      EventKeepsNumbering(tool, st, events[0], Chunks(tool, next, events[1..]));
    }
  }

  lemma EventKeepsNumbering(tool: SchemaTool, st: State, e: Event, more: seq<Chunk>)
    requires Indexed(st) && Emitted(tool, st, e).Ok? && WellNumbered(more, Next(tool, st, e).nextToolIndex)
    ensures WellNumbered(Emitted(tool, st, e).value + more, st.nextToolIndex)
  {
    var first := Emitted(tool, st, e).value;
    if first == [] {
      NoPrefix(more);
    } else {
      assert first == [first[0]];
      assert (first + more)[0] == first[0] && (first + more)[1..] == more;
    }
  }

  // ---------------------------------------------------------------- what a consumer assembles

  datatype Assembled = Assembled(content: string, calls: seq<ToolCall>, end: Option<(Finish, Usage)>)

  const NOTHING := Assembled("", [], None)

  function Absorb(a: Assembled, c: Chunk): Assembled {
    match c
    case Text(delta) => a.(content := a.content + delta)
    case ToolStart(_, id, name) => a.(calls := a.calls + [ToolCall(id, name, "")])
    case ToolDelta(i, args) =>
      if i < |a.calls| then a.(calls := a.calls[i := a.calls[i].(arguments := a.calls[i].arguments + args)]) else a
    case FinishChunk(finish, usage) => a.(end := Some((finish, usage)))
  }

  function AbsorbAll(a: Assembled, chunks: seq<Chunk>): Assembled
    decreases |chunks|
  {
    if chunks == [] then a else AbsorbAll(Absorb(a, chunks[0]), chunks[1..])
  }

  lemma {:induction false} AbsorbAppend(a: Assembled, xs: seq<Chunk>, ys: seq<Chunk>)
    ensures AbsorbAll(a, xs + ys) == AbsorbAll(AbsorbAll(a, xs), ys)
    decreases |xs|
  {
    if xs == [] {
      NoPrefix(ys);
    } else {
      assert (xs + ys)[1..] == xs[1..] + ys;
      AbsorbAppend(Absorb(a, xs[0]), xs[1..], ys);
    }
  }

  /** The machine and its consumer side by side. */
  datatype Folded = Folded(st: State, acc: Assembled)

  function Step(tool: SchemaTool, f: Folded, e: Event): Folded {
    var emitted := Emitted(tool, f.st, e);
    Folded(Next(tool, f.st, e), if emitted.Ok? then AbsorbAll(f.acc, emitted.value) else f.acc)
  }

  function Fold(tool: SchemaTool, f: Folded, events: seq<Event>): Folded
    decreases |events|
  {
    if events == [] then f else Fold(tool, Step(tool, f, events[0]), events[1..])
  }

  predicate NoErrors(events: seq<Event>) {
    forall i :: 0 <= i < |events| ==> !events[i].ErrorEvent?
  }

  lemma {:induction false} FoldIsAbsorbedChunks(tool: SchemaTool, f: Folded, events: seq<Event>)
    requires NoErrors(events)
    ensures Fold(tool, f, events).acc == AbsorbAll(f.acc, Chunks(tool, f.st, events))
    decreases |events|
  {
    if events != [] {
      var f1 := Step(tool, f, events[0]);
      FoldIsAbsorbedChunks(tool, f1, events[1..]);
      AbsorbAppend(f.acc, Emitted(tool, f.st, events[0]).value, Chunks(tool, f1.st, events[1..]));
    }
  }

  lemma {:induction false} FoldAppend(tool: SchemaTool, f: Folded, xs: seq<Event>, ys: seq<Event>)
    ensures Fold(tool, f, xs + ys) == Fold(tool, Fold(tool, f, xs), ys)
    decreases |xs|
  {
    if xs == [] {
      NoPrefix(ys);
    } else {
      assert (xs + ys)[1..] == xs[1..] + ys;
      FoldAppend(tool, Step(tool, f, xs[0]), xs[1..], ys);
    }
  }

  // ---------------------------------------------------------------- pings

  function WithoutPings(events: seq<Event>): seq<Event> {
    if events == [] then []
    else (if events[0].Ping? then [] else [events[0]]) + WithoutPings(events[1..])
  }

  lemma {:induction false} PingsDoNotMatter(tool: SchemaTool, f: Folded, events: seq<Event>)
    ensures Fold(tool, f, events) == Fold(tool, f, WithoutPings(events))
    decreases |events|
  {
    if events != [] {
      var rest := WithoutPings(events[1..]);
      PingsDoNotMatter(tool, Step(tool, f, events[0]), events[1..]);
      if events[0].Ping? {
        NoPrefix(rest);
        assert Step(tool, f, events[0]) == f;
      } else {
        assert ([events[0]] + rest)[1..] == rest;
      }
    }
  }

  // ---------------------------------------------------------------- the stream of a message

  function Deltas(i: int, b: Block, pieces: seq<string>): seq<Event> {
    if pieces == [] then []
    else
      [BlockDelta(i, match b
                     case TextBlock(_) => TextDelta(pieces[0])
                     case ToolUse(_, _, _) => InputJsonDelta(pieces[0])
                     case Thinking(_) => ThinkingDelta
                     case RedactedThinking => SignatureDelta)]
      + Deltas(i, b, pieces[1..])
  }

  function StartOf(b: Block): StartBlock {
    match b
    case TextBlock(_) => StartText
    case ToolUse(id, name, _) => StartTool(id, name)
    case _ => StartThinking
  }

  function BlockEvents(i: int, b: Block, pieces: seq<string>): seq<Event> {
    [BlockStart(i, StartOf(b))] + (Deltas(i, b, pieces) + [BlockStop(i)])
  }

  function AllBlockEvents(i: int, blocks: seq<Block>, pieces: seq<seq<string>>): seq<Event>
    requires |pieces| == |blocks|
    decreases |blocks|
  {
    if blocks == [] then [] else BlockEvents(i, blocks[0], pieces[0]) + AllBlockEvents(i + 1, blocks[1..], pieces[1..])
  }

  /** The deltas of a block spell what the batch translation prints for it. */
  predicate Spells(tool: SchemaTool, b: Block, pieces: seq<string>) {
    match b
    case TextBlock(t) => Concat(pieces) == t
    case ToolUse(_, name, input) =>
      Concat(pieces) == input.OrElse(if IsSchemaTool(tool, name) then "undefined" else "{}")
    case _ => true
  }

  /** Usage split over the opening and closing events adds up to the message's usage. */
  predicate Reports(start: RawUsage, output: Option<int>, m: Message) {
    ToUsage(start).(completion := output.OrElse(start.output)) == ToUsage(m.usage)
  }

  predicate Streams(tool: SchemaTool, m: Message, pieces: seq<seq<string>>, start: RawUsage, output: Option<int>) {
    && |pieces| == |m.content|
    && (forall i :: 0 <= i < |pieces| ==> Spells(tool, m.content[i], pieces[i]))
    && Reports(start, output, m)
  }

  function StreamOf(m: Message, pieces: seq<seq<string>>, start: RawUsage, output: Option<int>): seq<Event>
    requires |pieces| == |m.content|
  {
    [MessageStart(start)] + (AllBlockEvents(0, m.content, pieces) + [MessageDelta(m.stopReason, output), MessageStop])
  }

  lemma {:induction false} DeltasHaveNoErrors(i: int, b: Block, pieces: seq<string>)
    ensures NoErrors(Deltas(i, b, pieces))
    decreases |pieces|
  {
    if pieces != [] {
      DeltasHaveNoErrors(i, b, pieces[1..]);
    }
  }

  lemma {:induction false} BlocksHaveNoErrors(i: int, blocks: seq<Block>, pieces: seq<seq<string>>)
    requires |pieces| == |blocks|
    ensures NoErrors(AllBlockEvents(i, blocks, pieces))
    decreases |blocks|
  {
    if blocks != [] {
      DeltasHaveNoErrors(i, blocks[0], pieces[0]);
      BlocksHaveNoErrors(i + 1, blocks[1..], pieces[1..]);
    }
  }

  lemma {:induction false} PingsHideNoErrors(events: seq<Event>)
    requires NoErrors(WithoutPings(events))
    ensures NoErrors(events)
  {
    if events != [] {
      var rest := WithoutPings(events[1..]);
      var all := WithoutPings(events);
      assert forall i :: 0 <= i < |rest| ==> rest[i] == all[i + |all| - |rest|];
      PingsHideNoErrors(events[1..]);
      assert !events[0].Ping? ==> all[0] == events[0];
      assert forall i :: 1 <= i < |events| ==> events[i] == events[1..][i - 1];
    }
  }

  // ---------------------------------------------------------------- folding one block

  lemma {:induction false} TextDeltasFold(tool: SchemaTool, f: Folded, i: int, b: Block, pieces: seq<string>)
    requires b.TextBlock? || (b.ToolUse? && f.st.schemaBlock == Some(i))
    ensures Fold(tool, f, Deltas(i, b, pieces)) == f.(acc := f.acc.(content := f.acc.content + Concat(pieces)))
    decreases |pieces|
  {
    if pieces == [] {
      NoPrefix(f.acc.content);
    } else {
      var e := Deltas(i, b, pieces)[0];
      assert Deltas(i, b, pieces)[1..] == Deltas(i, b, pieces[1..]);
      OneChunk(f.acc, Text(pieces[0]));
      var f1 := Step(tool, f, e);
      TextDeltasFold(tool, f1, i, b, pieces[1..]);
      Regroup(f.acc.content, pieces[0], Concat(pieces[1..]));
    }
  }

  lemma OneChunk(a: Assembled, c: Chunk)
    ensures AbsorbAll(a, [c]) == Absorb(a, c)
  {
    assert [c][1..] == [];
  }

  /** Arguments appended to the last call. */
  function Extended(calls: seq<ToolCall>, args: string): seq<ToolCall>
    requires calls != []
  {
    var k := |calls| - 1;
    calls[k := calls[k].(arguments := calls[k].arguments + args)]
  }

  lemma {:induction false} ToolDeltasFold(tool: SchemaTool, f: Folded, i: int, b: Block, pieces: seq<string>)
    requires b.ToolUse? && f.st.schemaBlock != Some(i) && f.acc.calls != []
    requires i in f.st.toolIndexByBlock && f.st.toolIndexByBlock[i] == |f.acc.calls| - 1
    ensures Fold(tool, f, Deltas(i, b, pieces)) == f.(acc := f.acc.(calls := Extended(f.acc.calls, Concat(pieces))))
    decreases |pieces|
  {
    var k := |f.acc.calls| - 1;
    if pieces == [] {
      NoPrefix(f.acc.calls[k].arguments);
    } else {
      var e := Deltas(i, b, pieces)[0];
      assert Deltas(i, b, pieces)[1..] == Deltas(i, b, pieces[1..]);
      OneChunk(f.acc, ToolDelta(k, pieces[0]));
      var f1 := Step(tool, f, e);
      assert f1.acc.calls == Extended(f.acc.calls, pieces[0]);
      ToolDeltasFold(tool, f1, i, b, pieces[1..]);
      Regroup(f.acc.calls[k].arguments, pieces[0], Concat(pieces[1..]));
      assert Extended(f1.acc.calls, Concat(pieces[1..])) == Extended(f.acc.calls, Concat(pieces));
    }
  }

  lemma {:induction false} SilentDeltasFold(tool: SchemaTool, f: Folded, i: int, b: Block, pieces: seq<string>)
    requires b.Thinking? || b.RedactedThinking?
    ensures Fold(tool, f, Deltas(i, b, pieces)) == f
  {
    if pieces != [] {
      assert Deltas(i, b, pieces)[1..] == Deltas(i, b, pieces[1..]);
      SilentDeltasFold(tool, f, i, b, pieces[1..]);
    }
  }

  /** Ready for a block with index `i`: no earlier block uses it, and calls are in step. */
  predicate Ready(f: Folded, i: int) {
    && f.st.nextToolIndex == |f.acc.calls|
    && (forall b :: b in f.st.toolIndexByBlock ==> b < i)
    && (f.st.schemaBlock.Some? ==> f.st.schemaBlock.value < i)
  }

  predicate IsSchemaBlock(tool: SchemaTool, b: Block) {
    b.ToolUse? && IsSchemaTool(tool, b.name)
  }

  /** What one block adds, in the machine and at the consumer. */
  ghost predicate Adds(tool: SchemaTool, f: Folded, g: Folded, text: string, calls: seq<ToolCall>, schema: bool) {
    && g.st.usage == f.st.usage && g.st.stop == f.st.stop
    && (g.st.schemaBlock.Some? <==> f.st.schemaBlock.Some? || schema)
    && g.acc == Assembled(f.acc.content + text, f.acc.calls + calls, f.acc.end)
  }

  lemma BlockFold(tool: SchemaTool, f: Folded, i: int, b: Block, pieces: seq<string>)
    requires Ready(f, i) && Spells(tool, b, pieces)
    ensures var g := Fold(tool, f, BlockEvents(i, b, pieces));
            Ready(g, i + 1) && Adds(tool, f, g, BlockText(tool, b), BlockCalls(tool, b), IsSchemaBlock(tool, b))
  {
    var start := BlockStart(i, StartOf(b));
    var f1 := Step(tool, f, start);
    var f2 := Fold(tool, f1, Deltas(i, b, pieces));
    BlockFoldsInThree(tool, f, i, b, pieces);
    NoPrefix(f.acc.content);
    NoPrefix(f.acc.calls);
    match b
    case TextBlock(_) => TextDeltasFold(tool, f1, i, b, pieces);
    case ToolUse(id, name, input) =>
      if IsSchemaTool(tool, name) {
        TextDeltasFold(tool, f1, i, b, pieces);
      } else {
        OneChunk(f.acc, ToolStart(f.st.nextToolIndex, id, name));
        ToolDeltasFold(tool, f1, i, b, pieces);
        NoPrefix(Concat(pieces));
        assert Extended(f1.acc.calls, Concat(pieces)) == f.acc.calls + [ToolCall(id, name, Concat(pieces))];
      }
    case Thinking(_) => SilentDeltasFold(tool, f1, i, b, pieces);
    case RedactedThinking => SilentDeltasFold(tool, f1, i, b, pieces);
  }

  lemma BlockFoldsInThree(tool: SchemaTool, f: Folded, i: int, b: Block, pieces: seq<string>)
    ensures Fold(tool, f, BlockEvents(i, b, pieces)) ==
            Fold(tool, Step(tool, f, BlockStart(i, StartOf(b))), Deltas(i, b, pieces))
  {
    var start := BlockStart(i, StartOf(b));
    var rest := Deltas(i, b, pieces) + [BlockStop(i)];
    assert ([start] + rest)[1..] == rest;
    var f1 := Step(tool, f, start);
    FoldAppend(tool, f1, Deltas(i, b, pieces), [BlockStop(i)]);
    assert [BlockStop(i)][1..] == [];
  }

  lemma {:induction false} AllBlocksFold(tool: SchemaTool, f: Folded, i: int, blocks: seq<Block>,
                                         pieces: seq<seq<string>>)
    requires |pieces| == |blocks| && Ready(f, i)
    requires forall j :: 0 <= j < |blocks| ==> Spells(tool, blocks[j], pieces[j])
    ensures var g := Fold(tool, f, AllBlockEvents(i, blocks, pieces));
            && g.st.nextToolIndex == |g.acc.calls|
            && Adds(tool, f, g, ContentOf(tool, blocks), CallsOf(tool, blocks),
                    exists j :: 0 <= j < |blocks| && IsSchemaBlock(tool, blocks[j]))
    decreases |blocks|
  {
    if blocks == [] {
      NoPrefix(f.acc.content);
      NoPrefix(f.acc.calls);
    } else {
      var g := Fold(tool, f, BlockEvents(i, blocks[0], pieces[0]));
      BlockFold(tool, f, i, blocks[0], pieces[0]);
      AllBlocksFold(tool, g, i + 1, blocks[1..], pieces[1..]);
      FoldAppend(tool, f, BlockEvents(i, blocks[0], pieces[0]), AllBlockEvents(i + 1, blocks[1..], pieces[1..]));
      Regroup(f.acc.content, BlockText(tool, blocks[0]), ContentOf(tool, blocks[1..]));
      Regroup(f.acc.calls, BlockCalls(tool, blocks[0]), CallsOf(tool, blocks[1..]));
      SchemaBlockSomewhere(tool, blocks);
    }
  }

  lemma SchemaBlockSomewhere(tool: SchemaTool, blocks: seq<Block>)
    requires blocks != []
    ensures (exists j :: 0 <= j < |blocks| && IsSchemaBlock(tool, blocks[j])) <==>
            IsSchemaBlock(tool, blocks[0]) || exists j :: 0 <= j < |blocks[1..]| && IsSchemaBlock(tool, blocks[1..][j])
  {
    if j :| 0 <= j < |blocks| && IsSchemaBlock(tool, blocks[j]) {
      assert j > 0 ==> blocks[1..][j - 1] == blocks[j];
    }
  }

  // ---------------------------------------------------------------- stream equals batch

  predicate HasToolUse(blocks: seq<Block>) {
    exists j :: 0 <= j < |blocks| && blocks[j].ToolUse?
  }

  lemma {:induction false} NoCallsMeansSchemaOnly(tool: SchemaTool, blocks: seq<Block>)
    ensures CallsOf(tool, blocks) == [] <==>
            forall j :: 0 <= j < |blocks| && blocks[j].ToolUse? ==> IsSchemaBlock(tool, blocks[j])
  {
    if blocks != [] {
      NoCallsMeansSchemaOnly(tool, blocks[1..]);
      if CallsOf(tool, blocks) == [] {
        forall j | 0 <= j < |blocks| && blocks[j].ToolUse? ensures IsSchemaBlock(tool, blocks[j]) {
          assert j > 0 ==> blocks[1..][j - 1] == blocks[j];
        }
      }
    }
  }

  /**
   * Whatever the split of each block into deltas, and wherever pings fall, the streamed form
   * assembles to the batch content, tool calls and usage, in one finish. The finish reasons
   * agree exactly unless a schema tool was asked for, the provider stopped for tool use, and
   * it sent no tool block at all (then the stream says `tool_calls` and the batch `stop`).
   */
  lemma StreamEqualsBatch(tool: SchemaTool, m: Message, pieces: seq<seq<string>>, start: RawUsage,
                          output: Option<int>, events: seq<Event>)
    requires Streams(tool, m, pieces, start, output)
    requires WithoutPings(events) == StreamOf(m, pieces, start, output)
    ensures var a, r := AbsorbAll(NOTHING, Chunks(tool, INITIAL, events)), Batch(tool, m);
            && a.content == r.content && a.calls == r.toolCalls
            && a.end.Some? && a.end.value.1 == r.usage
            && (a.end.value.0 == r.finish <==>
                 !(HasSchemaTool(tool) && NormalizeStopReason(m.stopReason) == ToolCalls && !HasToolUse(m.content)))
            && (a.end.value.0 != r.finish ==> a.end.value.0 == ToolCalls && r.finish == Stop)
  {
    var f0 := Folded(INITIAL, NOTHING);
    BlocksHaveNoErrors(0, m.content, pieces);
    PingsHideNoErrors(events);
    FoldIsAbsorbedChunks(tool, f0, events);
    PingsDoNotMatter(tool, f0, events);
    var body := AllBlockEvents(0, m.content, pieces);
    var ending := [MessageDelta(m.stopReason, output), MessageStop];
    assert ([MessageStart(start)] + (body + ending))[1..] == body + ending;
    var f1 := Step(tool, f0, MessageStart(start));
    FoldAppend(tool, f1, body, ending);
    AllBlocksFold(tool, f1, 0, m.content, pieces);
    var f2 := Fold(tool, f1, body);
    NoPrefix(ContentOf(tool, m.content));
    NoPrefix(CallsOf(tool, m.content));
    EndingFolds(tool, f2, m.stopReason, output);
    FinishesAgree(tool, m, f2);
  }

  lemma EndingFolds(tool: SchemaTool, f: Folded, stopReason: Option<string>, output: Option<int>)
    requires f.st.stop == Stop
    ensures var g := Fold(tool, f, [MessageDelta(stopReason, output), MessageStop]);
            && g.acc.content == f.acc.content && g.acc.calls == f.acc.calls
            && g.acc.end == Some((StreamFinish(f.st, stopReason),
                                  f.st.usage.(completion := output.OrElse(f.st.usage.completion))))
  {
    var es := [MessageDelta(stopReason, output), MessageStop];
    assert es[1..] == [MessageStop] && es[1..][1..] == [];
    var f1 := Step(tool, f, es[0]);
    var emitted := Emitted(tool, f1.st, MessageStop).value;
    OneChunk(f1.acc, emitted[0]);
    assert Fold(tool, f1, [MessageStop]) == Step(tool, f1, MessageStop);
    assert Fold(tool, f, es) == Fold(tool, f1, es[1..]);
  }

  function StreamFinish(st: State, stopReason: Option<string>): Finish {
    var stop := NormalizeStopReason(stopReason);
    if st.schemaBlock.Some? && stop == ToolCalls && st.nextToolIndex == 0 then Stop else stop
  }

  lemma FinishesAgree(tool: SchemaTool, m: Message, f: Folded)
    requires f.st.nextToolIndex == |CallsOf(tool, m.content)|
    requires f.st.schemaBlock.Some? <==> exists j :: 0 <= j < |m.content| && IsSchemaBlock(tool, m.content[j])
    ensures StreamFinish(f.st, m.stopReason) == BatchFinish(tool, m) <==>
            !(HasSchemaTool(tool) && NormalizeStopReason(m.stopReason) == ToolCalls && !HasToolUse(m.content))
    ensures StreamFinish(f.st, m.stopReason) != BatchFinish(tool, m) ==>
            StreamFinish(f.st, m.stopReason) == ToolCalls && BatchFinish(tool, m) == Stop
  {
    NoCallsMeansSchemaOnly(tool, m.content);
  }

  // ---------------------------------------------------------------- where they disagree

  lemma {:induction false} NoPingsNothingDropped(events: seq<Event>)
    requires forall i :: 0 <= i < |events| ==> !events[i].Ping?
    ensures WithoutPings(events) == events
  {
    if events != [] {
      NoPingsNothingDropped(events[1..]);
      assert events == [events[0]] + events[1..];
    }
  }

  /**
   * A response without any block that stops for `reason`, where a schema tool was asked for: with
   * `tool_use` the stream ends in `tool_calls` and the batch form in `stop`.
   */
  lemma EmptyToolUseDisagrees(tool: SchemaTool, reason: Option<string>, usage: RawUsage)
    requires HasSchemaTool(tool) && NormalizeStopReason(reason) == ToolCalls
    ensures var m := Message([], reason, usage);
            var end := AbsorbAll(NOTHING, Chunks(tool, INITIAL, StreamOf(m, [], usage, None))).end;
            end.Some? && end.value.0 == ToolCalls && Batch(tool, m).finish == Stop
  {
    var m := Message([], reason, usage);
    NoPingsNothingDropped(StreamOf(m, [], usage, None));
    StreamEqualsBatch(tool, m, [], usage, None, StreamOf(m, [], usage, None));
  }

  /** The provider's own spelling of that reason. */
  lemma ToolUseIsSuchAReason()
    ensures NormalizeStopReason(Some("tool_use")) == ToolCalls
  {
  }
}
