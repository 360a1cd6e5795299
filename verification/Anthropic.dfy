/**
 * Anthropic responses, batch and streamed (src/adapters/anthropic/translate.ts).
 */
module Anthropic {
  import opened Common
  import opened Text

  datatype Finish = Stop | Length | ToolCalls | ContentFilter

  datatype RawUsage = RawUsage(input: int, output: int, cacheRead: Option<int>, cacheWrite: Option<int>)
  datatype Usage = Usage(prompt: int, completion: int, cachedRead: int, cacheWrite: int)

  function ToUsage(u: RawUsage): Usage {
    Usage(u.input, u.output, u.cacheRead.OrElse(0), u.cacheWrite.OrElse(0))
  }

  /** `stop_reason`; absent and unrecognized values read as `stop`. */
  function NormalizeStopReason(raw: Option<string>): Finish {
    if raw == Some("max_tokens") then Length
    else if raw == Some("tool_use") then ToolCalls
    else if raw == Some("refusal") then ContentFilter
    else Stop
  }

  // ---------------------------------------------------------------- batch translation

  /** `input` is the JSON text of a tool call's input, absent when the block has none. */
  datatype Block =
    | TextBlock(text: string)
    | ToolUse(id: string, name: string, input: Option<string>)
    | Thinking(thinking: string)
    | RedactedThinking

  datatype Message = Message(content: seq<Block>, stopReason: Option<string>, usage: RawUsage)
  datatype ToolCall = ToolCall(id: string, name: string, arguments: string)
  datatype Response = Response(content: string, toolCalls: seq<ToolCall>, finish: Finish, usage: Usage)

  /** The synthetic tool that carries structured output; an empty name means there is none. */
  type SchemaTool = Option<string>

  predicate IsSchemaTool(schemaTool: SchemaTool, name: string) {
    schemaTool.Some? && schemaTool.value != "" && name == schemaTool.value
  }

  predicate HasSchemaTool(schemaTool: SchemaTool) {
    schemaTool.Some? && schemaTool.value != ""
  }

  /** Text a block contributes to the content. A schema tool without input prints as `undefined`. */
  function BlockText(schemaTool: SchemaTool, b: Block): string {
    match b
    case TextBlock(t) => t
    case ToolUse(_, name, input) => if IsSchemaTool(schemaTool, name) then input.OrElse("undefined") else ""
    case _ => ""
  }

  function BlockCalls(schemaTool: SchemaTool, b: Block): seq<ToolCall> {
    if b.ToolUse? && !IsSchemaTool(schemaTool, b.name) then [ToolCall(b.id, b.name, b.input.OrElse("{}"))] else []
  }

  function ContentOf(schemaTool: SchemaTool, blocks: seq<Block>): string {
    if blocks == [] then "" else BlockText(schemaTool, blocks[0]) + ContentOf(schemaTool, blocks[1..])
  }

  function CallsOf(schemaTool: SchemaTool, blocks: seq<Block>): seq<ToolCall> {
    if blocks == [] then [] else BlockCalls(schemaTool, blocks[0]) + CallsOf(schemaTool, blocks[1..])
  }

  function BatchFinish(schemaTool: SchemaTool, m: Message): Finish {
    var finish := NormalizeStopReason(m.stopReason);
    if HasSchemaTool(schemaTool) && finish == ToolCalls && CallsOf(schemaTool, m.content) == [] then Stop else finish
  }

  function Batch(schemaTool: SchemaTool, m: Message): Response {
    Response(ContentOf(schemaTool, m.content), CallsOf(schemaTool, m.content), BatchFinish(schemaTool, m),
             ToUsage(m.usage))
  }

  /** The translator's accumulating loop. */
  method TranslateResponse(schemaTool: SchemaTool, m: Message) returns (r: Response)
    ensures r == Batch(schemaTool, m)
  {
    var content := "";
    var calls: seq<ToolCall> := [];
    assert m.content[0..] == m.content;
    NoPrefix(ContentOf(schemaTool, m.content));
    NoPrefix(CallsOf(schemaTool, m.content));
    for i := 0 to |m.content|
      invariant content + ContentOf(schemaTool, m.content[i..]) == ContentOf(schemaTool, m.content)
      invariant calls + CallsOf(schemaTool, m.content[i..]) == CallsOf(schemaTool, m.content)
    {
      var block := m.content[i];
      assert m.content[i..][0] == block && m.content[i..][1..] == m.content[i + 1..];
      Regroup(content, BlockText(schemaTool, block), ContentOf(schemaTool, m.content[i + 1..]));
      Regroup(calls, BlockCalls(schemaTool, block), CallsOf(schemaTool, m.content[i + 1..]));
      NoPrefix(content);
      NoPrefix(calls);
      match block
      case TextBlock(t) => content := content + t;
      case ToolUse(id, name, input) =>
        if IsSchemaTool(schemaTool, name) {
          content := content + input.OrElse("undefined");
        } else {
          calls := calls + [ToolCall(id, name, input.OrElse("{}"))];
        }
      case Thinking(_) =>
      case RedactedThinking =>
    }
    var finish := NormalizeStopReason(m.stopReason);
    if HasSchemaTool(schemaTool) && finish == ToolCalls && calls == [] {
      finish := Stop;
    }
    r := Response(content, calls, finish, ToUsage(m.usage));
  }

  // ---------------------------------------------------------------- the stream state machine

  datatype StartBlock = StartText | StartTool(id: string, name: string) | StartThinking
  datatype Delta = TextDelta(text: string) | InputJsonDelta(json: string) | ThinkingDelta | SignatureDelta

  datatype Event =
    | MessageStart(usage: RawUsage)
    | BlockStart(index: int, block: StartBlock)
    | BlockDelta(index: int, delta: Delta)
    | BlockStop(index: int)
    | MessageDelta(stopReason: Option<string>, output: Option<int>)
    | MessageStop
    | Ping
    | ErrorEvent(kind: string)

  datatype Chunk =
    | Text(delta: string)
    | ToolStart(index: nat, id: string, name: string)
    | ToolDelta(index: nat, arguments: string)
    | FinishChunk(finish: Finish, usage: Usage)

  datatype State = State(
    usage: Usage,
    stop: Finish,
    toolIndexByBlock: map<int, nat>,
    nextToolIndex: nat,
    schemaBlock: Option<int>)

  const INITIAL := State(Usage(0, 0, 0, 0), Stop, map[], 0, None)

  /** The state after an event; an error event leaves it alone (the call throws). */
  function Next(schemaTool: SchemaTool, st: State, e: Event): State {
    match e
    case MessageStart(usage) => st.(usage := ToUsage(usage))
    case BlockStart(index, StartTool(_, name)) =>
      if IsSchemaTool(schemaTool, name) then st.(schemaBlock := Some(index))
      else st.(toolIndexByBlock := st.toolIndexByBlock[index := st.nextToolIndex],
               nextToolIndex := st.nextToolIndex + 1)
    case MessageDelta(stopReason, output) =>
      var st1 :=
        if stopReason.Some? && stopReason.value != "" then st.(stop := NormalizeStopReason(stopReason)) else st;
      if output.Some? then st1.(usage := st1.usage.(completion := output.value)) else st1
    case _ => st
  }

  function Emitted(schemaTool: SchemaTool, st: State, e: Event): Result<seq<Chunk>> {
    match e
    case BlockStart(index, StartTool(id, name)) =>
      Ok(if IsSchemaTool(schemaTool, name) then [] else [ToolStart(st.nextToolIndex, id, name)])
    case BlockDelta(_, TextDelta(text)) => Ok([Text(text)])
    case BlockDelta(index, InputJsonDelta(json)) =>
      Ok(if st.schemaBlock == Some(index) then [Text(json)]
         else if index in st.toolIndexByBlock then [ToolDelta(st.toolIndexByBlock[index], json)]
         else [])
    case MessageStop =>
      Ok([FinishChunk(if st.schemaBlock.Some? && st.stop == ToolCalls && st.nextToolIndex == 0 then Stop
                      else st.stop, st.usage)])
    case ErrorEvent(kind) => Err(RouterError(ErrorCodeFor(kind), Other(kind)))
    case _ => Ok([])
  }

  function ErrorCodeFor(kind: string): ErrorCode {
    if kind == "authentication_error" || kind == "permission_error" then AuthError
    else if kind == "rate_limit_error" then RateLimited
    else if kind == "request_too_large" then ContextExceeded
    else ProviderUnavailable
  }

  class StreamState {
    var usage: Usage
    var stopReason: Finish
    var toolIndexByBlock: map<int, nat>
    var nextToolIndex: nat
    const schemaTool: SchemaTool
    var schemaBlockIndex: Option<int>

    ghost function View(): State
      reads this
    {
      State(usage, stopReason, toolIndexByBlock, nextToolIndex, schemaBlockIndex)
    }

    constructor (schemaTool: SchemaTool)
      ensures View() == INITIAL && this.schemaTool == schemaTool
    {
      this.schemaTool := schemaTool;
      usage, stopReason := Usage(0, 0, 0, 0), Stop;
      toolIndexByBlock, nextToolIndex, schemaBlockIndex := map[], 0, None;
    }

    method Handle(e: Event) returns (r: Result<seq<Chunk>>)
      modifies this
      ensures View() == Next(schemaTool, old(View()), e)
      ensures r == Emitted(schemaTool, old(View()), e)
    {
      match e
      case MessageStart(u) =>
        usage := ToUsage(u);
        return Ok([]);
      case BlockStart(index, block) =>
        if block.StartTool? {
          if IsSchemaTool(schemaTool, block.name) {
            schemaBlockIndex := Some(index);
            return Ok([]);
          }
          var toolIndex := nextToolIndex;
          nextToolIndex := nextToolIndex + 1;
          toolIndexByBlock := toolIndexByBlock[index := toolIndex];
          return Ok([ToolStart(toolIndex, block.id, block.name)]);
        }
        return Ok([]);
      case BlockDelta(index, delta) =>
        if delta.TextDelta? { return Ok([Text(delta.text)]); }
        if delta.InputJsonDelta? {
          if schemaBlockIndex == Some(index) { return Ok([Text(delta.json)]); }
          if index !in toolIndexByBlock { return Ok([]); }
          return Ok([ToolDelta(toolIndexByBlock[index], delta.json)]);
        }
        return Ok([]);
      case MessageDelta(stopReason, output) =>
        if stopReason.Some? && stopReason.value != "" { this.stopReason := NormalizeStopReason(stopReason); }
        if output.Some? { usage := usage.(completion := output.value); }
        return Ok([]);
      case MessageStop =>
        var finish := stopReason;
        if schemaBlockIndex.Some? && finish == ToolCalls && nextToolIndex == 0 { finish := Stop; }
        return Ok([FinishChunk(finish, usage)]);
      case ErrorEvent(kind) =>
        return Err(RouterError(ErrorCodeFor(kind), Other(kind)));
      case BlockStop(_) => return Ok([]);
      case Ping => return Ok([]);
    }
  }
}
