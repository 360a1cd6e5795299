/** The internal request format (src/gateway/envelope.ts), as far as routing and scrubbing see it. */
module Envelope {
  import opened Common

  datatype Part = TextPart(text: string) | ImagePart(url: string)
  datatype Content = Plain(text: string) | Parts(parts: seq<Part>)
  datatype ToolCall = ToolCall(id: string, name: string, arguments: string)
  datatype Message = Message(role: string, content: Content, toolCalls: seq<ToolCall>, toolCallId: Option<string>)

  datatype FormatKind = NoFormat | TextFormat | JsonObjectFormat | JsonSchemaFormat

  /** `other` stands for the remaining fields, which nothing here reads or changes. */
  datatype Request = Request(
    messages: seq<Message>,
    toolCount: nat,
    format: FormatKind,
    maxTokens: Option<int>,
    modelRequested: Option<string>,
    stream: bool,
    other: string)

  predicate HasImage(m: Message) {
    m.content.Parts? && exists i :: 0 <= i < |m.content.parts| && m.content.parts[i].ImagePart?
  }

  predicate AnyImage(messages: seq<Message>) {
    exists i :: 0 <= i < |messages| && HasImage(messages[i])
  }
}
