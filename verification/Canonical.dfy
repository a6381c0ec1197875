/** Parsed JSON values, and the representation every wire format is translated through. */
module Canonical {
  import opened Options

  datatype Json =
    | Null
    | Bool(b: bool)
    | Number(n: real)
    | String(s: string)
    | Array(items: seq<Json>)
    | Object(fields: map<string, Json>)

  /** The value of a field; null where the value is no object or has no such field. */
  function Field(v: Json, name: string): Json {
    if v.Object? && name in v.fields then v.fields[name] else Null
  }

  /** A failed type assertion leaves the empty string. */
  function StringOf(v: Json): string {
    if v.String? then v.s else ""
  }

  datatype ImageSource = ImageSource(mediaType: string, data: string, url: string)

  datatype Content =
    | Text(text: string)
    | Thinking(thought: string)
    | Image(source: Option<ImageSource>)
    | ToolCall(callId: string, name: string, arguments: string)
    | ToolResult(resultOf: string, result: string, isError: bool)

  datatype Message = Message(role: string, content: seq<Content>)

  datatype Tool = Tool(kind: string, name: string, description: string, parameters: Option<Json>)

  datatype ToolChoice = ToolChoice(kind: string, name: string)

  datatype ResponseFormat = ResponseFormat(kind: string, schema: Option<Json>)

  datatype Request = Request(
    model: string,
    messages: seq<Message>,
    system: seq<string>,
    tools: seq<Tool>,
    toolChoice: Option<ToolChoice>,
    stream: bool,
    maxTokens: int,
    temperature: Option<real>,
    topP: Option<real>,
    stop: seq<string>,
    responseFormat: Option<ResponseFormat>
  )

  const SYSTEM := "system"
  const USER := "user"
  const ASSISTANT := "assistant"
  const TOOL := "tool"
}
