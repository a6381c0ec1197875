/** Streaming: canonical chunks, and the event and chunk shapes of the two wire formats. */
module Streams {
  import opened Options

  datatype Usage = Usage(
    prompt: int, completion: int, total: int, input: int, output: int, cacheRead: int, cacheCreation: int)

  const NO_USAGE := Usage(0, 0, 0, 0, 0, 0, 0)

  datatype Delta = Delta(text: string, thinking: string, toolCallId: string, toolName: string, arguments: string)

  datatype Chunk = Chunk(
    id: string, model: string, delta: Option<Delta>, finishReason: string, usage: Option<Usage>, role: string)

  /** What a chunk says about tool calls: one starts, or its arguments go on. */
  datatype Piece = Start(id: string, name: string) | Fragment(text: string)

  function Starting(id: string, name: string): seq<Piece> {
    if id != "" then [Start(id, name)] else []
  }

  function Continuing(text: string): seq<Piece> {
    if text != "" then [Fragment(text)] else []
  }

  // ----- Claude events -----

  datatype StartUsage = StartUsage(input: int, output: int, cacheRead: int, cacheCreation: int)

  datatype BlockKind = TextKind | ThinkingKind | ToolUseKind | ServerToolKind | OtherKind

  datatype BlockDelta =
    | TextDelta(text: string)
    | ThinkingDelta(text: string)
    | JsonDelta(text: string)
    | OtherDelta

  /** `Failure` is any event that is reported as an error: an error event, or one that does not
      parse. */
  datatype ClaudeEvent =
    | MessageStart(id: string, model: string, role: string, startUsage: Option<StartUsage>)
    | BlockStart(index: int, kind: BlockKind, callId: string, name: string)
    | BlockPart(index: int, delta: BlockDelta)
    | BlockStop(index: int)
    | MessageDelta(stopReason: string, outputTokens: Option<int>)
    | MessageStop
    | Ping
    | Failure
    | OtherEvent

  // ----- OpenAI chunks -----

  datatype WireCall = WireCall(index: int, id: string, kind: string, name: string, arguments: string)

  datatype Choice = Choice(
    role: string, content: Option<string>, reasoning: Option<string>, calls: seq<WireCall>, finish: Option<string>)

  datatype WireUsage = WireUsage(prompt: int, completion: int, total: int, cached: Option<int>)

  datatype WireChunk = WireChunk(id: string, model: string, choices: seq<Choice>, usage: Option<WireUsage>)

  function OrEmpty(s: Option<string>): string {
    if s.Some? then s.value else ""
  }

  /** The block a stream is in, as far as the translator keeps track. */
  datatype Active = NoBlock | InText | InThinking | InTool | InServerTool

  datatype State = State(
    messageId: string, model: string, blockIndex: int, thinking: bool, toolCall: bool,
    finishReason: string, usage: Option<Usage>, active: Active)

  const NEW_STATE := State("", "", 0, false, false, "", None, NoBlock)

  // ----- What each shape says -----

  function TextOf(c: Chunk): string {
    if c.delta.Some? then c.delta.value.text else ""
  }

  function ThinkingOf(c: Chunk): string {
    if c.delta.Some? then c.delta.value.thinking else ""
  }

  function PiecesOf(c: Chunk): seq<Piece> {
    if c.delta.None? then []
    else Starting(c.delta.value.toolCallId, c.delta.value.toolName) + Continuing(c.delta.value.arguments)
  }

  function ChoiceText(c: Choice): string {
    OrEmpty(c.content)
  }

  function ChoiceThinking(c: Choice): string {
    OrEmpty(c.reasoning)
  }

  function CallPieces(call: WireCall): seq<Piece> {
    Starting(call.id, call.name) + Continuing(call.arguments)
  }

  function EventText(e: ClaudeEvent): string {
    if e.BlockPart? && e.delta.TextDelta? then e.delta.text else ""
  }

  function EventThinking(e: ClaudeEvent): string {
    if e.BlockPart? && e.delta.ThinkingDelta? then e.delta.text else ""
  }

  function EventPieces(e: ClaudeEvent): seq<Piece> {
    if e.BlockStart? && e.kind == ToolUseKind then Starting(e.callId, e.name)
    else if e.BlockPart? && e.delta.JsonDelta? then Continuing(e.delta.text)
    else []
  }
}
