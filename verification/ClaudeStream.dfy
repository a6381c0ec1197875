/** Claude event streams: reading them into canonical chunks, and printing chunks as events. */
module ClaudeStream {
  import opened Options
  import opened Flattening
  import opened Streams

  // ----- Reading -----

  function FinishOf(stopReason: string): string {
    if stopReason == "end_turn" then "stop"
    else if stopReason == "max_tokens" then "length"
    else if stopReason == "tool_use" then "tool_calls"
    else stopReason
  }

  function UsageOr(u: Option<Usage>): Usage {
    if u.Some? then u.value else NO_USAGE
  }

  function Started(s: State, e: ClaudeEvent): State
    requires e.MessageStart?
  {
    var t := s.(messageId := e.id, model := e.model);
    match e.startUsage
    case None => t
    case Some(u) =>
      t.(usage := Some(UsageOr(s.usage).(input := u.input, prompt := u.input, cacheRead := u.cacheRead,
                                         cacheCreation := u.cacheCreation)))
  }

  /** A block of an unknown kind leaves the active one as it was. */
  function BlockStarted(s: State, e: ClaudeEvent): State
    requires e.BlockStart?
  {
    var t := s.(blockIndex := e.index);
    match e.kind
    case TextKind => t.(thinking := false, toolCall := false, active := InText)
    case ThinkingKind => t.(thinking := true, toolCall := false, active := InThinking)
    case ToolUseKind => t.(thinking := false, toolCall := true, active := InTool)
    case ServerToolKind => t.(active := InServerTool)
    case OtherKind => t
  }

  function Finished(s: State, e: ClaudeEvent): State
    requires e.MessageDelta?
  {
    var t := if e.stopReason != "" then s.(finishReason := FinishOf(e.stopReason)) else s;
    match e.outputTokens
    case None => t
    case Some(n) =>
      var u := UsageOr(s.usage);
      t.(usage := Some(u.(output := n, completion := n, total := u.prompt + n)))
  }

  function AfterEvent(s: State, e: ClaudeEvent): State {
    match e
    case MessageStart(_, _, _, _) => Started(s, e)
    case BlockStart(_, _, _, _) => BlockStarted(s, e)
    case BlockStop(_) => s.(active := NoBlock, thinking := false, toolCall := false)
    case MessageDelta(_, _) => Finished(s, e)
    case _ => s
  }

  function DeltaChunk(s: State, d: Delta): Chunk {
    Chunk(s.messageId, s.model, Some(d), "", None, "")
  }

  function PartChunks(s: State, d: BlockDelta): seq<Chunk> {
    if s.active == InServerTool then []
    else
      match d
      case TextDelta(text) => if text == "" then [] else [DeltaChunk(s, Delta(text, "", "", "", ""))]
      case ThinkingDelta(text) => if text == "" then [] else [DeltaChunk(s, Delta("", text, "", "", ""))]
      case JsonDelta(text) => if text == "" then [] else [DeltaChunk(s, Delta("", "", "", "", text))]
      case OtherDelta => []
  }

  function ChunksOf(s: State, e: ClaudeEvent): seq<Chunk> {
    match e
    case MessageStart(id, model, _, _) => [Chunk(id, model, None, "", None, "assistant")]
    case BlockStart(_, ToolUseKind, id, name) => [DeltaChunk(s, Delta("", "", id, name, ""))]
    case BlockPart(_, d) => PartChunks(s, d)
    case MessageStop => [Chunk(s.messageId, s.model, None, s.finishReason, s.usage, "")]
    case _ => []
  }

  /** The reader's state after a stream. */
  function ReadState(events: seq<ClaudeEvent>): State {
    if events == [] then NEW_STATE else AfterEvent(ReadState(events[..|events| - 1]), events[|events| - 1])
  }

  function ReadChunks(events: seq<ClaudeEvent>): seq<Chunk> {
    if events == [] then []
    else
      var init, e := events[..|events| - 1], events[|events| - 1];
      ReadChunks(init) + ChunksOf(ReadState(init), e)
  }

  // ----- Printing -----

  function StopReasonOf(finishReason: string): string {
    if finishReason == "length" then "max_tokens"
    else if finishReason == "tool_calls" then "tool_use"
    else "end_turn"
  }

  /** The state after printing a chunk. */
  function AfterPrint(s: State, c: Chunk): State {
    if c.role != "" then s.(messageId := c.id, model := c.model)
    else if c.delta.None? then s
    else
      var d := c.delta.value;
      if d.thinking != "" then s.(thinking := true)
      else if d.text != "" then
        if s.thinking then s.(thinking := false, blockIndex := s.blockIndex + 1) else s.(active := InText)
      else if d.toolCallId != "" then
        s.(blockIndex := if s.active != NoBlock then s.blockIndex + 1 else s.blockIndex, active := InTool,
           toolCall := true)
      else s
  }

  function PrintedThinking(s: State, text: string): seq<ClaudeEvent> {
    (if s.thinking then [] else [BlockStart(s.blockIndex, ThinkingKind, "", "")])
    + [BlockPart(s.blockIndex, ThinkingDelta(text))]
  }

  function PrintedText(s: State, text: string): seq<ClaudeEvent> {
    (if s.thinking then [BlockStop(s.blockIndex), BlockStart(s.blockIndex + 1, TextKind, "", "")]
     else if s.active == InText then []
     else [BlockStart(s.blockIndex, TextKind, "", "")])
    + [BlockPart(if s.thinking then s.blockIndex + 1 else s.blockIndex, TextDelta(text))]
  }

  function PrintedCall(s: State, id: string, name: string): seq<ClaudeEvent> {
    (if s.active == NoBlock then [] else [BlockStop(s.blockIndex)])
    + [BlockStart(if s.active == NoBlock then s.blockIndex else s.blockIndex + 1, ToolUseKind, id, name)]
  }

  function PrintedFinish(s: State, c: Chunk): seq<ClaudeEvent> {
    (if s.active == NoBlock then [] else [BlockStop(s.blockIndex)])
    + [MessageDelta(StopReasonOf(c.finishReason), if c.usage.Some? then Some(c.usage.value.completion) else None),
       MessageStop]
  }

  /** The first thing a chunk says is the only one printed. */
  function PrintedEvents(s: State, c: Chunk): seq<ClaudeEvent> {
    if c.role != "" then [MessageStart(c.id, c.model, c.role, Some(StartUsage(0, 0, 0, 0)))]
    else
      var d := if c.delta.Some? then c.delta.value else Delta("", "", "", "", "");
      if d.thinking != "" then PrintedThinking(s, d.thinking)
      else if d.text != "" then PrintedText(s, d.text)
      else if d.toolCallId != "" then PrintedCall(s, d.toolCallId, d.toolName)
      else if d.arguments != "" then [BlockPart(s.blockIndex, JsonDelta(d.arguments))]
      else if c.finishReason != "" then PrintedFinish(s, c)
      else []
  }

  function PrintState(chunks: seq<Chunk>): State {
    if chunks == [] then NEW_STATE else AfterPrint(PrintState(chunks[..|chunks| - 1]), chunks[|chunks| - 1])
  }

  function PrintedStream(chunks: seq<Chunk>): seq<ClaudeEvent> {
    if chunks == [] then []
    else
      var init, c := chunks[..|chunks| - 1], chunks[|chunks| - 1];
      PrintedStream(init) + PrintedEvents(PrintState(init), c)
  }
}
