/** OpenAI chunk streams: reading them into canonical chunks, and printing chunks. */
module OpenAIStream {
  import opened Options
  import opened Flattening
  import opened Streams

  // ----- Printing -----

  function PrintedCalls(d: Delta, index: int): seq<WireCall> {
    if d.toolCallId != "" then [WireCall(index, d.toolCallId, "function", d.toolName, d.arguments)]
    else if d.arguments != "" then [WireCall(index, "", "", "", d.arguments)]
    else []
  }

  function NonEmpty(s: string): Option<string> {
    if s != "" then Some(s) else None
  }

  function PrintedChoice(c: Chunk, index: int): Choice {
    match c.delta
    case None => Choice(c.role, None, None, [], NonEmpty(c.finishReason))
    case Some(d) =>
      Choice(c.role, NonEmpty(d.text), NonEmpty(d.thinking), PrintedCalls(d, index), NonEmpty(c.finishReason))
  }

  function PrintedUsage(u: Usage): WireUsage {
    WireUsage(u.prompt, u.completion, u.total, None)
  }

  function PrintedChunk(c: Chunk, index: int): WireChunk {
    WireChunk(c.id, c.model, [PrintedChoice(c, index)], if c.usage.Some? then Some(PrintedUsage(c.usage.value)) else None)
  }

  function StartsCall(c: Chunk): bool {
    c.delta.Some? && c.delta.value.toolCallId != ""
  }

  /** How many tool calls the chunks start; the index of the next one. */
  function CallCount(chunks: seq<Chunk>): nat {
    if chunks == [] then 0
    else CallCount(chunks[..|chunks| - 1]) + (if StartsCall(chunks[|chunks| - 1]) then 1 else 0)
  }

  function PrintedStream(chunks: seq<Chunk>): seq<WireChunk> {
    if chunks == [] then []
    else
      var init, c := chunks[..|chunks| - 1], chunks[|chunks| - 1];
      PrintedStream(init) + [PrintedChunk(c, CallCount(init))]
  }

  // ----- Reading -----

  /** The first chunk names the message. */
  function Named(s: State, w: WireChunk): State {
    if s.messageId == "" then s.(messageId := w.id, model := w.model) else s
  }

  function FinishAfter(choices: seq<Choice>, finish: string): string {
    if choices == [] then finish
    else
      var last := OrEmpty(choices[|choices| - 1].finish);
      if last != "" then last else FinishAfter(choices[..|choices| - 1], finish)
  }

  function AfterWire(s: State, w: WireChunk): State {
    var t := Named(s, w).(finishReason := FinishAfter(w.choices, s.finishReason));
    if w.usage.Some? then t.(usage := Some(ReadUsage(w.usage.value))) else t
  }

  function RoleChunks(s: State, c: Choice): seq<Chunk> {
    if c.role != "" then [Chunk(s.messageId, s.model, None, "", None, c.role)] else []
  }

  function TextChunks(s: State, c: Choice): seq<Chunk> {
    if OrEmpty(c.content) != "" then
      [Chunk(s.messageId, s.model, Some(Delta(c.content.value, "", "", "", "")), "", None, "")]
    else []
  }

  function ThinkingChunks(s: State, c: Choice): seq<Chunk> {
    if OrEmpty(c.reasoning) != "" then
      [Chunk(s.messageId, s.model, Some(Delta("", c.reasoning.value, "", "", "")), "", None, "")]
    else []
  }

  function CallChunk(s: State, call: WireCall): Chunk {
    Chunk(s.messageId, s.model,
          Some(Delta("", "", call.id, if call.id != "" then call.name else "", call.arguments)), "", None, "")
  }

  function CallChunks(s: State, calls: seq<WireCall>): seq<Chunk> {
    if calls == [] then []
    else CallChunks(s, calls[..|calls| - 1]) + [CallChunk(s, calls[|calls| - 1])]
  }

  function FinishChunks(s: State, c: Choice): seq<Chunk> {
    if OrEmpty(c.finish) != "" then [Chunk(s.messageId, s.model, None, c.finish.value, None, "")] else []
  }

  function ChoiceChunks(s: State, c: Choice): seq<Chunk> {
    RoleChunks(s, c) + TextChunks(s, c) + ThinkingChunks(s, c) + CallChunks(s, c.calls) + FinishChunks(s, c)
  }

  function AllChoiceChunks(s: State, choices: seq<Choice>): seq<Chunk> {
    if choices == [] then []
    else AllChoiceChunks(s, choices[..|choices| - 1]) + ChoiceChunks(s, choices[|choices| - 1])
  }

  function ReadUsage(u: WireUsage): Usage {
    Usage(u.prompt, u.completion, u.total, 0, 0, if u.cached.Some? then u.cached.value else 0, 0)
  }

  function UsageChunks(s: State, w: WireChunk): seq<Chunk> {
    if w.usage.Some? then [Chunk(s.messageId, s.model, None, "", Some(ReadUsage(w.usage.value)), "")] else []
  }

  function ChunksOf(s: State, w: WireChunk): seq<Chunk> {
    AllChoiceChunks(Named(s, w), w.choices) + UsageChunks(Named(s, w), w)
  }

  function ReadState(wires: seq<WireChunk>): State {
    if wires == [] then NEW_STATE else AfterWire(ReadState(wires[..|wires| - 1]), wires[|wires| - 1])
  }

  function ReadChunks(wires: seq<WireChunk>): seq<Chunk> {
    if wires == [] then []
    else
      var init, w := wires[..|wires| - 1], wires[|wires| - 1];
      ReadChunks(init) + ChunksOf(ReadState(init), w)
  }
}
