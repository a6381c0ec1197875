/** OpenAI chat requests: parsing into canonical form, printing from it, and what survives
    printing and parsing again. */
module OpenAI {
  import opened Options
  import opened Flattening
  import opened Text
  import opened Canonical

  datatype WireCall = WireCall(id: string, kind: string, name: string, arguments: string)

  datatype WireMessage = WireMessage(
    role: string,
    content: Json,
    name: string,
    toolCalls: seq<WireCall>,
    toolCallId: string
  )

  datatype WireTool = WireTool(kind: string, name: string, description: string, parameters: Option<Json>)

  /** `toolChoice` and `stop` hold any JSON value, null when the field is missing. */
  datatype WireRequest = WireRequest(
    model: string,
    messages: seq<WireMessage>,
    tools: seq<WireTool>,
    toolChoice: Json,
    stream: bool,
    maxTokens: int,
    temperature: Option<real>,
    topP: Option<real>,
    stop: Json,
    responseFormat: Option<ResponseFormat>
  )

  // ----- Parsing -----

  function StringPart(item: Json): seq<string> {
    if item.String? then [item.s] else []
  }

  function StopOf(stop: Json): seq<string> {
    match stop
    case String(s) => [s]
    case Array(items) => FlatMap(StringPart, items)
    case _ => []
  }

  /** A block of type text whose text is a string. */
  predicate HasText(block: Json) {
    Field(block, "type") == String("text") && Field(block, "text").String?
  }

  function FirstText(items: seq<Json>): string {
    if items == [] then ""
    else if HasText(items[0]) then Field(items[0], "text").s
    else FirstText(items[1..])
  }

  function ExtractedText(content: Json): string {
    match content
    case String(s) => s
    case Array(items) => FirstText(items)
    case _ => ""
  }

  predicate HasDataPrefix(url: string) {
    "data:" <= url
  }

  /** What an image URL becomes; a data URI without a comma becomes nothing. */
  function ImageOf(url: string): seq<Content> {
    if HasDataPrefix(url) then
      var parts := SplitTwo(url, ',');
      if |parts| < 2 then [] else [Image(Some(ImageSource(MediaType(parts[0]), parts[1], "")))]
    else [Image(Some(ImageSource("", "", url)))]
  }

  /** The part before the first semicolon, without one leading "data:". */
  function MediaType(head: string): string {
    var kind := SplitTwo(head, ';')[0];
    if HasDataPrefix(kind) then kind[5..] else kind
  }

  datatype BlockKind = TextKind | ImageKind | OtherKind

  function KindOf(block: Json): BlockKind {
    var kind := StringOf(Field(block, "type"));
    if kind == "text" then TextKind else if kind == "image_url" then ImageKind else OtherKind
  }

  function PartOf(block: Json): seq<Content> {
    match KindOf(block)
    case TextKind => [Text(StringOf(Field(block, "text")))]
    case ImageKind =>
      var image := Field(block, "image_url");
      if image.Object? then ImageOf(StringOf(Field(image, "url"))) else []
    case OtherKind => []
  }

  /** The parsed content, one empty text if there was none. */
  function ContentOf(content: Json): seq<Content> {
    var parts := match content
      case String(s) => [Text(s)]
      case Array(items) => FlatMap(PartOf, items)
      case _ => [];
    if parts == [] then [Text("")] else parts
  }

  function CallPart(call: WireCall): seq<Content> {
    [ToolCall(call.id, call.name, call.arguments)]
  }

  function MessageOf(m: WireMessage): Message {
    if m.role == TOOL then Message(TOOL, [ToolResult(m.toolCallId, ExtractedText(m.content), false)])
    else Message(m.role, ContentOf(m.content) + FlatMap(CallPart, m.toolCalls))
  }

  /** A system message moves to the system prompt; every other one stays a message. */
  function SystemPart(m: WireMessage): seq<string> {
    if m.role == SYSTEM then [ExtractedText(m.content)] else []
  }

  function MessagePart(m: WireMessage): seq<Message> {
    if m.role == SYSTEM then [] else [MessageOf(m)]
  }

  function ToolPart(t: WireTool): seq<Tool> {
    [Tool(t.kind, t.name, t.description, t.parameters)]
  }

  function ChoiceOf(choice: Json): Option<ToolChoice> {
    match choice
    case String(s) => Some(ToolChoice(s, ""))
    case Object(_) =>
      var name := Field(Field(choice, "function"), "name");
      if name.String? then Some(ToolChoice("tool", name.s))
      else Some(ToolChoice(StringOf(Field(choice, "type")), ""))
    case _ => None
  }

  function Parsed(w: WireRequest): Request {
    Request(w.model, FlatMap(MessagePart, w.messages), FlatMap(SystemPart, w.messages),
            FlatMap(ToolPart, w.tools), ChoiceOf(w.toolChoice), w.stream, w.maxTokens, w.temperature, w.topP,
            StopOf(w.stop), w.responseFormat)
  }

  // ----- Printing -----

  datatype Block = TextBlock(text: string) | ImageBlock(url: string)

  /** A block as JSON; an empty text is left out. */
  function BlockJson(b: Block): Json {
    match b
    case TextBlock(text) =>
      if text == "" then Object(map["type" := String("text")])
      else Object(map["type" := String("text"), "text" := String(text)])
    case ImageBlock(url) =>
      Object(map["type" := String("image_url"), "image_url" := Object(map["url" := String(url)])])
  }

  function BlockPart(b: Block): seq<Json> {
    [BlockJson(b)]
  }

  function StringJson(s: string): seq<Json> {
    [String(s)]
  }

  function UrlOf(source: ImageSource): string {
    if source.url != "" then source.url
    else "data:" + source.mediaType + ";base64," + source.data
  }

  function BlockOf(c: Content): seq<Block> {
    match c
    case Text(text) => [TextBlock(text)]
    case Image(Some(source)) => [ImageBlock(UrlOf(source))]
    case _ => []
  }

  function CallOf(c: Content): seq<WireCall> {
    if c.ToolCall? then [WireCall(c.callId, "function", c.name, c.arguments)] else []
  }

  function ResultOf(c: Content): seq<WireMessage> {
    if c.ToolResult? then [WireMessage(TOOL, String(c.result), "", [], c.resultOf)] else []
  }

  function ContentJson(blocks: seq<Block>, calls: seq<WireCall>): Json {
    if |blocks| == 1 && blocks[0].TextBlock? then String(blocks[0].text)
    else if |blocks| > 0 then Array(FlatMap(BlockPart, blocks))
    else if |calls| > 0 then String("")
    else Null
  }

  /** A message as its tool results, then itself unless it is a tool message. */
  function WireMessagesOf(m: Message): seq<WireMessage> {
    FlatMap(ResultOf, m.content) + if m.role == TOOL then [] else [OwnMessage(m)]
  }

  function OwnMessage(m: Message): WireMessage {
    var calls := FlatMap(CallOf, m.content);
    WireMessage(m.role, ContentJson(FlatMap(BlockOf, m.content), calls), "", calls, "")
  }

  function SystemMessage(text: string): seq<WireMessage> {
    [WireMessage(SYSTEM, String(text), "", [], "")]
  }

  /** Parameters that are missing print as null. */
  function WireToolOf(t: Tool): seq<WireTool> {
    [WireTool("function", t.name, t.description, Some(if t.parameters.Some? then t.parameters.value else Null))]
  }

  /** The kinds of tool choice that print as a word. */
  predicate IsWord(kind: string) {
    kind == "auto" || kind == "none" || kind == "required"
  }

  function NamedChoice(name: string): Json {
    Object(map["type" := String("function"), "function" := Object(map["name" := String(name)])])
  }

  function ChoiceJson(choice: Option<ToolChoice>): Json {
    if choice.None? then Null
    else if IsWord(choice.value.kind) then String(choice.value.kind)
    else if choice.value.kind == "tool" then NamedChoice(choice.value.name)
    else Null
  }

  function StopJson(stop: seq<string>): Json {
    if stop == [] then Null
    else if |stop| == 1 then String(stop[0])
    else Array(FlatMap(StringJson, stop))
  }

  function Printed(c: Request): WireRequest {
    WireRequest(c.model, FlatMap(SystemMessage, c.system) + FlatMap(WireMessagesOf, c.messages),
                FlatMap(WireToolOf, c.tools), ChoiceJson(c.toolChoice), c.stream, c.maxTokens, c.temperature,
                c.topP, StopJson(c.stop), c.responseFormat)
  }

  // ----- The translator -----

  method ExtractText(content: Json) returns (text: string)
    ensures text == ExtractedText(content)
  {
    match content {
      case String(s) =>
        return s;
      case Array(items) =>
        for i := 0 to |items|
          invariant FirstText(items) == FirstText(items[i..])
        {
          if HasText(items[i]) {
            return Field(items[i], "text").s;
          }
          assert items[i..][1..] == items[i + 1..];
        }
      case _ =>
    }
    return "";
  }

  method ParseContent(content: Json) returns (parts: seq<Content>)
    ensures parts == ContentOf(content)
  {
    parts := [];
    match content {
      case String(s) =>
        parts := [Text(s)];
      case Array(items) =>
        for i := 0 to |items|
          invariant parts == FlatMap(PartOf, items[..i])
        {
          FlatMapNext(PartOf, items, i);
          parts := parts + PartOf(items[i]);
        }
        FlatMapAll(PartOf, items);
      case _ =>
    }
    if parts == [] {
      parts := [Text("")];
    }
  }

  method ParseStop(stop: Json) returns (stops: seq<string>)
    ensures stops == StopOf(stop)
  {
    stops := [];
    match stop {
      case String(s) =>
        stops := [s];
      case Array(items) =>
        for i := 0 to |items|
          invariant stops == FlatMap(StringPart, items[..i])
        {
          FlatMapNext(StringPart, items, i);
          if items[i].String? {
            stops := stops + [items[i].s];
          }
        }
        FlatMapAll(StringPart, items);
      case _ =>
    }
  }

  /** One message that is not a system one. */
  method ParseMessage(m: WireMessage) returns (message: Message)
    ensures message == MessageOf(m)
  {
    if m.role == TOOL {
      var text := ExtractText(m.content);
      return Message(m.role, [ToolResult(m.toolCallId, text, false)]);
    }
    var parts := ParseContent(m.content);
    var content := parts;
    for i := 0 to |m.toolCalls|
      invariant content == parts + FlatMap(CallPart, m.toolCalls[..i])
    {
      var call := m.toolCalls[i];
      FlatMapNext(CallPart, m.toolCalls, i);
      content := content + [ToolCall(call.id, call.name, call.arguments)];
    }
    FlatMapAll(CallPart, m.toolCalls);
    message := Message(m.role, content);
  }

  method ParseMessages(wires: seq<WireMessage>) returns (messages: seq<Message>, system: seq<string>)
    ensures messages == FlatMap(MessagePart, wires) && system == FlatMap(SystemPart, wires)
  {
    messages, system := [], [];
    for i := 0 to |wires|
      invariant messages == FlatMap(MessagePart, wires[..i])
      invariant system == FlatMap(SystemPart, wires[..i])
    {
      FlatMapNext(MessagePart, wires, i);
      FlatMapNext(SystemPart, wires, i);
      if wires[i].role == SYSTEM {
        var text := ExtractText(wires[i].content);
        system := system + [text];
      } else {
        var message := ParseMessage(wires[i]);
        messages := messages + [message];
      }
    }
    FlatMapAll(MessagePart, wires);
    FlatMapAll(SystemPart, wires);
  }

  method ToCanonical(w: WireRequest) returns (c: Request)
    ensures c == Parsed(w)
  {
    var stop := ParseStop(w.stop);
    var messages, system := ParseMessages(w.messages);
    var tools: seq<Tool> := [];
    for i := 0 to |w.tools|
      invariant tools == FlatMap(ToolPart, w.tools[..i])
    {
      var t := w.tools[i];
      FlatMapNext(ToolPart, w.tools, i);
      tools := tools + [Tool(t.kind, t.name, t.description, t.parameters)];
    }
    FlatMapAll(ToolPart, w.tools);
    c := Request(w.model, messages, system, tools, ChoiceOf(w.toolChoice), w.stream, w.maxTokens,
                 w.temperature, w.topP, stop, w.responseFormat);
  }

  /** Sorts the content of one message into tool results, blocks and tool calls. */
  method SortContent(content: seq<Content>)
      returns (results: seq<WireMessage>, blocks: seq<Block>, calls: seq<WireCall>)
    ensures results == FlatMap(ResultOf, content)
    ensures blocks == FlatMap(BlockOf, content)
    ensures calls == FlatMap(CallOf, content)
  {
    results, blocks, calls := [], [], [];
    for i := 0 to |content|
      invariant results == FlatMap(ResultOf, content[..i])
      invariant blocks == FlatMap(BlockOf, content[..i])
      invariant calls == FlatMap(CallOf, content[..i])
    {
      FlatMapNext(ResultOf, content, i);
      FlatMapNext(BlockOf, content, i);
      FlatMapNext(CallOf, content, i);
      match content[i] {
        case Text(text) =>
          blocks := blocks + [TextBlock(text)];
        case Image(source) =>
          if source.Some? {
            blocks := blocks + [ImageBlock(UrlOf(source.value))];
          }
        case ToolCall(id, name, arguments) =>
          calls := calls + [WireCall(id, "function", name, arguments)];
        case ToolResult(id, text, _) =>
          results := results + [WireMessage(TOOL, String(text), "", [], id)];
        case Thinking(_) =>
      }
    }
    FlatMapAll(ResultOf, content);
    FlatMapAll(BlockOf, content);
    FlatMapAll(CallOf, content);
  }

  method PrintMessage(m: Message) returns (wires: seq<WireMessage>)
    ensures wires == WireMessagesOf(m)
  {
    var results, blocks, calls := SortContent(m.content);
    wires := results;
    if m.role != TOOL {
      wires := wires + [WireMessage(m.role, ContentJson(blocks, calls), "", calls, "")];
    }
  }

  method PrintSystem(system: seq<string>) returns (wires: seq<WireMessage>)
    ensures wires == FlatMap(SystemMessage, system)
  {
    wires := [];
    for i := 0 to |system|
      invariant wires == FlatMap(SystemMessage, system[..i])
    {
      FlatMapNext(SystemMessage, system, i);
      wires := wires + [WireMessage(SYSTEM, String(system[i]), "", [], "")];
    }
    FlatMapAll(SystemMessage, system);
  }

  method PrintOwnMessages(messages: seq<Message>) returns (wires: seq<WireMessage>)
    ensures wires == FlatMap(WireMessagesOf, messages)
  {
    wires := [];
    for i := 0 to |messages|
      invariant wires == FlatMap(WireMessagesOf, messages[..i])
    {
      FlatMapNext(WireMessagesOf, messages, i);
      var more := PrintMessage(messages[i]);
      wires := wires + more;
    }
    FlatMapAll(WireMessagesOf, messages);
  }

  method FromCanonical(c: Request) returns (w: WireRequest)
    ensures w == Printed(c)
  {
    var system := PrintSystem(c.system);
    var messages := PrintOwnMessages(c.messages);
    var tools: seq<WireTool> := [];
    for i := 0 to |c.tools|
      invariant tools == FlatMap(WireToolOf, c.tools[..i])
    {
      FlatMapNext(WireToolOf, c.tools, i);
      tools := tools + WireToolOf(c.tools[i]);
    }
    FlatMapAll(WireToolOf, c.tools);
    w := WireRequest(c.model, system + messages, tools, ChoiceJson(c.toolChoice), c.stream, c.maxTokens, c.temperature,
                     c.topP, StopJson(c.stop), c.responseFormat);
  }
}
