/** What survives printing a canonical request for OpenAI and parsing it again. */
module OpenAIMeaning {
  import opened Options
  import opened Flattening
  import opened Text
  import opened Canonical
  import opened OpenAI
  import opened Registry

  // ----- Requests that came from OpenAI -----

  /** Content that parsing an image or a text can give: an image is a plain URL that is no
      data URI, or data with a media type free of the separators. */
  predicate Plain(c: Content) {
    match c
    case Text(_) => true
    case Image(Some(source)) =>
      if source.url != "" then source.mediaType == "" && source.data == "" && !HasDataPrefix(source.url)
      else ',' !in source.mediaType && ';' !in source.mediaType
    case _ => false
  }

  /** Texts and images, at least one. */
  ghost predicate AreParts(parts: seq<Content>) {
    parts != [] && forall i :: 0 <= i < |parts| ==> Plain(parts[i])
  }

  ghost predicate AreCalls(calls: seq<Content>) {
    forall i :: 0 <= i < |calls| ==> calls[i].ToolCall?
  }

  /** A message as parsing leaves it. */
  ghost predicate Settled(m: Message) {
    && m.role != SYSTEM
    && if m.role == TOOL then |m.content| == 1 && m.content[0].ToolResult? && !m.content[0].isError
       else exists parts, calls :: m.content == parts + calls && AreParts(parts) && AreCalls(calls)
  }

  lemma DataUriParts(mediaType: string, data: string)
    requires ',' !in mediaType && ';' !in mediaType
    ensures ImageOf("data:" + mediaType + ";base64," + data) == [Image(Some(ImageSource(mediaType, data, "")))]
  {
    var head := "data:" + mediaType + ";base64";
    var url := "data:" + mediaType + ";base64," + data;
    assert url == head + [','] + data;
    SplitTwoAt(head, data, ',');
    assert head == ("data:" + mediaType) + [';'] + "base64";
    SplitTwoAt("data:" + mediaType, "base64", ';');
  }

  lemma ImageSurvives(source: ImageSource)
    requires Plain(Image(Some(source)))
    ensures ImageOf(UrlOf(source)) == [Image(Some(source))]
  {
    if source.url == "" {
      DataUriParts(source.mediaType, source.data);
    }
  }

  lemma ImagesArePlain(url: string)
    ensures forall i :: 0 <= i < |ImageOf(url)| ==> Plain(ImageOf(url)[i])
  {
    if HasDataPrefix(url) {
      SplitTwoParts(url, ',');
      var head := SplitTwo(url, ',')[0];
      SplitTwoParts(head, ';');
    }
  }

  lemma PartSurvives(c: Content)
    requires Plain(c)
    ensures |BlockOf(c)| == 1 && PartOf(BlockJson(BlockOf(c)[0])) == [c]
  {
    match c
    case Text(text) =>
    case Image(Some(source)) => ImageSurvives(source);
  }

  lemma PartIsPlain(block: Json, c: Content)
    requires c in PartOf(block)
    ensures Plain(c)
  {
    if KindOf(block) == ImageKind {
      var url := StringOf(Field(Field(block, "image_url"), "url"));
      ImagesArePlain(url);
      var i :| 0 <= i < |ImageOf(url)| && ImageOf(url)[i] == c;
    }
  }

  lemma {:induction false} PartsArePlain(items: seq<Json>, c: Content)
    requires c in FlatMap(PartOf, items)
    ensures Plain(c)
  {
    FlatMapOrigin(PartOf, items, c);
    var i :| 0 <= i < |items| && c in PartOf(items[i]);
    PartIsPlain(items[i], c);
  }

  lemma CallsAreCalls(calls: seq<WireCall>)
    ensures AreCalls(FlatMap(CallPart, calls))
  {
    FlatMapEach(CallPart, calls);
  }

  lemma ParsedMessageIsSettled(m: WireMessage)
    requires m.role != SYSTEM
    ensures Settled(MessageOf(m))
  {
    if m.role != TOOL {
      var parts := ContentOf(m.content);
      forall i | 0 <= i < |parts| ensures Plain(parts[i]) {
        if m.content.Array? && FlatMap(PartOf, m.content.items) != [] {
          PartsArePlain(m.content.items, parts[i]);
        }
      }
      var calls := FlatMap(CallPart, m.toolCalls);
      CallsAreCalls(m.toolCalls);
      assert AreParts(parts) && AreCalls(calls);
    }
  }

  lemma ParsedMessagesAreSettled(messages: seq<WireMessage>)
    ensures forall m :: m in FlatMap(MessagePart, messages) ==> Settled(m)
  {
    forall m | m in FlatMap(MessagePart, messages) ensures Settled(m) {
      FlatMapOrigin(MessagePart, messages, m);
      var i :| 0 <= i < |messages| && m in MessagePart(messages[i]);
      ParsedMessageIsSettled(messages[i]);
    }
  }

  /** Texts and images print as as many blocks, which parse back to them. */
  lemma {:induction false} PlainSurvives(parts: seq<Content>)
    requires forall i :: 0 <= i < |parts| ==> Plain(parts[i])
    ensures |FlatMap(BlockOf, parts)| == |parts|
    ensures FlatMap(PartOf, FlatMap(BlockPart, FlatMap(BlockOf, parts))) == parts
  {
    forall i | 0 <= i < |parts| ensures |BlockOf(parts[i])| == 1 && JsonOf(parts[i]) == [BlockJson(BlockOf(parts[i])[0])]
                                     && FlatMap(PartOf, JsonOf(parts[i])) == [parts[i]] {
      PartSurvives(parts[i]);
      var block := BlockOf(parts[i])[0];
      assert BlockOf(parts[i]) == [block];
      FlatMapOne(BlockPart, block);
      FlatMapOne(PartOf, BlockJson(block));
    }
    FlatMapEach(BlockOf, parts);
    FlatMapRestores(JsonOf, PartOf, parts);
    FlatMapEach(JsonOf, parts);
    FlatMapEach(BlockPart, FlatMap(BlockOf, parts));
    assert FlatMap(JsonOf, parts) == FlatMap(BlockPart, FlatMap(BlockOf, parts));
  }

  /** The JSON blocks one part prints as. */
  function JsonOf(c: Content): seq<Json> {
    FlatMap(BlockPart, BlockOf(c))
  }

  lemma PartsPrint(parts: seq<Content>, calls: seq<Content>)
    requires AreParts(parts) && AreCalls(calls)
    ensures FlatMap(BlockOf, parts + calls) == FlatMap(BlockOf, parts)
    ensures FlatMap(CallOf, parts + calls) == FlatMap(CallOf, calls)
  {
    FlatMapAppend(BlockOf, parts, calls);
    FlatMapEmpty(BlockOf, calls);
    FlatMapAppend(CallOf, parts, calls);
    FlatMapEmpty(CallOf, parts);
  }

  lemma OnePartSurvives(part: Content, calls: seq<WireCall>)
    requires Plain(part)
    ensures ContentOf(ContentJson(BlockOf(part), calls)) == [part]
  {
    PartSurvives(part);
    var block := BlockOf(part)[0];
    assert BlockOf(part) == [block];
    if part.Image? {
      FlatMapOne(BlockPart, block);
      FlatMapOne(PartOf, BlockJson(block));
    }
  }

  /** The parts survive printing, alone as a string or together as blocks. */
  lemma {:induction false} PartsSurvive(parts: seq<Content>, calls: seq<WireCall>)
    requires AreParts(parts)
    ensures ContentOf(ContentJson(FlatMap(BlockOf, parts), calls)) == parts
  {
    if |parts| == 1 {
      assert parts == [parts[0]];
      FlatMapOne(BlockOf, parts[0]);
      OnePartSurvives(parts[0], calls);
    } else {
      PlainSurvives(parts);
      BlocksParse(FlatMap(BlockOf, parts), calls);
    }
  }

  lemma {:induction false} CallsSurvive(calls: seq<Content>)
    requires AreCalls(calls)
    ensures FlatMap(CallPart, FlatMap(CallOf, calls)) == calls
  {
    forall i | 0 <= i < |calls| ensures FlatMap(CallPart, CallOf(calls[i])) == [calls[i]] {
      FlatMapOne(CallPart, CallOf(calls[i])[0]);
    }
    FlatMapRestores(CallOf, CallPart, calls);
  }

  lemma OwnMessageSurvives(role: string, parts: seq<Content>, calls: seq<Content>)
    requires role != TOOL && AreParts(parts) && AreCalls(calls)
    ensures MessageOf(OwnMessage(Message(role, parts + calls))) == Message(role, parts + calls)
  {
    var wire := FlatMap(CallOf, calls);
    PartsPrint(parts, calls);
    PartsSurvive(parts, wire);
    CallsSurvive(calls);
    var content := ContentJson(FlatMap(BlockOf, parts), wire);
    assert OwnMessage(Message(role, parts + calls)) == WireMessage(role, content, "", wire, "");
  }

  lemma NoResults(parts: seq<Content>, calls: seq<Content>)
    requires AreParts(parts) && AreCalls(calls)
    ensures FlatMap(ResultOf, parts + calls) == []
  {
    FlatMapAppend(ResultOf, parts, calls);
    FlatMapEmpty(ResultOf, parts);
    FlatMapEmpty(ResultOf, calls);
  }

  lemma {:induction false} MessageSurvives(m: Message)
    requires Settled(m)
    ensures FlatMap(MessagePart, WireMessagesOf(m)) == [m]
    ensures FlatMap(SystemPart, WireMessagesOf(m)) == []
  {
    if m.role == TOOL {
      ToolMessageSurvives(m);
    } else {
      var parts, calls :| m.content == parts + calls && AreParts(parts) && AreCalls(calls);
      OwnMessageSurvives(m.role, parts, calls);
      NoResults(parts, calls);
      var w := OwnMessage(m);
      assert WireMessagesOf(m) == [w];
      FlatMapOne(MessagePart, w);
      FlatMapOne(SystemPart, w);
    }
  }

  lemma ToolMessageSurvives(m: Message)
    requires Settled(m) && m.role == TOOL
    ensures FlatMap(MessagePart, WireMessagesOf(m)) == [m]
    ensures FlatMap(SystemPart, WireMessagesOf(m)) == []
  {
    var c := m.content[0];
    assert m.content == [c];
    FlatMapOne(ResultOf, c);
    var w := ResultOf(c)[0];
    assert WireMessagesOf(m) == [w];
    FlatMapOne(MessagePart, w);
    FlatMapOne(SystemPart, w);
  }

  lemma {:induction false} MessagesSurvive(messages: seq<Message>)
    requires forall m :: m in messages ==> Settled(m)
    ensures FlatMap(MessagePart, FlatMap(WireMessagesOf, messages)) == messages
    ensures FlatMap(SystemPart, FlatMap(WireMessagesOf, messages)) == []
  {
    forall i | 0 <= i < |messages|
      ensures FlatMap(MessagePart, WireMessagesOf(messages[i])) == [messages[i]]
      ensures FlatMap(SystemPart, WireMessagesOf(messages[i])) == []
    {
      MessageSurvives(messages[i]);
    }
    FlatMapRestores(WireMessagesOf, MessagePart, messages);
    FlatMapErases(WireMessagesOf, SystemPart, messages);
  }

  lemma SystemSurvives(system: seq<string>)
    ensures FlatMap(MessagePart, FlatMap(SystemMessage, system)) == []
    ensures FlatMap(SystemPart, FlatMap(SystemMessage, system)) == system
  {
    forall i | 0 <= i < |system|
      ensures FlatMap(MessagePart, SystemMessage(system[i])) == []
      ensures FlatMap(SystemPart, SystemMessage(system[i])) == [system[i]]
    {
      FlatMapOne(MessagePart, SystemMessage(system[i])[0]);
      FlatMapOne(SystemPart, SystemMessage(system[i])[0]);
    }
    FlatMapErases(SystemMessage, MessagePart, system);
    FlatMapRestores(SystemMessage, SystemPart, system);
  }

  lemma StringsSurvive(strings: seq<string>)
    ensures FlatMap(StringPart, FlatMap(StringJson, strings)) == strings
  {
    forall i | 0 <= i < |strings| ensures FlatMap(StringPart, StringJson(strings[i])) == [strings[i]] {
      FlatMapOne(StringPart, String(strings[i]));
    }
    FlatMapRestores(StringJson, StringPart, strings);
  }

  lemma StopSurvives(stop: seq<string>)
    ensures StopOf(StopJson(stop)) == stop
  {
    if |stop| == 1 {
      assert stop == [stop[0]];
    } else {
      StringsSurvive(stop);
    }
  }

  /** A tool that printing and parsing again leaves as it is. */
  predicate KeptTool(t: Tool) {
    t.kind == "function" && t.parameters.Some?
  }

  /** A tool choice that printing and parsing again leaves as it is. */
  predicate KeptChoice(choice: Option<ToolChoice>) {
    choice.None? || choice.value.kind == "tool" || (IsWord(choice.value.kind) && choice.value.name == "")
  }

  lemma ToolsSurviveExactlyWhen(tools: seq<Tool>)
    ensures FlatMap(ToolPart, FlatMap(WireToolOf, tools)) == tools <==> forall t :: t in tools ==> KeptTool(t)
  {
    var wires := FlatMap(WireToolOf, tools);
    FlatMapEach(WireToolOf, tools);
    FlatMapEach(ToolPart, wires);
    var again := FlatMap(ToolPart, wires);
    assert forall i :: 0 <= i < |tools| ==> (again[i] == tools[i] <==> KeptTool(tools[i]));
  }

  lemma NamedChoiceParses(name: string)
    ensures ChoiceOf(NamedChoice(name)) == Some(ToolChoice("tool", name))
  {
    assert Field(NamedChoice(name), "function") == Object(map["name" := String(name)]);
  }

  lemma ChoiceSurvivesExactlyWhen(choice: Option<ToolChoice>)
    ensures ChoiceOf(ChoiceJson(choice)) == choice <==> KeptChoice(choice)
  {
    if choice.Some? && !IsWord(choice.value.kind) && choice.value.kind == "tool" {
      NamedChoiceParses(choice.value.name);
    }
  }

  /** Re-serializing in the same format: whatever the wire request was, the printed one parses
      to the same canonical request exactly when every tool is a function with parameters and
      the tool choice is one that has a printed form. */
  lemma SameFormatKeepsMeaning(w: WireRequest, model: string)
    ensures var c := Substituted(Parsed(w), model);
      Parsed(Printed(c)) == c <==> (forall t :: t in c.tools ==> KeptTool(t)) && KeptChoice(c.toolChoice)
  {
    var c := Substituted(Parsed(w), model);
    ParsedMessagesAreSettled(w.messages);
    MessagesSurvive(c.messages);
    SystemSurvives(c.system);
    var head, tail := FlatMap(SystemMessage, c.system), FlatMap(WireMessagesOf, c.messages);
    FlatMapAppend(MessagePart, head, tail);
    FlatMapAppend(SystemPart, head, tail);
    StopSurvives(c.stop);
    ToolsSurviveExactlyWhen(c.tools);
    ChoiceSurvivesExactlyWhen(c.toolChoice);
  }

  /** A request whose only tool has no parameters field. */
  function BareToolRequest(): WireRequest {
    WireRequest("m", [], [WireTool("function", "now", "", None)], Null, false, 0, None, None, Null, None)
  }

  /** Parameters that were missing come back as null, so the meaning is not kept. */
  lemma MissingParametersChange()
    ensures var c := Parsed(BareToolRequest()); Parsed(Printed(c)) != c
  {
    var c := Parsed(BareToolRequest());
    FlatMapOne(ToolPart, BareToolRequest().tools[0]);
    assert c.tools == [Tool("function", "now", "", None)];
    assert !KeptTool(c.tools[0]) && c.tools[0] in c.tools;
    SameFormatKeepsMeaning(BareToolRequest(), "");
  }

  const OPENAI := "openai"

  /** The OpenAI translator as the registry holds it. */
  function OpenAITranslator(): Translator<WireRequest> {
    Translator(w => Ok(Parsed(w)), c => Ok(Printed(c)))
  }

  /** A tool on the wire that re-serializing leaves as it is. */
  predicate KeptWireTool(t: WireTool) {
    t.kind == "function" && t.parameters.Some?
  }

  lemma WireToolsKept(tools: seq<WireTool>)
    ensures (forall t :: t in FlatMap(ToolPart, tools) ==> KeptTool(t)) <==> (forall t :: t in tools ==> KeptWireTool(t))
  {
    FlatMapEach(ToolPart, tools);
    var parsed := FlatMap(ToolPart, tools);
    assert forall i :: 0 <= i < |tools| ==> (KeptTool(parsed[i]) <==> KeptWireTool(tools[i]));
  }

  lemma TranslatedByItself(translators: map<string, Translator<WireRequest>>, body: WireRequest, model: string)
    requires OPENAI in translators && translators[OPENAI] == OpenAITranslator()
    ensures var c := Substituted(Parsed(body), model);
      Translated(translators, OPENAI, OPENAI, body, model) == Ok((c, Printed(c)))
  {
  }

  /** A request that enters and leaves the gateway as OpenAI's: the body sent upstream carries
      the substituted model and reads back as the request it was printed from exactly when its
      tools and tool choice allow. */
  lemma TranslationKeepsMeaning(translators: map<string, Translator<WireRequest>>, body: WireRequest, model: string)
    requires OPENAI in translators && translators[OPENAI] == OpenAITranslator()
    ensures var r := Translated(translators, OPENAI, OPENAI, body, model);
      && r.Ok?
      && r.value.1.model == (if model != "" then model else body.model)
      && (Parsed(r.value.1) == r.value.0
          <==> (forall t :: t in body.tools ==> KeptWireTool(t)) && KeptChoice(ChoiceOf(body.toolChoice)))
  {
    TranslatedByItself(translators, body, model);
    var c := Substituted(Parsed(body), model);
    SameFormatKeepsMeaning(body, model);
    WireToolsKept(body.tools);
    assert c.tools == FlatMap(ToolPart, body.tools) && c.toolChoice == ChoiceOf(body.toolChoice);
  }

  // ----- What every request keeps, whatever format it came from -----

  function ResultPart(c: Content): seq<(string, string)> {
    if c.ToolResult? then [(c.resultOf, c.result)] else []
  }

  function CallTriple(c: Content): seq<(string, string, string)> {
    if c.ToolCall? then [(c.callId, c.name, c.arguments)] else []
  }

  function TextPart(c: Content): string {
    if c.Text? then c.text else ""
  }

  /** Roles whose own content OpenAI messages cannot carry. */
  predicate IsHidden(role: string) {
    role == TOOL || role == SYSTEM
  }

  function ResultsIn(m: Message): seq<(string, string)> {
    FlatMap(ResultPart, m.content)
  }

  function CallsIn(m: Message): seq<(string, string, string)> {
    if IsHidden(m.role) then [] else FlatMap(CallTriple, m.content)
  }

  function TextIn(m: Message): string {
    if IsHidden(m.role) then "" else FlatMap(TextPart, m.content)
  }

  function ReparsedPart(c: Content): seq<Content> {
    FlatMap(PartOf, JsonOf(c))
  }

  /** A part is reparsed as itself, as some image, or as nothing. */
  lemma {:induction false} ReparsedIs(c: Content)
    ensures c.Text? ==> ReparsedPart(c) == [c]
    ensures !c.Text? ==> ReparsedPart(c) == [] || (|ReparsedPart(c)| == 1 && ReparsedPart(c)[0].Image?)
  {
    if BlockOf(c) != [] {
      var block := BlockOf(c)[0];
      assert BlockOf(c) == [block];
      FlatMapOne(BlockPart, block);
      FlatMapOne(PartOf, BlockJson(block));
      if c.Text? {
        PartSurvives(c);
      } else {
        assert KindOf(BlockJson(block)) == ImageKind;
      }
    }
  }

  lemma ReparsedKeepsPart(c: Content)
    ensures FlatMap(TextPart, ReparsedPart(c)) == TextPart(c)
    ensures FlatMap(ResultPart, ReparsedPart(c)) == []
    ensures FlatMap(CallTriple, ReparsedPart(c)) == []
  {
    ReparsedIs(c);
    var parts := ReparsedPart(c);
    if parts != [] {
      assert parts == [parts[0]];
      FlatMapOne(TextPart, parts[0]);
      FlatMapOne(ResultPart, parts[0]);
      FlatMapOne(CallTriple, parts[0]);
    }
  }

  lemma {:induction false} ReparsedParts(content: seq<Content>)
    ensures FlatMap(PartOf, FlatMap(BlockPart, FlatMap(BlockOf, content))) == FlatMap(ReparsedPart, content)
  {
    FlatMapComposes(BlockOf, BlockPart, JsonOf, content);
    FlatMapComposes(JsonOf, PartOf, ReparsedPart, content);
  }

  lemma {:induction false} ReparsedKeepsText(content: seq<Content>)
    ensures FlatMap(TextPart, FlatMap(ReparsedPart, content)) == FlatMap(TextPart, content)
    ensures FlatMap(ResultPart, FlatMap(ReparsedPart, content)) == []
    ensures FlatMap(CallTriple, FlatMap(ReparsedPart, content)) == []
  {
    forall i | 0 <= i < |content|
      ensures FlatMap(TextPart, ReparsedPart(content[i])) == TextPart(content[i])
      ensures FlatMap(ResultPart, ReparsedPart(content[i])) == []
      ensures FlatMap(CallTriple, ReparsedPart(content[i])) == []
    {
      ReparsedKeepsPart(content[i]);
    }
    FlatMapComposes(ReparsedPart, TextPart, TextPart, content);
    FlatMapErases(ReparsedPart, ResultPart, content);
    FlatMapErases(ReparsedPart, CallTriple, content);
  }

  /** A single text block stands for all the text. */
  lemma SingleBlock(content: seq<Content>)
    requires var blocks := FlatMap(BlockOf, content); |blocks| == 1 && blocks[0].TextBlock?
    ensures FlatMap(TextPart, content) == FlatMap(BlockOf, content)[0].text
  {
    var block := FlatMap(BlockOf, content)[0];
    assert FlatMap(BlockOf, content) == [block];
    ReparsedParts(content);
    ReparsedKeepsText(content);
    FlatMapOne(BlockPart, block);
    FlatMapOne(PartOf, BlockJson(block));
    assert PartOf(BlockJson(block)) == [Text(block.text)] by { PartSurvives(Text(block.text)); }
    SingleText(block.text);
  }

  lemma {:induction false} ContentKeepsText(content: seq<Content>, calls: seq<WireCall>)
    ensures var again := ContentOf(ContentJson(FlatMap(BlockOf, content), calls));
      && FlatMap(TextPart, again) == FlatMap(TextPart, content)
      && FlatMap(ResultPart, again) == []
      && FlatMap(CallTriple, again) == []
  {
    var blocks := FlatMap(BlockOf, content);
    if |blocks| == 1 && blocks[0].TextBlock? {
      SingleBlock(content);
      SingleText(blocks[0].text);
    } else {
      ReparsedParts(content);
      ReparsedKeepsText(content);
      SingleText("");
      BlocksParse(blocks, calls);
    }
  }

  lemma {:induction false} BlocksParse(blocks: seq<Block>, calls: seq<WireCall>)
    requires |blocks| != 1 || !blocks[0].TextBlock?
    ensures var parts := FlatMap(PartOf, FlatMap(BlockPart, blocks));
      ContentOf(ContentJson(blocks, calls)) == if parts == [] then [Text("")] else parts
  {
    if blocks != [] {
      ArrayParses(FlatMap(BlockPart, blocks));
    }
  }

  lemma ArrayParses(items: seq<Json>)
    ensures var parts := FlatMap(PartOf, items); ContentOf(Array(items)) == if parts == [] then [Text("")] else parts
  {
  }

  lemma SingleText(text: string)
    ensures FlatMap(TextPart, [Text(text)]) == text
    ensures FlatMap(ResultPart, [Text(text)]) == []
    ensures FlatMap(CallTriple, [Text(text)]) == []
  {
    FlatMapOne(TextPart, Text(text));
    FlatMapOne(ResultPart, Text(text));
    FlatMapOne(CallTriple, Text(text));
  }

  function ReparsedCall(c: Content): seq<Content> {
    if c.ToolCall? then [c] else []
  }

  lemma ReparsedCalls(content: seq<Content>)
    ensures var calls := FlatMap(CallPart, FlatMap(CallOf, content));
      && FlatMap(CallTriple, calls) == FlatMap(CallTriple, content)
      && FlatMap(TextPart, calls) == ""
      && FlatMap(ResultPart, calls) == []
  {
    forall i | 0 <= i < |content|
      ensures FlatMap(CallPart, CallOf(content[i])) == ReparsedCall(content[i])
      ensures FlatMap(CallTriple, ReparsedCall(content[i])) == CallTriple(content[i])
    {
      if content[i].ToolCall? {
        FlatMapOne(CallPart, CallOf(content[i])[0]);
        FlatMapOne(CallTriple, content[i]);
      }
    }
    FlatMapComposes(CallOf, CallPart, ReparsedCall, content);
    FlatMapComposes(ReparsedCall, CallTriple, CallTriple, content);
    var calls := FlatMap(CallPart, FlatMap(CallOf, content));
    CallsAreCalls(FlatMap(CallOf, content));
    FlatMapEmpty(TextPart, calls);
    FlatMapEmpty(ResultPart, calls);
  }

  lemma OwnMessageKeeps(m: Message)
    requires m.role != TOOL
    ensures var own := MessageOf(OwnMessage(m));
      own.role == m.role && ResultsIn(own) == [] && CallsIn(own) == CallsIn(m) && TextIn(own) == TextIn(m)
  {
    var calls := FlatMap(CallOf, m.content);
    var content := ContentOf(ContentJson(FlatMap(BlockOf, m.content), calls));
    var more := FlatMap(CallPart, calls);
    ContentKeepsText(m.content, calls);
    ReparsedCalls(m.content);
    FlatMapAppend(TextPart, content, more);
    FlatMapAppend(ResultPart, content, more);
    FlatMapAppend(CallTriple, content, more);
    assert MessageOf(OwnMessage(m)).content == content + more;
  }

  /** Canonical messages that one canonical message becomes. */
  function Again(m: Message): seq<Message> {
    FlatMap(MessagePart, WireMessagesOf(m))
  }

  function ResultMessage(c: Content): seq<Message> {
    if c.ToolResult? then [Message(TOOL, [ToolResult(c.resultOf, c.result, false)])] else []
  }

  lemma AgainIs(m: Message)
    ensures IsHidden(m.role) ==> Again(m) == FlatMap(ResultMessage, m.content)
    ensures !IsHidden(m.role) ==> Again(m) == FlatMap(ResultMessage, m.content) + [MessageOf(OwnMessage(m))]
  {
    forall i | 0 <= i < |m.content|
      ensures FlatMap(MessagePart, ResultOf(m.content[i])) == ResultMessage(m.content[i])
    {
      if m.content[i].ToolResult? {
        FlatMapOne(MessagePart, ResultOf(m.content[i])[0]);
      }
    }
    FlatMapComposes(ResultOf, MessagePart, ResultMessage, m.content);
    FlatMapOne(MessagePart, OwnMessage(m));
    FlatMapAppend(MessagePart, FlatMap(ResultOf, m.content), if m.role == TOOL then [] else [OwnMessage(m)]);
  }

  lemma ResultMessagesKeep(content: seq<Content>)
    ensures FlatMap(ResultsIn, FlatMap(ResultMessage, content)) == FlatMap(ResultPart, content)
    ensures FlatMap(CallsIn, FlatMap(ResultMessage, content)) == []
    ensures FlatMap(TextIn, FlatMap(ResultMessage, content)) == ""
  {
    forall i | 0 <= i < |content|
      ensures FlatMap(ResultsIn, ResultMessage(content[i])) == ResultPart(content[i])
      ensures FlatMap(CallsIn, ResultMessage(content[i])) == []
      ensures FlatMap(TextIn, ResultMessage(content[i])) == ""
    {
      var c := content[i];
      if c.ToolResult? {
        FlatMapOne(ResultPart, ToolResult(c.resultOf, c.result, false));
        FlatMapOne(ResultsIn, ResultMessage(c)[0]);
        FlatMapOne(CallsIn, ResultMessage(c)[0]);
        FlatMapOne(TextIn, ResultMessage(c)[0]);
      }
    }
    FlatMapComposes(ResultMessage, ResultsIn, ResultPart, content);
    FlatMapErases(ResultMessage, CallsIn, content);
    FlatMapErases(ResultMessage, TextIn, content);
  }

  lemma MessageKeeps(m: Message)
    ensures FlatMap(ResultsIn, Again(m)) == ResultsIn(m)
    ensures FlatMap(CallsIn, Again(m)) == CallsIn(m)
    ensures FlatMap(TextIn, Again(m)) == TextIn(m)
  {
    AgainIs(m);
    ResultMessagesKeep(m.content);
    if !IsHidden(m.role) {
      OwnMessageKeeps(m);
      ObservedTogether(FlatMap(ResultMessage, m.content), MessageOf(OwnMessage(m)));
    }
  }

  lemma ObservedTogether(messages: seq<Message>, m: Message)
    ensures FlatMap(ResultsIn, messages + [m]) == FlatMap(ResultsIn, messages) + ResultsIn(m)
    ensures FlatMap(CallsIn, messages + [m]) == FlatMap(CallsIn, messages) + CallsIn(m)
    ensures FlatMap(TextIn, messages + [m]) == FlatMap(TextIn, messages) + TextIn(m)
  {
    FlatMapAppend(ResultsIn, messages, [m]);
    FlatMapAppend(CallsIn, messages, [m]);
    FlatMapAppend(TextIn, messages, [m]);
    FlatMapOne(ResultsIn, m);
    FlatMapOne(CallsIn, m);
    FlatMapOne(TextIn, m);
  }

  lemma {:induction false} ReparsedMessages(c: Request)
    ensures Parsed(Printed(c)).messages == FlatMap(Again, c.messages)
  {
    SystemSurvives(c.system);
    FlatMapAppend(MessagePart, FlatMap(SystemMessage, c.system), FlatMap(WireMessagesOf, c.messages));
    FlatMapComposes(WireMessagesOf, MessagePart, Again, c.messages);
  }

  /** Whatever format a canonical request came from, printing it for OpenAI keeps, in order,
      every tool result of every message, and every tool call and all the text of every message
      that is neither a tool nor a system one. */
  lemma {:induction false} PrintingKeepsTraffic(c: Request)
    ensures var again := Parsed(Printed(c)).messages;
      && FlatMap(ResultsIn, again) == FlatMap(ResultsIn, c.messages)
      && FlatMap(CallsIn, again) == FlatMap(CallsIn, c.messages)
      && FlatMap(TextIn, again) == FlatMap(TextIn, c.messages)
  {
    ReparsedMessages(c);
    forall i | 0 <= i < |c.messages|
      ensures FlatMap(ResultsIn, Again(c.messages[i])) == ResultsIn(c.messages[i])
      ensures FlatMap(CallsIn, Again(c.messages[i])) == CallsIn(c.messages[i])
      ensures FlatMap(TextIn, Again(c.messages[i])) == TextIn(c.messages[i])
    {
      MessageKeeps(c.messages[i]);
    }
    FlatMapComposes(Again, ResultsIn, ResultsIn, c.messages);
    FlatMapComposes(Again, CallsIn, CallsIn, c.messages);
    FlatMapComposes(Again, TextIn, TextIn, c.messages);
  }
}
