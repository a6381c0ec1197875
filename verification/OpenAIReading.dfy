/** The shapes of the OpenAI format that are read but never printed, so that a round trip does not see
    them: text given as blocks, and what the reader drops or fills in. */
module OpenAIReading {
  import opened Options
  import opened Flattening
  import opened Text
  import opened Canonical
  import opened OpenAI

  /** A block that states its type as a word. */
  predicate IsBlock(v: Json, kind: string) {
    v.Object? && "type" in v.fields && v.fields["type"] == String(kind)
  }

  /** A text block with a text. */
  predicate Says(v: Json, text: string) {
    IsBlock(v, "text") && "text" in v.fields && v.fields["text"] == String(text)
  }

  /** The first block that has a text, if any. */
  ghost predicate IsFirstText(items: seq<Json>, k: nat, text: string) {
    && k < |items| && Says(items[k], text)
    && forall j, t :: 0 <= j < k ==> !Says(items[j], t)
  }

  ghost predicate NoneSays(items: seq<Json>) {
    forall j, t :: 0 <= j < |items| ==> !Says(items[j], t)
  }

  lemma HasTextSays(v: Json)
    ensures HasText(v) ==> Says(v, Field(v, "text").s)
    ensures !HasText(v) ==> forall t :: !Says(v, t)
  {
  }

  /** A system prompt or a tool result sent as blocks is the text of the first block that has one;
      nothing if none has. */
  lemma {:induction false} ExtractedTextIs(items: seq<Json>, k: nat, text: string)
    ensures IsFirstText(items, k, text) ==> ExtractedText(Array(items)) == text
    ensures NoneSays(items) ==> ExtractedText(Array(items)) == ""
  {
    if items != [] {
      var rest := items[1..];
      HasTextSays(items[0]);
      assert forall j :: 0 <= j < |rest| ==> rest[j] == items[j + 1];
      if k > 0 {
        ExtractedTextIs(rest, k - 1, text);
      } else {
        ExtractedTextIs(rest, |rest|, text);
      }
    }
  }

  /** Sent as a string it is that string, and nothing if it is neither. */
  lemma ExtractedTextOfOthers(content: Json)
    ensures content.String? ==> ExtractedText(content) == content.s
    ensures !content.String? && !content.Array? ==> ExtractedText(content) == ""
  {
  }

  /** One stop string is read as the list of it would be; a value that is neither stops nothing. */
  lemma OneStopReads(stop: string, other: Json)
    ensures StopOf(String(stop)) == [stop] == StopOf(Array([String(stop)]))
    ensures !other.String? && !other.Array? ==> StopOf(other) == []
  {
    FlatMapOne(StringPart, String(stop));
  }

  /** What is no string is left out of a list of stops. */
  lemma OtherStopsAreLeftOut(before: seq<Json>, other: Json, after: seq<Json>)
    requires !other.String?
    ensures StopOf(Array(before + [other] + after)) == StopOf(Array(before + after))
  {
    FlatMapOne(StringPart, other);
    FlatMapAppend(StringPart, before, [other]);
    FlatMapAppend(StringPart, before + [other], after);
    FlatMapAppend(StringPart, before, after);
    assert FlatMap(StringPart, before) + [] == FlatMap(StringPart, before);
  }

  /** A tool choice that names a function is that tool whatever its type says; one that does not is read
      by its type, as the word for it would be. */
  lemma ChoiceReads(fields: map<string, Json>, inner: map<string, Json>, name: string, kind: string)
    ensures "function" in fields && fields["function"] == Object(inner)
            && "name" in inner && inner["name"] == String(name) ==>
              ChoiceOf(Object(fields)) == Some(ToolChoice("tool", name))
    ensures "function" !in fields && "type" in fields && fields["type"] == String(kind) ==>
              ChoiceOf(Object(fields)) == ChoiceOf(String(kind)) == Some(ToolChoice(kind, ""))
  {
  }

  function Bare(kind: string, key: string, value: Json): Json {
    Object(map["type" := String(kind), key := value])
  }

  /** Content blocks: a text block is its text, empty if it has none; an image block is the image of its
      URL; a data URI without a comma and a block of any other type are nothing. */
  lemma BlockReads(block: Json, text: string, url: string)
    ensures Says(block, text) ==> PartOf(block) == [Content.Text(text)]
    ensures IsBlock(block, "text") && "text" !in block.fields ==> PartOf(block) == [Content.Text("")]
    ensures block == Bare("image_url", "image_url", Object(map["url" := String(url)])) ==> PartOf(block) == ImageOf(url)
    ensures (forall kind :: IsBlock(block, kind) ==> kind !in {"text", "image_url"}) ==> PartOf(block) == []
  {
    assert Field(block, "type").String? ==> IsBlock(block, Field(block, "type").s);
  }

  lemma UrlReads(url: string)
    requires url != ""
    ensures !("data:" <= url) ==> ImageOf(url) == [Image(Some(ImageSource("", "", url)))]
    ensures "data:" <= url && ',' !in url ==> ImageOf(url) == []
  {
    if ',' !in url {
      SplitTwoParts(url, ',');
      NoSecondPart(url);
    }
  }

  lemma {:induction false} NoSecondPart(s: string)
    requires ',' !in s
    ensures SplitTwo(s, ',') == [s]
  {
    if s != "" {
      NoSecondPart(s[1..]);
      assert s[0] in s;
      assert s == [s[0]] + s[1..];
    }
  }

  // ----- The shape of what is printed -----

  /** A tool result: its text, and the call it answers. */
  predicate IsResultMessage(m: WireMessage) {
    m.role == "tool" && m.content.String? && m.toolCalls == [] && m.name == ""
  }

  /** Any other message answers no call and makes only function calls. Its content is a string or a list
      of blocks; without either it is an empty string beside calls, and null otherwise. */
  predicate IsOwnMessage(m: WireMessage) {
    && m.toolCallId == "" && m.name == ""
    && (forall i :: 0 <= i < |m.toolCalls| ==> m.toolCalls[i].kind == "function")
    && (m.content.String? || m.content.Null? || (m.content.Array? && m.content.items != []))
    && (m.content.Null? ==> m.toolCalls == [])
  }

  predicate IsWireMessage(m: WireMessage) {
    IsResultMessage(m) || IsOwnMessage(m)
  }

  ghost predicate AreWireMessages(messages: seq<WireMessage>) {
    forall m :: m in messages ==> IsWireMessage(m)
  }

  lemma {:induction false} CallsAreFunctions(content: seq<Content>)
    ensures forall call :: call in FlatMap(CallOf, content) ==> call.kind == "function"
  {
    forall call | call in FlatMap(CallOf, content)
      ensures call.kind == "function"
    {
      FlatMapOrigin(CallOf, content, call);
    }
  }

  lemma {:induction false} BlocksAreListed(blocks: seq<Block>)
    ensures |FlatMap(BlockPart, blocks)| == |blocks|
  {
    FlatMapEach(BlockPart, blocks);
  }

  lemma OwnIsShaped(m: Message)
    ensures IsOwnMessage(OwnMessage(m))
    ensures OwnMessage(m).role == m.role
    ensures FlatMap(BlockOf, m.content) == [] ==>
              OwnMessage(m).content == if FlatMap(CallOf, m.content) == [] then Null else String("")
  {
    CallsAreFunctions(m.content);
    BlocksAreListed(FlatMap(BlockOf, m.content));
  }

  lemma MessageIsShaped(m: Message)
    ensures AreWireMessages(WireMessagesOf(m))
  {
    OwnIsShaped(m);
    forall w | w in FlatMap(ResultOf, m.content)
      ensures IsResultMessage(w)
    {
      FlatMapOrigin(ResultOf, m.content, w);
    }
  }

  /** Every message that is printed is one the format has. */
  lemma {:induction false} MessagesAreShaped(c: Request)
    ensures AreWireMessages(Printed(c).messages)
  {
    forall w | w in Printed(c).messages
      ensures IsWireMessage(w)
    {
      if w in FlatMap(SystemMessage, c.system) {
        FlatMapOrigin(SystemMessage, c.system, w);
      } else {
        FlatMapOrigin(WireMessagesOf, c.messages, w);
        var m :| m in c.messages && w in WireMessagesOf(m);
        MessageIsShaped(m);
      }
    }
  }

  /** Every tool is printed as a function that has parameters, if only null. */
  lemma ToolsAreShaped(c: Request)
    ensures forall t :: t in Printed(c).tools ==> t.kind == "function" && t.parameters.Some?
  {
    forall t | t in Printed(c).tools
      ensures t.kind == "function" && t.parameters.Some?
    {
      FlatMapOrigin(WireToolOf, c.tools, t);
    }
  }

  /** A tool choice is printed as one of three words, as the function it names, or not at all. */
  lemma ChoicePrints(choice: Option<ToolChoice>)
    ensures var j := ChoiceJson(choice);
      && (choice.Some? && choice.value.kind in {"auto", "none", "required"} ==> j == String(choice.value.kind))
      && (choice.Some? && choice.value.kind == "tool" ==>
            j.Object? && j.fields.Keys == {"type", "function"} && j.fields["type"] == String("function")
            && j.fields["function"] == Object(map["name" := String(choice.value.name)]))
      && (choice.None? || choice.value.kind !in {"auto", "none", "required", "tool"} ==> j == Null)
  {
  }
}
