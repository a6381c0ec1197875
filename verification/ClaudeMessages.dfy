/** Claude requests: canonical messages as Claude messages, with runs of one role merged and
    roles made to alternate. */
module ClaudeMessages {
  import opened Options
  import opened Flattening
  import opened Canonical

  datatype Block =
    | TextBlock(text: string)
    | ThinkingBlock(thought: string)
    | ImageBlock(mediaType: string, data: string)
    | ToolUse(id: string, name: string, arguments: string)
    | ToolResultBlock(resultOf: string, text: string, isError: bool)

  /** Content on the wire: a bare text or a list of blocks. */
  datatype Body = Bare(text: string) | Blocks(blocks: seq<Block>)

  datatype ClaudeMessage = ClaudeMessage(role: string, content: Body)

  const PLACEHOLDER := Bare("...")

  // ----- Specification -----

  function BlockOf(c: Content): seq<Block> {
    match c
    case Text(text) => [TextBlock(text)]
    case Thinking(thought) => [ThinkingBlock(thought)]
    case Image(source) => if source.Some? then [ImageBlock(source.value.mediaType, source.value.data)] else []
    case ToolCall(id, name, arguments) => [ToolUse(id, name, arguments)]
    case ToolResult(id, text, isError) => [ToolResultBlock(id, text, isError)]
  }

  /** Every content but an image without a source becomes one block that carries its fields. */
  lemma BlocksCarry(c: Content)
    ensures |BlockOf(c)| == if c == Image(None) then 0 else 1
    ensures BlockOf(c) != [] ==>
      var b := BlockOf(c)[0];
      && (c.Text? ==> b.TextBlock? && b.text == c.text)
      && (c.Thinking? ==> b.ThinkingBlock? && b.thought == c.thought)
      && (c.Image? ==> b.ImageBlock? && b.mediaType == c.source.value.mediaType && b.data == c.source.value.data)
      && (c.ToolCall? ==> b.ToolUse? && b.id == c.callId && b.name == c.name && b.arguments == c.arguments)
      && (c.ToolResult? ==> b.ToolResultBlock? && b.resultOf == c.resultOf && b.text == c.result && b.isError == c.isError)
  {
  }

  function BodyOf(blocks: seq<Block>): Body {
    if |blocks| == 1 && blocks[0].TextBlock? then Bare(blocks[0].text) else Blocks(blocks)
  }

  function Converted(m: Message): seq<ClaudeMessage> {
    [ClaudeMessage(m.role, BodyOf(FlatMap(BlockOf, m.content)))]
  }

  function BlocksIn(content: Body): seq<Block> {
    match content
    case Bare(text) => [TextBlock(text)]
    case Blocks(blocks) => blocks
  }

  function Last(messages: seq<ClaudeMessage>): ClaudeMessage
    requires messages != []
  {
    messages[|messages| - 1]
  }

  /** One round of the merge loop. */
  function MergeNext(merged: seq<ClaudeMessage>, m: ClaudeMessage): seq<ClaudeMessage> {
    if merged != [] && Last(merged).role == m.role then
      merged[..|merged| - 1] + [ClaudeMessage(m.role, Blocks(BlocksIn(Last(merged).content) + BlocksIn(m.content)))]
    else merged + [m]
  }

  function Merged(messages: seq<ClaudeMessage>): seq<ClaudeMessage> {
    if messages == [] then [] else MergeNext(Merged(messages[..|messages| - 1]), Last(messages))
  }

  function Opposite(role: string): string {
    if role == USER then ASSISTANT else USER
  }

  /** One round of the alternation loop. */
  function AlternateNext(result: seq<ClaudeMessage>, m: ClaudeMessage): seq<ClaudeMessage> {
    if result != [] && Last(result).role == m.role then
      result + [ClaudeMessage(Opposite(m.role), PLACEHOLDER), m]
    else result + [m]
  }

  function Alternated(messages: seq<ClaudeMessage>): seq<ClaudeMessage> {
    if messages == [] then [] else AlternateNext(Alternated(messages[..|messages| - 1]), Last(messages))
  }

  function Lead(messages: seq<ClaudeMessage>): seq<ClaudeMessage> {
    if messages != [] && messages[0].role != USER then [ClaudeMessage(USER, PLACEHOLDER)] else []
  }

  /** The messages sent to Claude. */
  function Sent(messages: seq<Message>): seq<ClaudeMessage> {
    var merged := Merged(FlatMap(Converted, messages));
    var result := Alternated(merged);
    Lead(result) + result
  }

  // ----- What is kept -----

  ghost predicate Alternates(messages: seq<ClaudeMessage>) {
    forall i :: 0 <= i < |messages| - 1 ==> messages[i].role != messages[i + 1].role
  }

  /** The blocks of a message, each with the role that says it. */
  function Said(m: ClaudeMessage): seq<(string, Block)> {
    SaidBy(m.role, BlocksIn(m.content))
  }

  function SaidBy(role: string, blocks: seq<Block>): (r: seq<(string, Block)>)
    ensures |r| == |blocks|
  {
    seq(|blocks|, i requires 0 <= i < |blocks| => (role, blocks[i]))
  }

  /** The blocks of a canonical message that Claude can carry, with its role. */
  function SaidIn(m: Message): seq<(string, Block)> {
    SaidBy(m.role, FlatMap(BlockOf, m.content))
  }

  lemma MergeNextAlternates(merged: seq<ClaudeMessage>, m: ClaudeMessage)
    requires Alternates(merged)
    ensures Alternates(MergeNext(merged, m))
  {
    var next := MergeNext(merged, m);
    forall i | 0 <= i < |next| - 1 ensures next[i].role != next[i + 1].role {
      if i < |merged| - 1 {
        assert merged[i].role != merged[i + 1].role;
      }
    }
  }

  lemma JointSaid(a: ClaudeMessage, b: ClaudeMessage)
    requires a.role == b.role
    ensures Said(ClaudeMessage(b.role, Blocks(BlocksIn(a.content) + BlocksIn(b.content)))) == Said(a) + Said(b)
  {
  }

  lemma MergeNextKeepsSaid(merged: seq<ClaudeMessage>, m: ClaudeMessage)
    ensures FlatMap(Said, MergeNext(merged, m)) == FlatMap(Said, merged) + Said(m)
  {
    FlatMapOne(Said, m);
    if merged != [] && Last(merged).role == m.role {
      var init, last := merged[..|merged| - 1], Last(merged);
      var joint := ClaudeMessage(m.role, Blocks(BlocksIn(last.content) + BlocksIn(m.content)));
      JointSaid(last, m);
      FlatMapAppend(Said, init, [joint]);
      FlatMapOne(Said, joint);
    } else {
      FlatMapAppend(Said, merged, [m]);
    }
  }

  /** Merging leaves no two neighbours with one role and keeps every block, its role and the
      order of all of them. */
  lemma {:induction false} MergeKeepsSaid(messages: seq<ClaudeMessage>)
    ensures Alternates(Merged(messages))
    ensures FlatMap(Said, Merged(messages)) == FlatMap(Said, messages)
    ensures messages != [] ==> Merged(messages) != []
  {
    if messages != [] {
      var n := |messages| - 1;
      MergeKeepsSaid(messages[..n]);
      MergeNextAlternates(Merged(messages[..n]), messages[n]);
      MergeNextKeepsSaid(Merged(messages[..n]), messages[n]);
    }
  }

  lemma AlternateNextAlternates(result: seq<ClaudeMessage>, m: ClaudeMessage)
    requires Alternates(result)
    ensures Alternates(AlternateNext(result, m)) && AlternateNext(result, m) != [] && Last(AlternateNext(result, m)) == m
  {
    var next := AlternateNext(result, m);
    forall i | 0 <= i < |next| - 1 ensures next[i].role != next[i + 1].role {
      if i < |result| - 1 {
        assert result[i].role != result[i + 1].role;
      }
    }
  }

  /** The alternation loop makes any list alternate. */
  lemma {:induction false} AlternatedAlternates(messages: seq<ClaudeMessage>)
    ensures Alternates(Alternated(messages))
    ensures messages != [] ==> Alternated(messages) != [] && Last(Alternated(messages)) == Last(messages)
  {
    if messages != [] {
      var n := |messages| - 1;
      AlternatedAlternates(messages[..n]);
      AlternateNextAlternates(Alternated(messages[..n]), messages[n]);
    }
  }

  lemma AlternatesFront(messages: seq<ClaudeMessage>, n: nat)
    requires |messages| == n + 1 && Alternates(messages)
    ensures Alternates(messages[..n])
    ensures n > 0 ==> Last(messages[..n]).role != messages[n].role
  {
    var front := messages[..n];
    forall i | 0 <= i < n - 1 ensures front[i].role != front[i + 1].role {
      assert messages[i].role != messages[i + 1].role;
    }
    if n > 0 {
      assert messages[n - 1].role != messages[n - 1 + 1].role;
    }
  }

  /** It has nothing to do where roles already alternate. */
  lemma {:induction false} AlternatedIsFixed(messages: seq<ClaudeMessage>)
    requires Alternates(messages)
    ensures Alternated(messages) == messages
  {
    if messages != [] {
      var n := |messages| - 1;
      AlternatesFront(messages, n);
      AlternatedIsFixed(messages[..n]);
      assert messages == messages[..n] + [messages[n]];
    }
  }

  lemma ConvertedKeepsSaid(messages: seq<Message>)
    ensures FlatMap(Said, FlatMap(Converted, messages)) == FlatMap(SaidIn, messages)
  {
    forall i | 0 <= i < |messages| ensures FlatMap(Said, Converted(messages[i])) == SaidIn(messages[i]) {
      FlatMapOne(Said, Converted(messages[i])[0]);
    }
    FlatMapComposes(Converted, Said, SaidIn, messages);
  }

  /** Whatever the conversation, what Claude is sent starts with the user, never has one role
      twice in a row, and says exactly what the conversation said, role by role and in order,
      after at most one placeholder that stands first. */
  lemma {:induction false} SentIsWellFormed(messages: seq<Message>)
    requires messages != []
    ensures Sent(messages) != [] && Sent(messages)[0].role == USER
    ensures Alternates(Sent(messages))
    ensures var said := FlatMap(Said, Sent(messages));
      var placeholder := [(USER, TextBlock("..."))];
      said == FlatMap(SaidIn, messages) || said == placeholder + FlatMap(SaidIn, messages)
    ensures messages[0].role == USER ==> FlatMap(Said, Sent(messages)) == FlatMap(SaidIn, messages)
  {
    var converted := FlatMap(Converted, messages);
    FlatMapEach(Converted, messages);
    ConvertedKeepsSaid(messages);
    MergeKeepsSaid(converted);
    var merged := Merged(converted);
    MergedStarts(converted);
    AlternatedIsFixed(merged);
    if merged[0].role != USER {
      var lead := ClaudeMessage(USER, PLACEHOLDER);
      FlatMapAppend(Said, [lead], merged);
      FlatMapOne(Said, lead);
      assert Said(lead) == [(USER, TextBlock("..."))];
    } else {
      assert [] + merged == merged;
    }
  }

  lemma {:induction false} MergedStarts(messages: seq<ClaudeMessage>)
    requires messages != []
    ensures Merged(messages) != [] && Merged(messages)[0].role == messages[0].role
  {
    if |messages| > 1 {
      MergedStarts(messages[..|messages| - 1]);
    }
  }

  lemma {:induction false} MergedIsFixed(messages: seq<ClaudeMessage>)
    requires Alternates(messages)
    ensures Merged(messages) == messages
  {
    if messages != [] {
      var n := |messages| - 1;
      AlternatesFront(messages, n);
      MergedIsFixed(messages[..n]);
      assert messages == messages[..n] + [messages[n]];
    }
  }

  /** Both passes leave what was sent as it is. */
  lemma {:induction false} SentIsFixed(messages: seq<Message>)
    ensures var sent := Sent(messages); Merged(sent) == sent && Lead(Alternated(sent)) + Alternated(sent) == sent
  {
    var sent := Sent(messages);
    if messages == [] {
      assert FlatMap(Converted, messages) == [];
    } else {
      SentIsWellFormed(messages);
      MergedIsFixed(sent);
      AlternatedIsFixed(sent);
      assert [] + sent == sent;
    }
  }

  // ----- The translator -----

  method ConvertContent(content: seq<Content>) returns (blocks: seq<Block>)
    ensures blocks == FlatMap(BlockOf, content)
  {
    blocks := [];
    for i := 0 to |content|
      invariant blocks == FlatMap(BlockOf, content[..i])
    {
      FlatMapNext(BlockOf, content, i);
      match content[i] {
        case Text(text) =>
          blocks := blocks + [TextBlock(text)];
        case Thinking(thought) =>
          blocks := blocks + [ThinkingBlock(thought)];
        case Image(source) =>
          if source.Some? {
            blocks := blocks + [ImageBlock(source.value.mediaType, source.value.data)];
          }
        case ToolCall(id, name, arguments) =>
          blocks := blocks + [ToolUse(id, name, arguments)];
        case ToolResult(id, text, isError) =>
          blocks := blocks + [ToolResultBlock(id, text, isError)];
      }
    }
    FlatMapAll(BlockOf, content);
  }

  method MergeConsecutive(messages: seq<ClaudeMessage>) returns (merged: seq<ClaudeMessage>)
    ensures merged == Merged(messages)
  {
    if |messages| <= 1 {
      assert |messages| == 1 ==> messages[..0] == [] && [] + [messages[0]] == messages;
      return messages;
    }
    merged := [];
    for i := 0 to |messages|
      invariant merged == Merged(messages[..i])
    {
      assert messages[..i + 1][..i] == messages[..i];
      var m := messages[i];
      var n := |merged| - 1;
      if |merged| > 0 && merged[n].role == m.role {
        var blocks := BlocksIn(merged[n].content) + BlocksIn(m.content);
        merged := merged[..n] + [merged[n].(content := Blocks(blocks))];
      } else {
        merged := merged + [m];
      }
    }
    assert messages[..|messages|] == messages;
  }

  method EnsureAlternating(messages: seq<ClaudeMessage>) returns (result: seq<ClaudeMessage>)
    ensures result == Lead(Alternated(messages)) + Alternated(messages)
  {
    if |messages| == 0 {
      return messages;
    }
    result := [];
    for i := 0 to |messages|
      invariant result == Alternated(messages[..i])
      invariant i > 0 ==> result != []
    {
      assert messages[..i + 1][..i] == messages[..i];
      var m := messages[i];
      if i > 0 && m.role == result[|result| - 1].role {
        if m.role == USER {
          result := result + [ClaudeMessage(ASSISTANT, PLACEHOLDER)];
        } else {
          result := result + [ClaudeMessage(USER, PLACEHOLDER)];
        }
      }
      result := result + [m];
    }
    assert messages[..|messages|] == messages;
    if |result| > 0 && result[0].role != USER {
      result := [ClaudeMessage(USER, PLACEHOLDER)] + result;
    }
  }

  /** The message half of FromCanonical. */
  method ConvertMessages(messages: seq<Message>) returns (sent: seq<ClaudeMessage>)
    ensures sent == Sent(messages)
  {
    var converted: seq<ClaudeMessage> := [];
    for i := 0 to |messages|
      invariant converted == FlatMap(Converted, messages[..i])
    {
      FlatMapNext(Converted, messages, i);
      var blocks := ConvertContent(messages[i].content);
      if |blocks| == 1 && blocks[0].TextBlock? {
        converted := converted + [ClaudeMessage(messages[i].role, Bare(blocks[0].text))];
      } else {
        converted := converted + [ClaudeMessage(messages[i].role, Blocks(blocks))];
      }
    }
    FlatMapAll(Converted, messages);
    var merged := MergeConsecutive(converted);
    sent := EnsureAlternating(merged);
  }
}
