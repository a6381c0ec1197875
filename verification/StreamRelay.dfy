/** The translators' state, updated event by event, and the loops that relay a stream. The class is
    the stream state of the source with the handlers of both translators; each handler is tied to
    the function of `ClaudeStream` or `OpenAIStream` that says what it does to a state, and each
    relay loop to the fold of those functions over the whole stream. */
module StreamRelay {
  import opened Flattening
  import opened Options
  import opened Streams
  import C = ClaudeStream
  import O = OpenAIStream

  class StreamState {
    var messageId: string
    var model: string
    var blockIndex: int
    var inThinking: bool
    var inToolCall: bool
    var finishReason: string
    var usage: Option<Usage>
    var active: Active

    function Value(): State
      reads this
    {
      State(messageId, model, blockIndex, inThinking, inToolCall, finishReason, usage, active)
    }

    constructor ()
      ensures Value() == NEW_STATE
    {
      messageId, model, blockIndex, inThinking, inToolCall := "", "", 0, false, false;
      finishReason, usage, active := "", None, NoBlock;
    }

    // ----- Claude -----

    method HandleMessageStart(id: string, model: string, role: string, startUsage: Option<StartUsage>)
        returns (chunks: seq<Chunk>)
      modifies this
      ensures Value() == C.Started(old(Value()), MessageStart(id, model, role, startUsage))
      ensures chunks == [Chunk(id, model, None, "", None, "assistant")]
    {
      messageId, this.model := id, model;
      if startUsage.Some? {
        var u := startUsage.value;
        if usage.None? {
          usage := Some(NO_USAGE);
        }
        usage := Some(usage.value.(input := u.input, prompt := u.input, cacheRead := u.cacheRead,
                                   cacheCreation := u.cacheCreation));
      }
      chunks := [Chunk(messageId, this.model, None, "", None, "assistant")];
    }

    method HandleBlockStart(index: int, kind: BlockKind, id: string, name: string) returns (chunks: seq<Chunk>)
      modifies this
      ensures Value() == C.BlockStarted(old(Value()), BlockStart(index, kind, id, name))
      ensures chunks == C.ChunksOf(old(Value()), BlockStart(index, kind, id, name))
    {
      blockIndex := index;
      chunks := [];
      match kind {
        case TextKind =>
          inThinking, inToolCall, active := false, false, InText;
        case ThinkingKind =>
          inThinking, inToolCall, active := true, false, InThinking;
        case ToolUseKind =>
          inThinking, inToolCall, active := false, true, InTool;
          chunks := [Chunk(messageId, model, Some(Delta("", "", id, name, "")), "", None, "")];
        case ServerToolKind =>
          active := InServerTool;
        case OtherKind =>
      }
    }

    method HandleBlockPart(d: BlockDelta) returns (chunks: seq<Chunk>)
      ensures chunks == C.PartChunks(Value(), d)
    {
      if active == InServerTool {
        return [];
      }
      match d {
        case TextDelta(text) =>
          if text == "" {
            return [];
          }
          return [Chunk(messageId, model, Some(Delta(text, "", "", "", "")), "", None, "")];
        case ThinkingDelta(text) =>
          if text == "" {
            return [];
          }
          return [Chunk(messageId, model, Some(Delta("", text, "", "", "")), "", None, "")];
        case JsonDelta(text) =>
          if text == "" {
            return [];
          }
          return [Chunk(messageId, model, Some(Delta("", "", "", "", text)), "", None, "")];
        case OtherDelta =>
          return [];
      }
    }

    method HandleMessageDelta(stopReason: string, outputTokens: Option<int>)
      modifies this
      ensures Value() == C.Finished(old(Value()), MessageDelta(stopReason, outputTokens))
    {
      if stopReason != "" {
        finishReason := C.FinishOf(stopReason);
      }
      if outputTokens.Some? {
        var n := outputTokens.value;
        if usage.None? {
          usage := Some(NO_USAGE);
        }
        var u := usage.value;
        usage := Some(u.(output := n, completion := n, total := u.prompt + n));
      }
    }

    /** Reads one Claude event. */
    method ReadClaude(e: ClaudeEvent) returns (chunks: seq<Chunk>, failed: bool)
      modifies this
      ensures Value() == C.AfterEvent(old(Value()), e)
      ensures chunks == C.ChunksOf(old(Value()), e)
      ensures failed <==> e.Failure?
    {
      chunks, failed := [], false;
      match e {
        case MessageStart(id, model, role, startUsage) =>
          chunks := HandleMessageStart(id, model, role, startUsage);
        case BlockStart(index, kind, id, name) =>
          chunks := HandleBlockStart(index, kind, id, name);
        case BlockPart(_, d) =>
          chunks := HandleBlockPart(d);
        case BlockStop(_) =>
          active, inThinking, inToolCall := NoBlock, false, false;
        case MessageDelta(stopReason, outputTokens) =>
          HandleMessageDelta(stopReason, outputTokens);
        case MessageStop =>
          chunks := [Chunk(messageId, model, None, finishReason, usage, "")];
        case Ping =>
        case Failure =>
          failed := true;
        case OtherEvent =>
      }
    }

    method PrintThinking(text: string) returns (events: seq<ClaudeEvent>)
      modifies this`inThinking
      ensures Value() == old(Value()).(thinking := true)
      ensures events == C.PrintedThinking(old(Value()), text)
    {
      var part := BlockPart(blockIndex, ThinkingDelta(text));
      if !inThinking {
        inThinking := true;
        return [BlockStart(blockIndex, ThinkingKind, "", ""), part];
      }
      events := [part];
    }

    method PrintText(text: string) returns (events: seq<ClaudeEvent>)
      modifies this
      ensures var s := old(Value());
        Value() == if s.thinking then s.(thinking := false, blockIndex := s.blockIndex + 1) else s.(active := InText)
      ensures events == C.PrintedText(old(Value()), text)
    {
      if inThinking {
        inThinking := false;
        var stop := BlockStop(blockIndex);
        blockIndex := blockIndex + 1;
        return [stop, BlockStart(blockIndex, TextKind, "", ""), BlockPart(blockIndex, TextDelta(text))];
      }
      if active != InText {
        active := InText;
        return [BlockStart(blockIndex, TextKind, "", ""), BlockPart(blockIndex, TextDelta(text))];
      }
      events := [BlockPart(blockIndex, TextDelta(text))];
    }

    method PrintCall(id: string, name: string) returns (events: seq<ClaudeEvent>)
      modifies this
      ensures var s := old(Value());
        Value() == s.(blockIndex := if s.active != NoBlock then s.blockIndex + 1 else s.blockIndex,
                      active := InTool, toolCall := true)
      ensures events == C.PrintedCall(old(Value()), id, name)
    {
      events := [];
      if active != NoBlock {
        events := [BlockStop(blockIndex)];
        blockIndex := blockIndex + 1;
      }
      active := InTool;
      inToolCall := true;
      events := events + [BlockStart(blockIndex, ToolUseKind, id, name)];
    }

    method PrintFinish(c: Chunk) returns (events: seq<ClaudeEvent>)
      ensures events == C.PrintedFinish(Value(), c)
    {
      events := [];
      if active != NoBlock {
        events := [BlockStop(blockIndex)];
      }
      var tokens := if c.usage.Some? then Some(c.usage.value.completion) else None;
      events := events + [MessageDelta(C.StopReasonOf(c.finishReason), tokens)];
      events := events + [MessageStop];
    }

    /** Prints one chunk as Claude events. */
    method PrintClaude(c: Chunk) returns (events: seq<ClaudeEvent>)
      modifies this
      ensures Value() == C.AfterPrint(old(Value()), c)
      ensures events == C.PrintedEvents(old(Value()), c)
    {
      if c.role != "" {
        messageId, model := c.id, c.model;
        return [MessageStart(c.id, c.model, c.role, Some(StartUsage(0, 0, 0, 0)))];
      }
      if c.delta.Some? {
        var d := c.delta.value;
        if d.thinking != "" {
          events := PrintThinking(d.thinking);
          return;
        }
        if d.text != "" {
          events := PrintText(d.text);
          return;
        }
        if d.toolCallId != "" {
          events := PrintCall(d.toolCallId, d.toolName);
          return;
        }
        if d.arguments != "" {
          return [BlockPart(blockIndex, JsonDelta(d.arguments))];
        }
      }
      if c.finishReason != "" {
        events := PrintFinish(c);
        return;
      }
      events := [];
    }

    // ----- OpenAI -----

    /** Prints one chunk as an OpenAI chunk; a call that starts takes the next index. */
    method PrintOpenAI(c: Chunk) returns (w: WireChunk)
      modifies this`blockIndex
      ensures w == O.PrintedChunk(c, old(blockIndex))
      ensures blockIndex == old(blockIndex) + (if O.StartsCall(c) then 1 else 0)
    {
      var choice := Choice(c.role, None, None, [], None);
      if c.delta.Some? {
        var d := c.delta.value;
        if d.text != "" {
          choice := choice.(content := Some(d.text));
        }
        if d.thinking != "" {
          choice := choice.(reasoning := Some(d.thinking));
        }
        if d.toolCallId != "" || d.arguments != "" {
          var call := WireCall(blockIndex, "", "", "", d.arguments);
          if d.toolCallId != "" {
            call := call.(id := d.toolCallId, kind := "function", name := d.toolName);
            blockIndex := blockIndex + 1;
          }
          choice := choice.(calls := [call]);
        }
      }
      if c.finishReason != "" {
        choice := choice.(finish := Some(c.finishReason));
      }
      w := WireChunk(c.id, c.model, [choice], None);
      if c.usage.Some? {
        w := w.(usage := Some(WireUsage(c.usage.value.prompt, c.usage.value.completion, c.usage.value.total, None)));
      }
    }

    method ReadCalls(calls: seq<WireCall>) returns (chunks: seq<Chunk>)
      ensures chunks == O.CallChunks(Value(), calls)
    {
      chunks := [];
      for i := 0 to |calls|
        invariant chunks == O.CallChunks(Value(), calls[..i])
      {
        assert calls[..i + 1][..i] == calls[..i];
        var d := Delta("", "", "", "", "");
        if calls[i].id != "" {
          d := d.(toolCallId := calls[i].id, toolName := calls[i].name);
        }
        if calls[i].arguments != "" {
          d := d.(arguments := calls[i].arguments);
        }
        chunks := chunks + [Chunk(messageId, model, Some(d), "", None, "")];
      }
      assert calls[..|calls|] == calls;
    }

    /** What a choice says besides tool calls and its finish. */
    method ReadSaid(c: Choice) returns (chunks: seq<Chunk>)
      ensures chunks == O.RoleChunks(Value(), c) + O.TextChunks(Value(), c) + O.ThinkingChunks(Value(), c)
    {
      chunks := [];
      if c.role != "" {
        chunks := chunks + [Chunk(messageId, model, None, "", None, c.role)];
      }
      if c.content.Some? && c.content.value != "" {
        chunks := chunks + [Chunk(messageId, model, Some(Delta(c.content.value, "", "", "", "")), "", None, "")];
      }
      if c.reasoning.Some? && c.reasoning.value != "" {
        chunks := chunks + [Chunk(messageId, model, Some(Delta("", c.reasoning.value, "", "", "")), "", None, "")];
      }
    }

    method ReadChoice(c: Choice) returns (chunks: seq<Chunk>)
      modifies this`finishReason
      ensures chunks == O.ChoiceChunks(old(Value()), c)
      ensures finishReason == if OrEmpty(c.finish) != "" then c.finish.value else old(finishReason)
    {
      var said := ReadSaid(c);
      var calls := ReadCalls(c.calls);
      chunks := said + calls;
      if c.finish.Some? && c.finish.value != "" {
        finishReason := c.finish.value;
        chunks := chunks + [Chunk(messageId, model, None, c.finish.value, None, "")];
      }
    }

    method ReadChoices(choices: seq<Choice>) returns (chunks: seq<Chunk>)
      modifies this`finishReason
      ensures chunks == O.AllChoiceChunks(old(Value()), choices)
      ensures finishReason == O.FinishAfter(choices, old(finishReason))
    {
      chunks := [];
      ghost var start, finish := Value(), finishReason;
      for i := 0 to |choices|
        invariant Value() == start.(finishReason := finishReason)
        invariant chunks == O.AllChoiceChunks(start, choices[..i])
        invariant finishReason == O.FinishAfter(choices[..i], finish)
      {
        ChoicesNext(start, choices, i, finish);
        ChunksIgnoreFinish(start, finishReason, choices[i]);
        var more := ReadChoice(choices[i]);
        chunks := chunks + more;
      }
      assert choices[..|choices|] == choices;
    }

    /** Reads one OpenAI chunk. */
    method ReadOpenAI(w: WireChunk) returns (chunks: seq<Chunk>)
      modifies this
      ensures Value() == O.AfterWire(old(Value()), w)
      ensures chunks == O.ChunksOf(old(Value()), w)
    {
      if messageId == "" {
        messageId, model := w.id, w.model;
      }
      ghost var named := Value();
      chunks := ReadChoices(w.choices);
      if w.usage.Some? {
        var u := O.ReadUsage(w.usage.value);
        usage := Some(u);
        chunks := chunks + [Chunk(messageId, model, None, "", Some(u), "")];
      }
    }
  }

  lemma ChoicesNext(s: State, choices: seq<Choice>, i: nat, finish: string)
    requires i < |choices|
    ensures O.AllChoiceChunks(s, choices[..i + 1]) == O.AllChoiceChunks(s, choices[..i]) + O.ChoiceChunks(s, choices[i])
    ensures O.FinishAfter(choices[..i + 1], finish)
         == var last := OrEmpty(choices[i].finish); if last != "" then last else O.FinishAfter(choices[..i], finish)
  {
    assert choices[..i + 1][..i] == choices[..i];
  }

  /** What the chunks of a choice are does not depend on the finish reason so far. */
  lemma ChunksIgnoreFinish(s: State, finish: string, c: Choice)
    ensures O.ChoiceChunks(s.(finishReason := finish), c) == O.ChoiceChunks(s, c)
  {
    CallsIgnoreFinish(s, finish, c.calls);
  }

  lemma {:induction false} CallsIgnoreFinish(s: State, finish: string, calls: seq<WireCall>)
    ensures O.CallChunks(s.(finishReason := finish), calls) == O.CallChunks(s, calls)
  {
    if calls != [] {
      CallsIgnoreFinish(s, finish, calls[..|calls| - 1]);
    }
  }

  // ----- The relay loop -----

  /** The usage of the last chunk that carries any. */
  function LastUsage(chunks: seq<Chunk>): Option<Usage> {
    if chunks == [] then None
    else
      var last := chunks[|chunks| - 1].usage;
      if last.Some? then last else LastUsage(chunks[..|chunks| - 1])
  }

  /** One more chunk of the stream to an OpenAI client. */
  lemma OpenAINext(chunks: seq<Chunk>, c: Chunk)
    ensures O.PrintedStream(chunks + [c]) == O.PrintedStream(chunks) + [O.PrintedChunk(c, O.CallCount(chunks))]
    ensures O.CallCount(chunks + [c]) == O.CallCount(chunks) + (if O.StartsCall(c) then 1 else 0)
    ensures LastUsage(chunks + [c]) == if c.usage.Some? then c.usage else LastUsage(chunks)
  {
    assert (chunks + [c])[..|chunks|] == chunks;
  }

  /** One more chunk of the stream to a Claude client. */
  lemma ClaudeNext(chunks: seq<Chunk>, c: Chunk)
    ensures C.PrintedStream(chunks + [c]) == C.PrintedStream(chunks) + C.PrintedEvents(C.PrintState(chunks), c)
    ensures C.PrintState(chunks + [c]) == C.AfterPrint(C.PrintState(chunks), c)
  {
    assert (chunks + [c])[..|chunks|] == chunks;
  }

  /** The first i chunks after those sent before have been sent as the wire chunks `out`. */
  ghost predicate SentToOpenAI(index: int, usage: Option<Usage>, sent: seq<Chunk>, chunks: seq<Chunk>, i: nat,
                               out: seq<WireChunk>)
  {
    && i <= |chunks|
    && index == O.CallCount(sent + chunks[..i])
    && usage == LastUsage(sent + chunks[..i])
    && O.PrintedStream(sent + chunks[..i]) == O.PrintedStream(sent) + out
  }

  lemma OpenAINextAt(index: int, usage: Option<Usage>, sent: seq<Chunk>, chunks: seq<Chunk>, i: nat,
                     out: seq<WireChunk>)
    requires i < |chunks| && SentToOpenAI(index, usage, sent, chunks, i, out)
    ensures SentToOpenAI(index + (if O.StartsCall(chunks[i]) then 1 else 0),
                         if chunks[i].usage.Some? then chunks[i].usage else usage,
                         sent, chunks, i + 1, out + [O.PrintedChunk(chunks[i], index)])
  {
    var soFar := sent + chunks[..i];
    OpenAINext(soFar, chunks[i]);
    assert sent + chunks[..i + 1] == soFar + [chunks[i]];
    Associative(O.PrintedStream(sent), out, [O.PrintedChunk(chunks[i], index)]);
  }

  /** Sends the chunks of one event to an OpenAI client. */
  method SendOpenAI(client: StreamState, ghost sent: seq<Chunk>, chunks: seq<Chunk>, total: Option<Usage>)
      returns (out: seq<WireChunk>, usage: Option<Usage>)
    requires client.blockIndex == O.CallCount(sent) && total == LastUsage(sent)
    modifies client
    ensures SentToOpenAI(client.blockIndex, usage, sent, chunks, |chunks|, out)
  {
    out, usage := [], total;
    assert SentToOpenAI(client.blockIndex, usage, sent, chunks, 0, out) by {
      assert sent + chunks[..0] == sent;
    }
    for i := 0 to |chunks|
      invariant SentToOpenAI(client.blockIndex, usage, sent, chunks, i, out)
    {
      OpenAINextAt(client.blockIndex, usage, sent, chunks, i, out);
      if chunks[i].usage.Some? {
        usage := chunks[i].usage;
      }
      var w := client.PrintOpenAI(chunks[i]);
      out := out + [w];
    }
  }

  lemma ClaudeReadNext(events: seq<ClaudeEvent>, i: nat)
    requires i < |events|
    ensures C.ReadState(events[..i + 1]) == C.AfterEvent(C.ReadState(events[..i]), events[i])
    ensures C.ReadChunks(events[..i + 1]) == C.ReadChunks(events[..i]) + C.ChunksOf(C.ReadState(events[..i]), events[i])
  {
    assert events[..i + 1][..i] == events[..i];
  }

  /** The events before i have been relayed as the wire chunks `out`. */
  ghost predicate RelayedClaude(state: State, index: int, usage: Option<Usage>, events: seq<ClaudeEvent>, i: nat,
                                out: seq<WireChunk>)
  {
    && i <= |events|
    && state == C.ReadState(events[..i])
    && index == O.CallCount(C.ReadChunks(events[..i]))
    && usage == LastUsage(C.ReadChunks(events[..i]))
    && out == O.PrintedStream(C.ReadChunks(events[..i]))
  }

  /** Relays one event; one that fails is skipped. */
  method RelayOne(upstream: StreamState, client: StreamState, events: seq<ClaudeEvent>, i: nat, out: seq<WireChunk>,
                  total: Option<Usage>)
      returns (more: seq<WireChunk>, usage: Option<Usage>)
    requires i < |events| && upstream != client
    requires RelayedClaude(upstream.Value(), client.blockIndex, total, events, i, out)
    modifies upstream, client
    ensures RelayedClaude(upstream.Value(), client.blockIndex, usage, events, i + 1, more)
  {
    ghost var sent := C.ReadChunks(events[..i]);
    ClaudeReadNext(events, i);
    var chunks, failed := upstream.ReadClaude(events[i]);
    if failed {
      assert sent + chunks == sent;
      return out, total;
    }
    more, usage := SendOpenAI(client, sent, chunks, total);
    assert chunks[..|chunks|] == chunks;
    more := out + more;
  }

  /** Relays a Claude stream to an OpenAI client. */
  method RelayClaude(events: seq<ClaudeEvent>) returns (out: seq<WireChunk>, usage: Option<Usage>)
    ensures out == O.PrintedStream(C.ReadChunks(events))
    ensures usage == LastUsage(C.ReadChunks(events))
  {
    var upstream := new StreamState();
    var client := new StreamState();
    out, usage := [], None;
    for i := 0 to |events|
      invariant fresh(upstream) && fresh(client) && upstream != client
      invariant RelayedClaude(upstream.Value(), client.blockIndex, usage, events, i, out)
    {
      out, usage := RelayOne(upstream, client, events, i, out, usage);
    }
    assert events[..|events|] == events;
  }

  /** The first i chunks after those sent before have been sent as the events `out`. */
  ghost predicate SentToClaude(client: StreamState, sent: seq<Chunk>, chunks: seq<Chunk>, i: nat, out: seq<ClaudeEvent>)
    reads client
  {
    && i <= |chunks|
    && client.Value() == C.PrintState(sent + chunks[..i])
    && C.PrintedStream(sent + chunks[..i]) == C.PrintedStream(sent) + out
  }

  lemma OneFurther(sent: seq<Chunk>, chunks: seq<Chunk>, i: nat)
    requires i < |chunks|
    ensures sent + chunks[..i + 1] == (sent + chunks[..i]) + [chunks[i]]
  {
  }

  lemma ClaudeStateAt(sent: seq<Chunk>, chunks: seq<Chunk>, i: nat)
    requires i < |chunks|
    ensures C.PrintState(sent + chunks[..i + 1]) == C.AfterPrint(C.PrintState(sent + chunks[..i]), chunks[i])
    ensures C.PrintedStream(sent + chunks[..i + 1])
         == C.PrintedStream(sent + chunks[..i]) + C.PrintedEvents(C.PrintState(sent + chunks[..i]), chunks[i])
  {
    OneFurther(sent, chunks, i);
    ClaudeNext(sent + chunks[..i], chunks[i]);
  }

  lemma ClaudeNextAt(sent: seq<Chunk>, chunks: seq<Chunk>, i: nat, out: seq<ClaudeEvent>, s: State,
                     events: seq<ClaudeEvent>)
    requires i < |chunks| && s == C.PrintState(sent + chunks[..i])
    requires C.PrintedStream(sent + chunks[..i]) == C.PrintedStream(sent) + out
    requires events == C.PrintedEvents(s, chunks[i])
    ensures C.PrintState(sent + chunks[..i + 1]) == C.AfterPrint(s, chunks[i])
    ensures C.PrintedStream(sent + chunks[..i + 1]) == C.PrintedStream(sent) + (out + events)
  {
    ClaudeStateAt(sent, chunks, i);
    Associative(C.PrintedStream(sent), out, events);
  }

  method SendOneToClaude(client: StreamState, ghost sent: seq<Chunk>, chunks: seq<Chunk>, i: nat,
                         out: seq<ClaudeEvent>)
      returns (more: seq<ClaudeEvent>)
    requires i < |chunks| && SentToClaude(client, sent, chunks, i, out)
    modifies client
    ensures SentToClaude(client, sent, chunks, i + 1, more)
  {
    ghost var before := client.Value();
    var events := client.PrintClaude(chunks[i]);
    ClaudeNextAt(sent, chunks, i, out, before, events);
    more := out + events;
  }

  /** Sends the chunks of one wire chunk to a Claude client. */
  method SendClaude(client: StreamState, ghost sent: seq<Chunk>, chunks: seq<Chunk>) returns (out: seq<ClaudeEvent>)
    requires client.Value() == C.PrintState(sent)
    modifies client
    ensures SentToClaude(client, sent, chunks, |chunks|, out)
  {
    out := [];
    assert SentToClaude(client, sent, chunks, 0, out) by {
      assert sent + chunks[..0] == sent;
    }
    for i := 0 to |chunks|
      invariant SentToClaude(client, sent, chunks, i, out)
    {
      out := SendOneToClaude(client, sent, chunks, i, out);
    }
  }

  /** Relays an OpenAI stream to a Claude client. */
  method RelayOpenAI(wires: seq<WireChunk>) returns (out: seq<ClaudeEvent>)
    ensures out == C.PrintedStream(O.ReadChunks(wires))
  {
    var upstream := new StreamState();
    var client := new StreamState();
    out := [];
    for i := 0 to |wires|
      invariant fresh(upstream) && fresh(client) && upstream != client
      invariant upstream.Value() == O.ReadState(wires[..i])
      invariant client.Value() == C.PrintState(O.ReadChunks(wires[..i]))
      invariant out == C.PrintedStream(O.ReadChunks(wires[..i]))
    {
      assert wires[..i + 1][..i] == wires[..i];
      ghost var sent := O.ReadChunks(wires[..i]);
      var chunks := upstream.ReadOpenAI(wires[i]);
      var more := SendClaude(client, sent, chunks);
      assert chunks[..|chunks|] == chunks;
      out := out + more;
    }
    assert wires[..|wires|] == wires;
  }
}
