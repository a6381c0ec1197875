/** The shape of a translated stream: the id, the model and the role its chunks carry, the indexes its
    calls and blocks are given, and the blocks its parts come in. */
module StreamShape {
  import opened Options
  import opened Flattening
  import opened Streams
  import opened StreamMeaning
  import C = ClaudeStream
  import O = OpenAIStream

  // ----- Names and roles, towards an OpenAI client -----

  /** The stream is one message: it starts with its name and no other message starts. */
  ghost predicate IsOneMessage(events: seq<ClaudeEvent>) {
    events != [] && events[0].MessageStart? && forall i :: 0 < i < |events| ==> !events[i].MessageStart?
  }

  lemma EventNames(s: State, e: ClaudeEvent)
    requires !e.MessageStart?
    ensures C.AfterEvent(s, e).messageId == s.messageId && C.AfterEvent(s, e).model == s.model
    ensures forall c :: c in C.ChunksOf(s, e) ==> c.id == s.messageId && c.model == s.model && c.role == ""
  {
  }

  lemma {:induction false} ReadNames(events: seq<ClaudeEvent>)
    requires IsOneMessage(events)
    ensures var s, start := C.ReadState(events), events[0];
      && s.messageId == start.id && s.model == start.model
      && C.ReadChunks(events) != []
      && C.ReadChunks(events)[0] == Chunk(start.id, start.model, None, "", None, "assistant")
      && forall i :: 0 <= i < |C.ReadChunks(events)| ==>
           var c := C.ReadChunks(events)[i];
           c.id == start.id && c.model == start.model && (i > 0 ==> c.role == "")
  {
    var init, e := events[..|events| - 1], events[|events| - 1];
    if init != [] {
      assert IsOneMessage(init) && !e.MessageStart?;
      ReadNames(init);
      EventNames(C.ReadState(init), e);
    } else {
      assert C.ReadChunks(init) == [];
    }
  }

  lemma {:induction false} PrintedEach(chunks: seq<Chunk>)
    ensures |O.PrintedStream(chunks)| == |chunks|
    ensures forall i :: 0 <= i < |chunks| ==>
      O.PrintedStream(chunks)[i] == O.PrintedChunk(chunks[i], O.CallCount(chunks[..i]))
  {
    if chunks != [] {
      var n := |chunks| - 1;
      var init, last := chunks[..n], chunks[n];
      PrintedEach(init);
      PrintedLast(init, last);
      assert chunks == init + [last];
      assert forall i :: 0 <= i < n ==> init[..i] == chunks[..i];
    }
  }

  /** Of a Claude stream that is one message, every chunk an OpenAI client gets carries the id and the
      model of the message and one choice, and the first one alone names the role. */
  lemma {:induction false} ChunksAreNamed(events: seq<ClaudeEvent>)
    requires IsOneMessage(events)
    ensures var wires := ClaudeAsOpenAI(events);
      && wires != [] && wires[0].choices == [Choice("assistant", None, None, [], None)]
      && forall i :: 0 <= i < |wires| ==>
           && wires[i].id == events[0].id && wires[i].model == events[0].model && |wires[i].choices| == 1
           && (i > 0 ==> wires[i].choices[0].role == "")
  {
    ReadNames(events);
    PrintedEach(C.ReadChunks(events));
  }

  // ----- Call indexes, towards an OpenAI client -----

  function StartIndexes(w: WireChunk): seq<int> {
    FlatMap(ChoiceStartIndexes, w.choices)
  }

  function ChoiceStartIndexes(c: Choice): seq<int> {
    FlatMap(StartIndex, c.calls)
  }

  function StartIndex(call: WireCall): seq<int> {
    if call.id != "" then [call.index] else []
  }

  function UpTo(n: nat): seq<int> {
    seq(n, i => i)
  }

  lemma PrintedStartIndexes(c: Chunk, index: int)
    ensures StartIndexes(O.PrintedChunk(c, index)) == if O.StartsCall(c) then [index] else []
  {
    var choice := O.PrintedChoice(c, index);
    FlatMapOne(ChoiceStartIndexes, choice);
    if choice.calls != [] {
      assert choice.calls == [choice.calls[0]];
      FlatMapOne(StartIndex, choice.calls[0]);
    }
  }

  /** The calls that start are numbered from 0 in order, whatever the stream. */
  lemma {:induction false} StartsAreNumbered(chunks: seq<Chunk>)
    ensures FlatMap(StartIndexes, O.PrintedStream(chunks)) == UpTo(O.CallCount(chunks))
  {
    if chunks != [] {
      var init, c := chunks[..|chunks| - 1], chunks[|chunks| - 1];
      StartsAreNumbered(init);
      var last := O.PrintedChunk(c, O.CallCount(init));
      FlatMapAppend(StartIndexes, O.PrintedStream(init), [last]);
      FlatMapOne(StartIndexes, last);
      PrintedStartIndexes(c, O.CallCount(init));
    }
  }

  /** A call that starts comes as a function with its id, its name and the next number. */
  lemma StartsAreFunctions(chunks: seq<Chunk>, i: nat)
    requires i < |chunks| && O.StartsCall(chunks[i])
    ensures |O.PrintedStream(chunks)| == |chunks|
    ensures var w, d := O.PrintedStream(chunks)[i], chunks[i].delta.value;
      |w.choices| == 1 && w.choices[0].calls
        == [WireCall(O.CallCount(chunks[..i]), d.toolCallId, "function", d.toolName, d.arguments)]
  {
    PrintedEach(chunks);
  }

  /** Arguments on their own are numbered after the calls started before them, so they carry the index
      of the call that comes next, not of their own. */
  lemma FragmentsAreNumberedAhead(chunks: seq<Chunk>, i: nat)
    requires i < |chunks| && chunks[i].delta.Some? && chunks[i].delta.value.toolCallId == ""
    requires chunks[i].delta.value.arguments != ""
    ensures |O.PrintedStream(chunks)| == |chunks|
    ensures var w := O.PrintedStream(chunks)[i];
      |w.choices| == 1 && w.choices[0].calls
        == [WireCall(O.CallCount(chunks[..i]), "", "", "", chunks[i].delta.value.arguments)]
  {
    PrintedEach(chunks);
  }

  // ----- Names and roles, towards a Claude client -----

  /** Every message start among the events carries this name. */
  ghost predicate StartsAreNamed(events: seq<ClaudeEvent>, id: string, model: string) {
    forall i :: 0 <= i < |events| && events[i].MessageStart? ==> events[i].id == id && events[i].model == model
  }

  ghost predicate ChunksNamed(chunks: seq<Chunk>, id: string, model: string) {
    forall c :: c in chunks ==> c.id == id && c.model == model
  }

  lemma {:induction false} CallChunksNamed(s: State, calls: seq<WireCall>)
    ensures ChunksNamed(O.CallChunks(s, calls), s.messageId, s.model)
  {
    if calls != [] {
      CallChunksNamed(s, calls[..|calls| - 1]);
    }
  }

  lemma ChoiceChunksNamed(s: State, c: Choice)
    ensures ChunksNamed(O.ChoiceChunks(s, c), s.messageId, s.model)
  {
    CallChunksNamed(s, c.calls);
  }

  lemma {:induction false} AllChoiceChunksNamed(s: State, choices: seq<Choice>)
    ensures ChunksNamed(O.AllChoiceChunks(s, choices), s.messageId, s.model)
  {
    if choices != [] {
      AllChoiceChunksNamed(s, choices[..|choices| - 1]);
      ChoiceChunksNamed(s, choices[|choices| - 1]);
    }
  }

  lemma {:induction false} OpenAIReadNames(wires: seq<WireChunk>)
    requires wires != [] && wires[0].id != ""
    ensures O.ReadState(wires).messageId == wires[0].id && O.ReadState(wires).model == wires[0].model
    ensures ChunksNamed(O.ReadChunks(wires), wires[0].id, wires[0].model)
  {
    var init, w := wires[..|wires| - 1], wires[|wires| - 1];
    if init != [] {
      OpenAIReadNames(init);
    } else {
      assert O.ReadState(init) == NEW_STATE && O.ReadChunks(init) == [];
    }
    AllChoiceChunksNamed(O.Named(O.ReadState(init), w), w.choices);
  }

  lemma {:induction false} PrintedNames(chunks: seq<Chunk>, id: string, model: string)
    requires ChunksNamed(chunks, id, model)
    ensures StartsAreNamed(C.PrintedStream(chunks), id, model)
  {
    if chunks != [] {
      var init, c := chunks[..|chunks| - 1], chunks[|chunks| - 1];
      PrintedNames(init, id, model);
      assert c in chunks && c.id == id && c.model == model;
      assert StartsAreNamed(C.PrintedEvents(C.PrintState(init), c), id, model);
    }
  }

  /** Of an OpenAI stream whose first chunk has an id, every message start a Claude client gets carries
      that id and that model. */
  lemma MessagesAreNamed(wires: seq<WireChunk>)
    requires wires != [] && wires[0].id != ""
    ensures StartsAreNamed(OpenAIAsClaude(wires), wires[0].id, wires[0].model)
  {
    OpenAIReadNames(wires);
    PrintedNames(O.ReadChunks(wires), wires[0].id, wires[0].model);
  }

  // ----- Blocks, towards a Claude client -----

  /** The last block opened, as its index and its kind. */
  function LastBlock(events: seq<ClaudeEvent>): Option<(int, BlockKind)> {
    if events == [] then None
    else
      var e := events[|events| - 1];
      if e.BlockStart? then Some((e.index, e.kind)) else LastBlock(events[..|events| - 1])
  }

  function LastIndex(events: seq<ClaudeEvent>): int {
    if LastBlock(events).Some? then LastBlock(events).value.0 else 0
  }

  /** Every part and every stop carries the index of the block opened last. */
  ghost predicate PartsInLastBlock(events: seq<ClaudeEvent>) {
    forall i :: 0 <= i < |events| && (events[i].BlockPart? || events[i].BlockStop?) ==>
                events[i].index == LastIndex(events[..i])
  }

  /** Blocks are opened at the index of the last one, or one further. */
  ghost predicate BlocksInOrder(events: seq<ClaudeEvent>) {
    forall i :: 0 <= i < |events| && events[i].BlockStart? ==>
                LastIndex(events[..i]) <= events[i].index <= LastIndex(events[..i]) + 1
  }

  ghost predicate IsShaped(events: seq<ClaudeEvent>) {
    PartsInLastBlock(events) && BlocksInOrder(events)
  }

  lemma ShapedNext(events: seq<ClaudeEvent>, e: ClaudeEvent)
    requires IsShaped(events)
    requires e.BlockPart? || e.BlockStop? ==> e.index == LastIndex(events)
    requires e.BlockStart? ==> LastIndex(events) <= e.index <= LastIndex(events) + 1
    ensures IsShaped(events + [e])
    ensures LastBlock(events + [e]) == if e.BlockStart? then Some((e.index, e.kind)) else LastBlock(events)
  {
    var more := events + [e];
    assert more[..|events|] == events;
    forall i | 0 <= i < |more|
      ensures more[i].BlockPart? || more[i].BlockStop? ==> more[i].index == LastIndex(more[..i])
      ensures more[i].BlockStart? ==> LastIndex(more[..i]) <= more[i].index <= LastIndex(more[..i]) + 1
    {
      assert i < |events| ==> more[..i] == events[..i] && more[i] == events[i];
    }
  }

  /** The events so far are shaped and the state knows the block opened last. */
  ghost predicate Follows(events: seq<ClaudeEvent>, s: State) {
    IsShaped(events) && LastIndex(events) == s.blockIndex
  }

  lemma ShapedTwo(events: seq<ClaudeEvent>, a: ClaudeEvent, b: ClaudeEvent)
    requires IsShaped(events) && a.BlockStop? && a.index == LastIndex(events)
    requires b.BlockStart? ==> LastIndex(events) <= b.index <= LastIndex(events) + 1
    requires b.BlockPart? || b.BlockStop? ==> b.index == LastIndex(events)
    ensures IsShaped(events + [a, b])
    ensures LastIndex(events + [a, b]) == if b.BlockStart? then b.index else LastIndex(events)
  {
    ShapedNext(events, a);
    ShapedNext(events + [a], b);
    assert events + [a] + [b] == events + [a, b];
  }

  lemma Opened(events: seq<ClaudeEvent>, start: ClaudeEvent, part: ClaudeEvent)
    requires IsShaped(events) && start.BlockStart? && part.BlockPart? && part.index == start.index
    requires LastIndex(events) <= start.index <= LastIndex(events) + 1
    ensures IsShaped(events + [start, part]) && LastIndex(events + [start, part]) == start.index
  {
    ShapedNext(events, start);
    ShapedNext(events + [start], part);
    assert events + [start] + [part] == events + [start, part];
  }

  lemma ThinkingFollows(events: seq<ClaudeEvent>, s: State, text: string)
    requires Follows(events, s)
    ensures Follows(events + C.PrintedThinking(s, text), s)
  {
    var part := BlockPart(s.blockIndex, ThinkingDelta(text));
    if s.thinking {
      ShapedNext(events, part);
      assert C.PrintedThinking(s, text) == [part];
    } else {
      var start := BlockStart(s.blockIndex, ThinkingKind, "", "");
      Opened(events, start, part);
      assert C.PrintedThinking(s, text) == [start, part];
    }
  }

  lemma TextFollows(events: seq<ClaudeEvent>, s: State, text: string)
    requires Follows(events, s)
    ensures IsShaped(events + C.PrintedText(s, text))
    ensures LastIndex(events + C.PrintedText(s, text)) == if s.thinking then s.blockIndex + 1 else s.blockIndex
  {
    var at := if s.thinking then s.blockIndex + 1 else s.blockIndex;
    var start, part := BlockStart(at, TextKind, "", ""), BlockPart(at, TextDelta(text));
    if s.thinking {
      var stop := BlockStop(s.blockIndex);
      ShapedNext(events, stop);
      Opened(events + [stop], start, part);
      assert events + [stop] + [start, part] == events + [stop, start, part];
      assert C.PrintedText(s, text) == [stop, start, part];
    } else if s.active == InText {
      ShapedNext(events, part);
      assert C.PrintedText(s, text) == [part];
    } else {
      Opened(events, start, part);
      assert C.PrintedText(s, text) == [start, part];
    }
  }

  lemma CallFollows(events: seq<ClaudeEvent>, s: State, id: string, name: string)
    requires Follows(events, s)
    ensures IsShaped(events + C.PrintedCall(s, id, name))
    ensures LastIndex(events + C.PrintedCall(s, id, name)) == if s.active == NoBlock then s.blockIndex else s.blockIndex + 1
  {
    if s.active == NoBlock {
      var start := BlockStart(s.blockIndex, ToolUseKind, id, name);
      ShapedNext(events, start);
      assert C.PrintedCall(s, id, name) == [start];
    } else {
      var stop, start := BlockStop(s.blockIndex), BlockStart(s.blockIndex + 1, ToolUseKind, id, name);
      ShapedTwo(events, stop, start);
      assert C.PrintedCall(s, id, name) == [stop, start];
    }
  }

  lemma FinishFollows(events: seq<ClaudeEvent>, s: State, c: Chunk)
    requires Follows(events, s)
    ensures Follows(events + C.PrintedFinish(s, c), s)
  {
    var all := C.PrintedFinish(s, c);
    var n := |all| - 2;
    assert n == 0 || all[..n] == [BlockStop(s.blockIndex)];
    if n == 1 {
      ShapedNext(events, BlockStop(s.blockIndex));
    }
    assert n == 0 ==> events + all[..n] == events;
    ShapedNext(events + all[..n], all[n]);
    ShapedNext(events + all[..n] + [all[n]], all[n + 1]);
    assert events + all[..n] + [all[n]] + [all[n + 1]] == events + all;
  }

  lemma PrintedFollows(events: seq<ClaudeEvent>, s: State, c: Chunk)
    requires Follows(events, s)
    ensures Follows(events + C.PrintedEvents(s, c), C.AfterPrint(s, c))
  {
    var d := if c.delta.Some? then c.delta.value else Delta("", "", "", "", "");
    if c.role != "" {
      ShapedNext(events, C.PrintedEvents(s, c)[0]);
    } else if d.thinking != "" {
      ThinkingFollows(events, s, d.thinking);
    } else if d.text != "" {
      TextFollows(events, s, d.text);
    } else if d.toolCallId != "" {
      CallFollows(events, s, d.toolCallId, d.toolName);
    } else if d.arguments != "" {
      ShapedNext(events, C.PrintedEvents(s, c)[0]);
    } else if c.finishReason != "" {
      FinishFollows(events, s, c);
    } else {
      assert events + [] == events;
    }
  }

  /** Of every OpenAI stream, the blocks a Claude client gets are numbered in order, and every part
      and every stop belongs to the block opened last. */
  lemma {:induction false} StreamIsShaped(chunks: seq<Chunk>)
    ensures Follows(C.PrintedStream(chunks), C.PrintState(chunks))
  {
    if chunks != [] {
      var init, c := chunks[..|chunks| - 1], chunks[|chunks| - 1];
      StreamIsShaped(init);
      PrintedFollows(C.PrintedStream(init), C.PrintState(init), c);
    }
  }

  predicate IsOfKind(d: BlockDelta, kind: BlockKind) {
    match d
    case TextDelta(_) => kind == TextKind
    case ThinkingDelta(_) => kind == ThinkingKind
    case JsonDelta(_) => kind == ToolUseKind
    case OtherDelta => false
  }

  /** Every part comes in a block of its kind. */
  ghost predicate PartsOfKind(events: seq<ClaudeEvent>) {
    forall i :: 0 <= i < |events| && events[i].BlockPart? ==>
      LastBlock(events[..i]).Some? && IsOfKind(events[i].delta, LastBlock(events[..i]).value.1)
  }

  predicate ConcernsCall(c: Chunk) {
    c.delta.Some? && (c.delta.value.toolCallId != "" || c.delta.value.arguments != "")
  }

  ghost predicate KnowsKind(events: seq<ClaudeEvent>, s: State) {
    && PartsOfKind(events)
    && (s.thinking ==> LastBlock(events).Some? && LastBlock(events).value.1 == ThinkingKind)
    && (!s.thinking && s.active == InText ==> LastBlock(events).Some? && LastBlock(events).value.1 == TextKind)
  }

  lemma KindNext(events: seq<ClaudeEvent>, e: ClaudeEvent)
    requires PartsOfKind(events)
    requires e.BlockPart? ==> LastBlock(events).Some? && IsOfKind(e.delta, LastBlock(events).value.1)
    ensures PartsOfKind(events + [e])
    ensures LastBlock(events + [e]) == if e.BlockStart? then Some((e.index, e.kind)) else LastBlock(events)
  {
    var more := events + [e];
    assert more[..|events|] == events;
    forall i | 0 <= i < |more| && more[i].BlockPart?
      ensures LastBlock(more[..i]).Some? && IsOfKind(more[i].delta, LastBlock(more[..i]).value.1)
    {
      assert i < |events| ==> more[..i] == events[..i] && more[i] == events[i];
    }
  }

  lemma KindOpened(events: seq<ClaudeEvent>, start: ClaudeEvent, part: ClaudeEvent)
    requires PartsOfKind(events) && start.BlockStart? && part.BlockPart? && IsOfKind(part.delta, start.kind)
    ensures PartsOfKind(events + [start, part]) && LastBlock(events + [start, part]) == Some((start.index, start.kind))
  {
    KindNext(events, start);
    KindNext(events + [start], part);
    assert events + [start] + [part] == events + [start, part];
  }

  lemma ThinkingKnows(events: seq<ClaudeEvent>, s: State, text: string)
    requires KnowsKind(events, s)
    ensures KnowsKind(events + C.PrintedThinking(s, text), s.(thinking := true))
  {
    var part := BlockPart(s.blockIndex, ThinkingDelta(text));
    if s.thinking {
      KindNext(events, part);
      assert C.PrintedThinking(s, text) == [part];
    } else {
      var start := BlockStart(s.blockIndex, ThinkingKind, "", "");
      KindOpened(events, start, part);
      assert C.PrintedThinking(s, text) == [start, part];
    }
  }

  lemma TextKnows(events: seq<ClaudeEvent>, s: State, text: string)
    requires KnowsKind(events, s)
    ensures var more := events + C.PrintedText(s, text);
      PartsOfKind(more) && LastBlock(more).Some? && LastBlock(more).value.1 == TextKind
  {
    var at := if s.thinking then s.blockIndex + 1 else s.blockIndex;
    var start, part := BlockStart(at, TextKind, "", ""), BlockPart(at, TextDelta(text));
    if s.thinking {
      var stop := BlockStop(s.blockIndex);
      KindNext(events, stop);
      KindOpened(events + [stop], start, part);
      assert events + [stop] + [start, part] == events + [stop, start, part];
      assert C.PrintedText(s, text) == [stop, start, part];
    } else if s.active == InText {
      KindNext(events, part);
      assert C.PrintedText(s, text) == [part];
    } else {
      KindOpened(events, start, part);
      assert C.PrintedText(s, text) == [start, part];
    }
  }

  /** Events that neither open a block nor belong to one. */
  lemma {:induction false} OthersKnow(events: seq<ClaudeEvent>, more: seq<ClaudeEvent>, s: State)
    requires KnowsKind(events, s) && forall i :: 0 <= i < |more| ==> !more[i].BlockStart? && !more[i].BlockPart?
    ensures KnowsKind(events + more, s)
    decreases |more|
  {
    if more == [] {
      assert events + more == events;
    } else {
      KindNext(events, more[0]);
      OthersKnow(events + [more[0]], more[1..], s);
      assert events + [more[0]] + more[1..] == events + more;
    }
  }

  lemma PrintedKnows(events: seq<ClaudeEvent>, s: State, c: Chunk)
    requires KnowsKind(events, s) && !ConcernsCall(c)
    ensures KnowsKind(events + C.PrintedEvents(s, c), C.AfterPrint(s, c))
  {
    var d := if c.delta.Some? then c.delta.value else Delta("", "", "", "", "");
    if c.role == "" && d.thinking != "" {
      ThinkingKnows(events, s, d.thinking);
    } else if c.role == "" && d.text != "" {
      TextKnows(events, s, d.text);
    } else {
      OthersKnow(events, C.PrintedEvents(s, c), s);
    }
  }

  /** Until a tool call comes in, every text part is in a text block and every thinking part in a
      thinking block. */
  lemma {:induction false} PartsMatchBlocks(chunks: seq<Chunk>)
    requires forall c :: c in chunks ==> !ConcernsCall(c)
    ensures KnowsKind(C.PrintedStream(chunks), C.PrintState(chunks))
  {
    if chunks != [] {
      var init, c := chunks[..|chunks| - 1], chunks[|chunks| - 1];
      PartsMatchBlocks(init);
      PrintedKnows(C.PrintedStream(init), C.PrintState(init), c);
    }
  }
}
