/** What a stream still says after it was translated. */
module StreamMeaning {
  import opened Options
  import opened Flattening
  import opened Streams
  import C = ClaudeStream
  import O = OpenAIStream

  // ----- Claude upstream, OpenAI client -----

  predicate EndsServerTool(e: ClaudeEvent) {
    e.BlockStop? || (e.BlockStart? && (e.kind == TextKind || e.kind == ThinkingKind || e.kind == ToolUseKind))
  }

  /** A server tool's block has started and nothing has ended it. */
  ghost predicate InsideServerTool(events: seq<ClaudeEvent>) {
    exists j :: 0 <= j < |events| && events[j].BlockStart? && events[j].kind == ServerToolKind
      && forall k :: j < k < |events| ==> !EndsServerTool(events[k])
  }

  lemma InsideGoesOn(events: seq<ClaudeEvent>, e: ClaudeEvent)
    ensures InsideServerTool(events + [e]) <==>
      (e.BlockStart? && e.kind == ServerToolKind) || (InsideServerTool(events) && !EndsServerTool(e))
  {
    var more := events + [e];
    assert more[|events|] == e;
    assert forall j :: 0 <= j < |events| ==> more[j] == events[j];
    if InsideServerTool(events) && !EndsServerTool(e) {
      var j :| 0 <= j < |events| && events[j].BlockStart? && events[j].kind == ServerToolKind
        && forall k :: j < k < |events| ==> !EndsServerTool(events[k]);
      assert more[j].BlockStart? && more[j].kind == ServerToolKind;
    }
    if InsideServerTool(more) && !(e.BlockStart? && e.kind == ServerToolKind) {
      var j :| 0 <= j < |more| && more[j].BlockStart? && more[j].kind == ServerToolKind
        && forall k :: j < k < |more| ==> !EndsServerTool(more[k]);
      assert j < |events| && events[j] == more[j];
    }
  }

  /** The reader skips exactly what is inside a server tool's block. */
  lemma {:induction false} ActiveIsInside(events: seq<ClaudeEvent>)
    ensures C.ReadState(events).active == InServerTool <==> InsideServerTool(events)
  {
    if events != [] {
      var init, e := events[..|events| - 1], events[|events| - 1];
      ActiveIsInside(init);
      InsideGoesOn(init, e);
      assert events == init + [e];
    }
  }

  /** What the events say, leaving out the inside of server tools' blocks. */
  ghost function Heard<T>(say: ClaudeEvent -> seq<T>, events: seq<ClaudeEvent>): seq<T> {
    if events == [] then []
    else
      var init, e := events[..|events| - 1], events[|events| - 1];
      Heard(say, init) + (if InsideServerTool(init) && e.BlockPart? then [] else say(e))
  }

  lemma {:induction false} ReadSays<T>(of: Chunk -> seq<T>, say: ClaudeEvent -> seq<T>, events: seq<ClaudeEvent>)
    requires forall s: State, e: ClaudeEvent ::
      FlatMap(of, C.ChunksOf(s, e)) == if s.active == InServerTool && e.BlockPart? then [] else say(e)
    ensures FlatMap(of, C.ReadChunks(events)) == Heard(say, events)
  {
    if events != [] {
      var init, e := events[..|events| - 1], events[|events| - 1];
      ReadSays(of, say, init);
      ActiveIsInside(init);
      FlatMapAppend(of, C.ReadChunks(init), C.ChunksOf(C.ReadState(init), e));
    }
  }

  lemma ChunkSays(s: State, e: ClaudeEvent)
    ensures FlatMap(TextOf, C.ChunksOf(s, e)) == if s.active == InServerTool && e.BlockPart? then [] else EventText(e)
    ensures FlatMap(ThinkingOf, C.ChunksOf(s, e))
         == if s.active == InServerTool && e.BlockPart? then [] else EventThinking(e)
    ensures FlatMap(PiecesOf, C.ChunksOf(s, e))
         == if s.active == InServerTool && e.BlockPart? then [] else EventPieces(e)
  {
    var chunks := C.ChunksOf(s, e);
    if chunks != [] {
      assert chunks == [chunks[0]];
      FlatMapOne(TextOf, chunks[0]);
      FlatMapOne(ThinkingOf, chunks[0]);
      FlatMapOne(PiecesOf, chunks[0]);
    }
  }

  lemma {:induction false} PrintSays<T>(wire: WireChunk -> seq<T>, of: Chunk -> seq<T>, chunks: seq<Chunk>)
    requires forall c: Chunk, i: int :: wire(O.PrintedChunk(c, i)) == of(c)
    ensures FlatMap(wire, O.PrintedStream(chunks)) == FlatMap(of, chunks)
  {
    if chunks != [] {
      var init, c := chunks[..|chunks| - 1], chunks[|chunks| - 1];
      PrintSays(wire, of, init);
      var last := O.PrintedChunk(c, O.CallCount(init));
      FlatMapAppend(wire, O.PrintedStream(init), [last]);
      FlatMapOne(wire, last);
    }
  }

  function WireText(w: WireChunk): string {
    FlatMap(ChoiceText, w.choices)
  }

  function WireThinking(w: WireChunk): string {
    FlatMap(ChoiceThinking, w.choices)
  }

  function ChoicePieces(c: Choice): seq<Piece> {
    FlatMap(CallPieces, c.calls)
  }

  function WirePieces(w: WireChunk): seq<Piece> {
    FlatMap(ChoicePieces, w.choices)
  }

  lemma PrintedChunkSays(c: Chunk, i: int)
    ensures WireText(O.PrintedChunk(c, i)) == TextOf(c)
    ensures WireThinking(O.PrintedChunk(c, i)) == ThinkingOf(c)
    ensures WirePieces(O.PrintedChunk(c, i)) == PiecesOf(c)
  {
    var choice := O.PrintedChoice(c, i);
    FlatMapOne(ChoiceText, choice);
    FlatMapOne(ChoiceThinking, choice);
    FlatMapOne(ChoicePieces, choice);
    if choice.calls != [] {
      assert choice.calls == [choice.calls[0]];
      FlatMapOne(CallPieces, choice.calls[0]);
    }
  }

  function ClaudeAsOpenAI(events: seq<ClaudeEvent>): seq<WireChunk> {
    O.PrintedStream(C.ReadChunks(events))
  }

  /** Of every Claude stream, an OpenAI client gets all the text and all the thinking outside
      server tools' blocks, and every tool start and argument fragment in order. */
  lemma {:induction false} ClaudeStreamIsHeard(events: seq<ClaudeEvent>)
    ensures FlatMap(WireText, ClaudeAsOpenAI(events)) == Heard(EventText, events)
    ensures FlatMap(WireThinking, ClaudeAsOpenAI(events)) == Heard(EventThinking, events)
    ensures FlatMap(WirePieces, ClaudeAsOpenAI(events)) == Heard(EventPieces, events)
  {
    forall s: State, e: ClaudeEvent
      ensures FlatMap(TextOf, C.ChunksOf(s, e)) == if s.active == InServerTool && e.BlockPart? then [] else EventText(e)
      ensures FlatMap(ThinkingOf, C.ChunksOf(s, e))
           == if s.active == InServerTool && e.BlockPart? then [] else EventThinking(e)
      ensures FlatMap(PiecesOf, C.ChunksOf(s, e))
           == if s.active == InServerTool && e.BlockPart? then [] else EventPieces(e)
    {
      ChunkSays(s, e);
    }
    forall c: Chunk, i: int
      ensures WireText(O.PrintedChunk(c, i)) == TextOf(c)
      ensures WireThinking(O.PrintedChunk(c, i)) == ThinkingOf(c)
      ensures WirePieces(O.PrintedChunk(c, i)) == PiecesOf(c)
    {
      PrintedChunkSays(c, i);
    }
    var chunks := C.ReadChunks(events);
    ReadSays(TextOf, EventText, events);
    ReadSays(ThinkingOf, EventThinking, events);
    ReadSays(PiecesOf, EventPieces, events);
    PrintSays(WireText, TextOf, chunks);
    PrintSays(WireThinking, ThinkingOf, chunks);
    PrintSays(WirePieces, PiecesOf, chunks);
  }

  // ----- Usage -----

  /** The prompt tokens of the last message start that states usage. */
  function LastInput(events: seq<ClaudeEvent>): int {
    if events == [] then 0
    else
      var e := events[|events| - 1];
      if e.MessageStart? && e.startUsage.Some? then e.startUsage.value.input
      else LastInput(events[..|events| - 1])
  }

  /** The tokens of the last message delta that states usage. */
  function LastOutput(events: seq<ClaudeEvent>): Option<int> {
    if events == [] then None
    else
      var e := events[|events| - 1];
      if e.MessageDelta? && e.outputTokens.Some? then e.outputTokens else LastOutput(events[..|events| - 1])
  }

  /** The last event that stated usage was a message delta. */
  predicate DeltaSpokeLast(events: seq<ClaudeEvent>) {
    if events == [] then false
    else
      var e := events[|events| - 1];
      if e.MessageDelta? && e.outputTokens.Some? then true
      else if e.MessageStart? && e.startUsage.Some? then false
      else DeltaSpokeLast(events[..|events| - 1])
  }

  lemma {:induction false} UsageIs(events: seq<ClaudeEvent>)
    ensures var u := C.UsageOr(C.ReadState(events).usage);
      && u.prompt == LastInput(events)
      && u.completion == (if LastOutput(events).Some? then LastOutput(events).value else 0)
      && (DeltaSpokeLast(events) ==> u.total == u.prompt + u.completion)
    ensures DeltaSpokeLast(events) ==> C.ReadState(events).usage.Some? && LastOutput(events).Some?
  {
    if events != [] {
      UsageIs(events[..|events| - 1]);
    }
  }

  /** Usage sent as OpenAI's comes back as the same prompt, completion and total. */
  lemma UsageComesBack(u: Usage)
    ensures var r := O.ReadUsage(O.PrintedUsage(u));
      r.prompt == u.prompt && r.completion == u.completion && r.total == u.total && r.cacheRead == 0
  {
  }

  function StopChunk(s: State): Chunk {
    Chunk(s.messageId, s.model, None, s.finishReason, s.usage, "")
  }

  lemma ReadOneMore(events: seq<ClaudeEvent>, e: ClaudeEvent)
    ensures C.ReadChunks(events + [e]) == C.ReadChunks(events) + C.ChunksOf(C.ReadState(events), e)
  {
    assert (events + [e])[..|events|] == events && (events + [e])[|events|] == e;
  }

  lemma StopReads(events: seq<ClaudeEvent>)
    ensures C.ReadChunks(events + [MessageStop]) == C.ReadChunks(events) + [StopChunk(C.ReadState(events))]
  {
    ReadOneMore(events, MessageStop);
  }

  lemma PrintedLast(chunks: seq<Chunk>, c: Chunk)
    ensures O.PrintedStream(chunks + [c]) == O.PrintedStream(chunks) + [O.PrintedChunk(c, O.CallCount(chunks))]
  {
    assert (chunks + [c])[..|chunks|] == chunks;
  }

  /** The message stop is the last thing sent. */
  lemma StopIsSentLast(events: seq<ClaudeEvent>)
    ensures var last := O.PrintedChunk(StopChunk(C.ReadState(events)), O.CallCount(C.ReadChunks(events)));
      ClaudeAsOpenAI(events + [MessageStop]) == ClaudeAsOpenAI(events) + [last]
  {
    StopReads(events);
    PrintedLast(C.ReadChunks(events), StopChunk(C.ReadState(events)));
  }

  /** The usage the final chunk states, if the stream states any. */
  function FinalUsage(events: seq<ClaudeEvent>): Option<WireUsage> {
    match C.ReadState(events).usage
    case None => None
    case Some(u) => Some(O.PrintedUsage(u))
  }

  lemma FinalUsageIs(events: seq<ClaudeEvent>)
    requires DeltaSpokeLast(events)
    ensures LastOutput(events).Some?
    ensures FinalUsage(events) == Some(WireUsage(LastInput(events), LastOutput(events).value,
                                                 LastInput(events) + LastOutput(events).value, None))
  {
    UsageIs(events);
  }

  lemma StopStatesUsage(s: State, index: int)
    ensures O.PrintedChunk(StopChunk(s), index).usage
         == (match s.usage case None => None case Some(u) => Some(O.PrintedUsage(u)))
  {
  }

  ghost predicate EndsWithUsage(wires: seq<WireChunk>, front: seq<WireChunk>, usage: Option<WireUsage>) {
    |wires| == |front| + 1 && wires[..|front|] == front && wires[|front|].usage == usage
  }

  lemma EndsWith(front: seq<WireChunk>, last: WireChunk)
    ensures EndsWithUsage(front + [last], front, last.usage)
  {
  }

  /** A stream that ends after a message delta with usage tells the client, last of all, the prompt
      tokens, the completion tokens and their sum. */
  lemma {:induction false} FinalUsageAddsUp(events: seq<ClaudeEvent>)
    requires DeltaSpokeLast(events)
    ensures LastOutput(events).Some?
    ensures var prompt, completion := LastInput(events), LastOutput(events).value;
      EndsWithUsage(ClaudeAsOpenAI(events + [MessageStop]), ClaudeAsOpenAI(events),
                    Some(WireUsage(prompt, completion, prompt + completion, None)))
  {
    FinalUsageIs(events);
    StopIsSentLast(events);
    var s, index := C.ReadState(events), O.CallCount(C.ReadChunks(events));
    StopStatesUsage(s, index);
    EndsWith(ClaudeAsOpenAI(events), O.PrintedChunk(StopChunk(s), index));
  }

  // ----- OpenAI upstream, Claude client -----

  /** Says one thing: a role, thinking, text, a piece of a tool call, a finish or usage. */
  predicate SaysOneThing(c: Chunk) {
    && (c.role != "" ==> c.delta.None?)
    && (c.finishReason != "" ==> c.role == "" && c.delta.None? && c.usage.None?)
    && (c.delta.Some? ==>
          var d := c.delta.value;
          && (d.thinking != "" ==> d.text == "" && d.toolCallId == "" && d.arguments == "")
          && (d.text != "" ==> d.toolCallId == "" && d.arguments == ""))
  }

  lemma {:induction false} CallChunksSayOne(s: State, calls: seq<WireCall>)
    ensures forall c :: c in O.CallChunks(s, calls) ==> SaysOneThing(c)
  {
    if calls != [] {
      CallChunksSayOne(s, calls[..|calls| - 1]);
    }
  }

  lemma ChoiceChunksSayOne(s: State, choice: Choice)
    ensures forall c :: c in O.ChoiceChunks(s, choice) ==> SaysOneThing(c)
  {
    CallChunksSayOne(s, choice.calls);
  }

  lemma {:induction false} AllChoiceChunksSayOne(s: State, choices: seq<Choice>)
    ensures forall c :: c in O.AllChoiceChunks(s, choices) ==> SaysOneThing(c)
  {
    if choices != [] {
      AllChoiceChunksSayOne(s, choices[..|choices| - 1]);
      ChoiceChunksSayOne(s, choices[|choices| - 1]);
    }
  }

  /** Each chunk the OpenAI reader gives says one thing. */
  lemma {:induction false} ReadChunksSayOne(wires: seq<WireChunk>)
    ensures forall c :: c in O.ReadChunks(wires) ==> SaysOneThing(c)
  {
    if wires != [] {
      var init, w := wires[..|wires| - 1], wires[|wires| - 1];
      ReadChunksSayOne(init);
      AllChoiceChunksSayOne(O.Named(O.ReadState(init), w), w.choices);
    }
  }

  // What the reader keeps of what wire chunks say.

  lemma {:induction false} CallChunksSay(s: State, calls: seq<WireCall>)
    ensures FlatMap(TextOf, O.CallChunks(s, calls)) == ""
    ensures FlatMap(ThinkingOf, O.CallChunks(s, calls)) == ""
    ensures FlatMap(PiecesOf, O.CallChunks(s, calls)) == FlatMap(CallPieces, calls)
  {
    if calls != [] {
      var init, last := calls[..|calls| - 1], calls[|calls| - 1];
      CallChunksSay(s, init);
      ObservedTogether(O.CallChunks(s, init), [O.CallChunk(s, last)]);
      ObservedOne([O.CallChunk(s, last)]);
    }
  }

  lemma ObservedTogether(a: seq<Chunk>, b: seq<Chunk>)
    ensures FlatMap(TextOf, a + b) == FlatMap(TextOf, a) + FlatMap(TextOf, b)
    ensures FlatMap(ThinkingOf, a + b) == FlatMap(ThinkingOf, a) + FlatMap(ThinkingOf, b)
    ensures FlatMap(PiecesOf, a + b) == FlatMap(PiecesOf, a) + FlatMap(PiecesOf, b)
  {
    FlatMapAppend(TextOf, a, b);
    FlatMapAppend(ThinkingOf, a, b);
    FlatMapAppend(PiecesOf, a, b);
  }

  /** What a list of at most one chunk says. */
  lemma ObservedOne(chunks: seq<Chunk>)
    requires |chunks| <= 1
    ensures chunks == [] ==>
      FlatMap(TextOf, chunks) == "" && FlatMap(ThinkingOf, chunks) == "" && FlatMap(PiecesOf, chunks) == []
    ensures chunks != [] ==>
      && FlatMap(TextOf, chunks) == TextOf(chunks[0])
      && FlatMap(ThinkingOf, chunks) == ThinkingOf(chunks[0])
      && FlatMap(PiecesOf, chunks) == PiecesOf(chunks[0])
  {
    if chunks != [] {
      assert chunks == [chunks[0]];
      FlatMapOne(TextOf, chunks[0]);
      FlatMapOne(ThinkingOf, chunks[0]);
      FlatMapOne(PiecesOf, chunks[0]);
    }
  }

  lemma ObservedFive(a: seq<Chunk>, b: seq<Chunk>, c: seq<Chunk>, d: seq<Chunk>, e: seq<Chunk>)
    ensures FlatMap(TextOf, a + b + c + d + e)
      == FlatMap(TextOf, a) + FlatMap(TextOf, b) + FlatMap(TextOf, c) + FlatMap(TextOf, d) + FlatMap(TextOf, e)
    ensures FlatMap(ThinkingOf, a + b + c + d + e)
      == FlatMap(ThinkingOf, a) + FlatMap(ThinkingOf, b) + FlatMap(ThinkingOf, c) + FlatMap(ThinkingOf, d)
         + FlatMap(ThinkingOf, e)
    ensures FlatMap(PiecesOf, a + b + c + d + e)
      == FlatMap(PiecesOf, a) + FlatMap(PiecesOf, b) + FlatMap(PiecesOf, c) + FlatMap(PiecesOf, d)
         + FlatMap(PiecesOf, e)
  {
    ObservedTogether(a, b);
    ObservedTogether(a + b, c);
    ObservedTogether(a + b + c, d);
    ObservedTogether(a + b + c + d, e);
  }

  lemma SmallPartsSay(s: State, c: Choice)
    ensures FlatMap(TextOf, O.RoleChunks(s, c)) == "" && FlatMap(ThinkingOf, O.RoleChunks(s, c)) == ""
    ensures FlatMap(TextOf, O.TextChunks(s, c)) == ChoiceText(c) && FlatMap(ThinkingOf, O.TextChunks(s, c)) == ""
    ensures FlatMap(TextOf, O.ThinkingChunks(s, c)) == ""
    ensures FlatMap(ThinkingOf, O.ThinkingChunks(s, c)) == ChoiceThinking(c)
    ensures FlatMap(TextOf, O.FinishChunks(s, c)) == "" && FlatMap(ThinkingOf, O.FinishChunks(s, c)) == ""
    ensures FlatMap(PiecesOf, O.RoleChunks(s, c)) == [] && FlatMap(PiecesOf, O.TextChunks(s, c)) == []
    ensures FlatMap(PiecesOf, O.ThinkingChunks(s, c)) == [] && FlatMap(PiecesOf, O.FinishChunks(s, c)) == []
  {
    ObservedOne(O.RoleChunks(s, c));
    ObservedOne(O.TextChunks(s, c));
    ObservedOne(O.ThinkingChunks(s, c));
    ObservedOne(O.FinishChunks(s, c));
  }

  lemma ChoiceChunksSay(s: State, c: Choice)
    ensures FlatMap(TextOf, O.ChoiceChunks(s, c)) == ChoiceText(c)
    ensures FlatMap(ThinkingOf, O.ChoiceChunks(s, c)) == ChoiceThinking(c)
    ensures FlatMap(PiecesOf, O.ChoiceChunks(s, c)) == ChoicePieces(c)
  {
    SmallPartsSay(s, c);
    CallChunksSay(s, c.calls);
    ObservedFive(O.RoleChunks(s, c), O.TextChunks(s, c), O.ThinkingChunks(s, c), O.CallChunks(s, c.calls),
                 O.FinishChunks(s, c));
  }

  lemma {:induction false} AllChoiceChunksSay(s: State, choices: seq<Choice>)
    ensures FlatMap(TextOf, O.AllChoiceChunks(s, choices)) == FlatMap(ChoiceText, choices)
    ensures FlatMap(ThinkingOf, O.AllChoiceChunks(s, choices)) == FlatMap(ChoiceThinking, choices)
    ensures FlatMap(PiecesOf, O.AllChoiceChunks(s, choices)) == FlatMap(ChoicePieces, choices)
  {
    if choices != [] {
      var init, last := choices[..|choices| - 1], choices[|choices| - 1];
      AllChoiceChunksSay(s, init);
      ChoiceChunksSay(s, last);
      ObservedTogether(O.AllChoiceChunks(s, init), O.ChoiceChunks(s, last));
    }
  }

  lemma WireChunkSays(s: State, w: WireChunk)
    ensures FlatMap(TextOf, O.ChunksOf(s, w)) == WireText(w)
    ensures FlatMap(ThinkingOf, O.ChunksOf(s, w)) == WireThinking(w)
    ensures FlatMap(PiecesOf, O.ChunksOf(s, w)) == WirePieces(w)
  {
    var t := O.Named(s, w);
    AllChoiceChunksSay(t, w.choices);
    ObservedOne(O.UsageChunks(t, w));
    ObservedTogether(O.AllChoiceChunks(t, w.choices), O.UsageChunks(t, w));
  }

  /** The canonical chunks of an OpenAI stream say what the stream says. */
  lemma {:induction false} OpenAIReadSays(wires: seq<WireChunk>)
    ensures FlatMap(TextOf, O.ReadChunks(wires)) == FlatMap(WireText, wires)
    ensures FlatMap(ThinkingOf, O.ReadChunks(wires)) == FlatMap(WireThinking, wires)
    ensures FlatMap(PiecesOf, O.ReadChunks(wires)) == FlatMap(WirePieces, wires)
  {
    if wires != [] {
      var init, w := wires[..|wires| - 1], wires[|wires| - 1];
      OpenAIReadSays(init);
      WireChunkSays(O.ReadState(init), w);
      ObservedTogether(O.ReadChunks(init), O.ChunksOf(O.ReadState(init), w));
    }
  }

  /** An event that says nothing. */
  predicate Silent(e: ClaudeEvent) {
    EventText(e) == "" && EventThinking(e) == "" && EventPieces(e) == []
  }

  lemma SilentSays(quiet: seq<ClaudeEvent>)
    requires forall i :: 0 <= i < |quiet| ==> Silent(quiet[i])
    ensures FlatMap(EventText, quiet) == "" && FlatMap(EventThinking, quiet) == "" && FlatMap(EventPieces, quiet) == []
  {
    FlatMapEmpty(EventText, quiet);
    FlatMapEmpty(EventThinking, quiet);
    FlatMapEmpty(EventPieces, quiet);
  }

  lemma {:induction false} LastSays(quiet: seq<ClaudeEvent>, e: ClaudeEvent)
    requires forall i :: 0 <= i < |quiet| ==> Silent(quiet[i])
    ensures FlatMap(EventText, quiet + [e]) == EventText(e)
    ensures FlatMap(EventThinking, quiet + [e]) == EventThinking(e)
    ensures FlatMap(EventPieces, quiet + [e]) == EventPieces(e)
  {
    SilentSays(quiet);
    FlatMapAppend(EventText, quiet, [e]);
    FlatMapAppend(EventThinking, quiet, [e]);
    FlatMapAppend(EventPieces, quiet, [e]);
    FlatMapOne(EventText, e);
    FlatMapOne(EventThinking, e);
    FlatMapOne(EventPieces, e);
  }

  /** What is printed of a chunk's pieces: arguments that come with an id are dropped. */
  function PrintedPieces(c: Chunk): seq<Piece> {
    if c.delta.None? then []
    else if c.delta.value.toolCallId != "" then Starting(c.delta.value.toolCallId, c.delta.value.toolName)
    else Continuing(c.delta.value.arguments)
  }

  /** What some events say together. */
  ghost predicate Say(events: seq<ClaudeEvent>, text: string, thinking: string, pieces: seq<Piece>) {
    && FlatMap(EventText, events) == text
    && FlatMap(EventThinking, events) == thinking
    && FlatMap(EventPieces, events) == pieces
  }

  lemma ThinkingSays(s: State, text: string)
    ensures Say(C.PrintedThinking(s, text), "", text, [])
  {
    LastSays(if s.thinking then [] else [BlockStart(s.blockIndex, ThinkingKind, "", "")],
             BlockPart(s.blockIndex, ThinkingDelta(text)));
  }

  lemma TextSays(s: State, text: string)
    ensures Say(C.PrintedText(s, text), text, "", [])
  {
    var events := C.PrintedText(s, text);
    var n := |events| - 1;
    assert events == events[..n] + [events[n]];
    LastSays(events[..n], events[n]);
  }

  lemma CallSays(s: State, id: string, name: string)
    ensures Say(C.PrintedCall(s, id, name), "", "", Starting(id, name))
  {
    var events := C.PrintedCall(s, id, name);
    var n := |events| - 1;
    assert events == events[..n] + [events[n]];
    LastSays(events[..n], events[n]);
  }

  lemma ArgumentsSay(s: State, text: string)
    ensures Say([BlockPart(s.blockIndex, JsonDelta(text))], "", "", Continuing(text))
  {
    var part := BlockPart(s.blockIndex, JsonDelta(text));
    assert [] + [part] == [part];
    LastSays([], part);
  }

  lemma {:induction false} PrintedEventsSay(s: State, c: Chunk)
    requires SaysOneThing(c)
    ensures Say(C.PrintedEvents(s, c), TextOf(c), ThinkingOf(c), PrintedPieces(c))
  {
    if c.role != "" || c.delta.None? || c.finishReason != "" {
      SilentSays(C.PrintedEvents(s, c));
    } else {
      var d := c.delta.value;
      if d.thinking != "" {
        ThinkingSays(s, d.thinking);
      } else if d.text != "" {
        TextSays(s, d.text);
      } else if d.toolCallId != "" {
        CallSays(s, d.toolCallId, d.toolName);
      } else if d.arguments != "" {
        ArgumentsSay(s, d.arguments);
      } else {
        SilentSays([]);
      }
    }
  }

  lemma {:induction false} PrintedStreamSays(chunks: seq<Chunk>)
    requires forall c :: c in chunks ==> SaysOneThing(c)
    ensures FlatMap(EventText, C.PrintedStream(chunks)) == FlatMap(TextOf, chunks)
    ensures FlatMap(EventThinking, C.PrintedStream(chunks)) == FlatMap(ThinkingOf, chunks)
    ensures FlatMap(EventPieces, C.PrintedStream(chunks)) == FlatMap(PrintedPieces, chunks)
  {
    if chunks != [] {
      var init, c := chunks[..|chunks| - 1], chunks[|chunks| - 1];
      PrintedStreamSays(init);
      var s := C.PrintState(init);
      PrintedEventsSay(s, c);
      FlatMapAppend(EventText, C.PrintedStream(init), C.PrintedEvents(s, c));
      FlatMapAppend(EventThinking, C.PrintedStream(init), C.PrintedEvents(s, c));
      FlatMapAppend(EventPieces, C.PrintedStream(init), C.PrintedEvents(s, c));
    }
  }

  function OpenAIAsClaude(wires: seq<WireChunk>): seq<ClaudeEvent> {
    C.PrintedStream(O.ReadChunks(wires))
  }

  /** Of every OpenAI stream, a Claude client gets all the text and all the thinking. */
  lemma {:induction false} OpenAIStreamIsHeard(wires: seq<WireChunk>)
    ensures FlatMap(EventText, OpenAIAsClaude(wires)) == FlatMap(WireText, wires)
    ensures FlatMap(EventThinking, OpenAIAsClaude(wires)) == FlatMap(WireThinking, wires)
  {
    ReadChunksSayOne(wires);
    PrintedStreamSays(O.ReadChunks(wires));
    OpenAIReadSays(wires);
  }

  /** A chunk that starts a call and brings arguments at once. */
  predicate StartsWithArguments(c: Chunk) {
    c.delta.Some? && c.delta.value.toolCallId != "" && c.delta.value.arguments != ""
  }

  ghost predicate SomeStarts(chunks: seq<Chunk>) {
    exists c :: c in chunks && StartsWithArguments(c)
  }

  lemma SomeStartsTogether(a: seq<Chunk>, b: seq<Chunk>)
    ensures SomeStarts(a + b) <==> SomeStarts(a) || SomeStarts(b)
  {
    if SomeStarts(a) {
      var c :| c in a && StartsWithArguments(c);
      assert c in a + b;
    }
    if SomeStarts(b) {
      var c :| c in b && StartsWithArguments(c);
      assert c in a + b;
    }
  }

  /** Arguments are lost exactly when some chunk brings them together with the id of its call. */
  lemma {:induction false} PiecesKeptExactlyWhen(chunks: seq<Chunk>)
    ensures |FlatMap(PrintedPieces, chunks)| <= |FlatMap(PiecesOf, chunks)|
    ensures SomeStarts(chunks) ==> |FlatMap(PrintedPieces, chunks)| < |FlatMap(PiecesOf, chunks)|
    ensures FlatMap(PrintedPieces, chunks) == FlatMap(PiecesOf, chunks) <==> !SomeStarts(chunks)
  {
    if !SomeStarts(chunks) {
      forall i | 0 <= i < |chunks| ensures PrintedPieces(chunks[i]) == PiecesOf(chunks[i]) {
        assert chunks[i] in chunks && !StartsWithArguments(chunks[i]);
      }
      FlatMapAgrees(PrintedPieces, PiecesOf, chunks);
    } else {
      var init, last := chunks[..|chunks| - 1], chunks[|chunks| - 1];
      assert chunks == init + [last];
      PiecesKeptExactlyWhen(init);
      SomeStartsTogether(init, [last]);
      assert SomeStarts([last]) ==> StartsWithArguments(last);
    }
  }

  /** A piece of a tool call with both an id and arguments. */
  predicate Combined(call: WireCall) {
    call.id != "" && call.arguments != ""
  }

  ghost predicate ChoiceCombines(c: Choice) {
    exists call :: call in c.calls && Combined(call)
  }

  ghost predicate WireCombines(w: WireChunk) {
    exists c :: c in w.choices && ChoiceCombines(c)
  }

  ghost predicate StreamCombines(wires: seq<WireChunk>) {
    exists w :: w in wires && WireCombines(w)
  }

  lemma {:induction false} CallChunksStart(s: State, calls: seq<WireCall>)
    ensures SomeStarts(O.CallChunks(s, calls)) <==> exists call :: call in calls && Combined(call)
  {
    if calls != [] {
      var init, last := calls[..|calls| - 1], calls[|calls| - 1];
      assert calls == init + [last];
      CallChunksStart(s, init);
      var chunk := O.CallChunk(s, last);
      SomeStartsTogether(O.CallChunks(s, init), [chunk]);
      assert chunk in [chunk];
      assert StartsWithArguments(chunk) <==> Combined(last);
    }
  }

  lemma ChoiceChunksStart(s: State, c: Choice)
    ensures SomeStarts(O.ChoiceChunks(s, c)) <==> ChoiceCombines(c)
  {
    CallChunksStart(s, c.calls);
    var before := O.RoleChunks(s, c) + O.TextChunks(s, c) + O.ThinkingChunks(s, c);
    var calls, finish := O.CallChunks(s, c.calls), O.FinishChunks(s, c);
    assert !SomeStarts(before) && !SomeStarts(finish);
    SomeStartsTogether(before, calls);
    SomeStartsTogether(before + calls, finish);
  }

  lemma {:induction false} AllChoiceChunksStart(s: State, choices: seq<Choice>)
    ensures SomeStarts(O.AllChoiceChunks(s, choices)) <==> exists c :: c in choices && ChoiceCombines(c)
  {
    if choices != [] {
      var init, last := choices[..|choices| - 1], choices[|choices| - 1];
      assert choices == init + [last];
      AllChoiceChunksStart(s, init);
      ChoiceChunksStart(s, last);
      SomeStartsTogether(O.AllChoiceChunks(s, init), O.ChoiceChunks(s, last));
    }
  }

  lemma WireChunkStarts(s: State, w: WireChunk)
    ensures SomeStarts(O.ChunksOf(s, w)) <==> WireCombines(w)
  {
    var t := O.Named(s, w);
    AllChoiceChunksStart(t, w.choices);
    assert !SomeStarts(O.UsageChunks(t, w));
    SomeStartsTogether(O.AllChoiceChunks(t, w.choices), O.UsageChunks(t, w));
  }

  lemma CombinesTogether(wires: seq<WireChunk>, w: WireChunk)
    ensures StreamCombines(wires + [w]) <==> StreamCombines(wires) || WireCombines(w)
  {
    if StreamCombines(wires) {
      var x :| x in wires && WireCombines(x);
      assert x in wires + [w];
    }
    if WireCombines(w) {
      assert w in wires + [w];
    }
  }

  lemma ReadChunksNext(wires: seq<WireChunk>, w: WireChunk)
    ensures O.ReadChunks(wires + [w]) == O.ReadChunks(wires) + O.ChunksOf(O.ReadState(wires), w)
  {
    assert (wires + [w])[..|wires|] == wires;
  }

  lemma ReadChunksStartNext(wires: seq<WireChunk>, w: WireChunk)
    requires SomeStarts(O.ReadChunks(wires)) <==> StreamCombines(wires)
    ensures SomeStarts(O.ReadChunks(wires + [w])) <==> StreamCombines(wires + [w])
  {
    ReadChunksNext(wires, w);
    CombinesTogether(wires, w);
    WireChunkStarts(O.ReadState(wires), w);
    SomeStartsTogether(O.ReadChunks(wires), O.ChunksOf(O.ReadState(wires), w));
  }

  lemma {:induction false} ReadChunksStart(wires: seq<WireChunk>)
    ensures SomeStarts(O.ReadChunks(wires)) <==> StreamCombines(wires)
  {
    if wires != [] {
      var n := |wires| - 1;
      ReadChunksStart(wires[..n]);
      ReadChunksStartNext(wires[..n], wires[n]);
      assert wires == wires[..n] + [wires[n]];
    }
  }

  /** A Claude client gets every tool start and argument fragment of an OpenAI stream, in order,
      exactly when no wire chunk brings a call's id and arguments together: such arguments are
      dropped. */
  lemma {:induction false} CallsSurviveExactlyWhen(wires: seq<WireChunk>)
    ensures FlatMap(EventPieces, OpenAIAsClaude(wires)) == FlatMap(WirePieces, wires) <==> !StreamCombines(wires)
  {
    ReadChunksSayOne(wires);
    PrintedStreamSays(O.ReadChunks(wires));
    OpenAIReadSays(wires);
    PiecesKeptExactlyWhen(O.ReadChunks(wires));
    ReadChunksStart(wires);
  }

  /** One chunk that starts a call and completes it. */
  function WholeCall(): WireChunk {
    WireChunk("c", "m", [Choice("", None, None, [WireCall(0, "call", "function", "now", "{}")], None)], None)
  }

  /** A call that comes whole loses its arguments. */
  lemma WholeCallLosesArguments()
    ensures FlatMap(EventPieces, OpenAIAsClaude([WholeCall()])) != FlatMap(WirePieces, [WholeCall()])
  {
    var call := WholeCall().choices[0].calls[0];
    assert Combined(call) && call in WholeCall().choices[0].calls;
    assert ChoiceCombines(WholeCall().choices[0]) && WholeCall().choices[0] in WholeCall().choices;
    assert WireCombines(WholeCall()) && WholeCall() in [WholeCall()];
    CallsSurviveExactlyWhen([WholeCall()]);
  }

  ghost predicate StatesNoUsage(events: seq<ClaudeEvent>) {
    forall e :: e in events && e.MessageDelta? ==> e.outputTokens.None?
  }

  lemma ChunkStatesNoUsage(s: State, c: Chunk)
    requires SaysOneThing(c)
    ensures StatesNoUsage(C.PrintedEvents(s, c))
  {
  }

  lemma {:induction false} PrintedStatesNoUsage(chunks: seq<Chunk>)
    requires forall c :: c in chunks ==> SaysOneThing(c)
    ensures StatesNoUsage(C.PrintedStream(chunks))
  {
    if chunks != [] {
      var init, last := chunks[..|chunks| - 1], chunks[|chunks| - 1];
      assert chunks == init + [last];
      PrintedStatesNoUsage(init);
      ChunkStatesNoUsage(C.PrintState(init), last);
    }
  }

  /** The OpenAI reader gives a finish and its usage as two chunks, and only the first is printed:
      whatever usage an OpenAI stream states, a Claude client is never told of it. */
  lemma UsageNeverReachesClaude(wires: seq<WireChunk>)
    ensures StatesNoUsage(OpenAIAsClaude(wires))
  {
    ReadChunksSayOne(wires);
    PrintedStatesNoUsage(O.ReadChunks(wires));
  }
}
