/** When the blocks opened for a Claude client are closed as well. */
module StreamBlocks {
  import opened Options
  import opened Flattening
  import opened Streams
  import opened StreamMeaning
  import opened StreamFinish
  import C = ClaudeStream
  import O = OpenAIStream

  // ----- What moves the blocks -----

  /** The things said that open or close a block: text, thinking, the start of a call, the finish. */
  datatype Mark = Speaks | Thinks | Calls | Ends

  function MarkIf(present: bool, mark: Mark): seq<Mark> {
    if present then [mark] else []
  }

  function CallMarks(call: WireCall): seq<Mark> {
    MarkIf(call.id != "", Calls)
  }

  function ChoiceMarks(c: Choice): seq<Mark> {
    MarkIf(OrEmpty(c.content) != "", Speaks) + MarkIf(OrEmpty(c.reasoning) != "", Thinks) + FlatMap(CallMarks, c.calls)
    + MarkIf(OrEmpty(c.finish) != "", Ends)
  }

  function WireMarks(w: WireChunk): seq<Mark> {
    FlatMap(ChoiceMarks, w.choices)
  }

  function ChunkMarks(c: Chunk): seq<Mark> {
    MarkIf(TextOf(c) != "", Speaks) + MarkIf(ThinkingOf(c) != "", Thinks)
    + MarkIf(c.delta.Some? && c.delta.value.toolCallId != "", Calls) + MarkIf(c.finishReason != "", Ends)
  }

  lemma SmallMarks(chunks: seq<Chunk>)
    requires |chunks| <= 1
    ensures FlatMap(ChunkMarks, chunks) == if chunks == [] then [] else ChunkMarks(chunks[0])
  {
    if chunks != [] {
      assert chunks == [chunks[0]];
      FlatMapOne(ChunkMarks, chunks[0]);
    }
  }

  lemma OneCallMarks(s: State, call: WireCall)
    ensures FlatMap(ChunkMarks, [O.CallChunk(s, call)]) == CallMarks(call)
  {
    FlatMapOne(ChunkMarks, O.CallChunk(s, call));
  }

  lemma {:induction false} CallChunksMark(s: State, calls: seq<WireCall>)
    ensures FlatMap(ChunkMarks, O.CallChunks(s, calls)) == FlatMap(CallMarks, calls)
  {
    if calls != [] {
      var init, last := calls[..|calls| - 1], calls[|calls| - 1];
      CallChunksMark(s, init);
      FlatMapAppend(ChunkMarks, O.CallChunks(s, init), [O.CallChunk(s, last)]);
      OneCallMarks(s, last);
    }
  }

  lemma SaidPartsMark(s: State, c: Choice)
    ensures FlatMap(ChunkMarks, O.TextChunks(s, c)) == MarkIf(OrEmpty(c.content) != "", Speaks)
    ensures FlatMap(ChunkMarks, O.ThinkingChunks(s, c)) == MarkIf(OrEmpty(c.reasoning) != "", Thinks)
  {
    SmallMarks(O.TextChunks(s, c));
    SmallMarks(O.ThinkingChunks(s, c));
  }

  lemma EndPartsMark(s: State, c: Choice)
    ensures FlatMap(ChunkMarks, O.RoleChunks(s, c)) == []
    ensures FlatMap(ChunkMarks, O.FinishChunks(s, c)) == MarkIf(OrEmpty(c.finish) != "", Ends)
  {
    SmallMarks(O.RoleChunks(s, c));
    SmallMarks(O.FinishChunks(s, c));
  }

  lemma PartsAreChoice(s: State, c: Choice)
    ensures O.ChoiceChunks(s, c)
         == O.RoleChunks(s, c) + O.TextChunks(s, c) + O.ThinkingChunks(s, c) + O.CallChunks(s, c.calls)
            + O.FinishChunks(s, c)
  {
  }

  lemma {:induction false} ChoiceChunksMark(s: State, c: Choice)
    ensures FlatMap(ChunkMarks, O.ChoiceChunks(s, c)) == ChoiceMarks(c)
  {
    var role, text, thinking := O.RoleChunks(s, c), O.TextChunks(s, c), O.ThinkingChunks(s, c);
    var calls, finish := O.CallChunks(s, c.calls), O.FinishChunks(s, c);
    calc {
      FlatMap(ChunkMarks, O.ChoiceChunks(s, c));
      { PartsAreChoice(s, c); FlatMapFive(ChunkMarks, role, text, thinking, calls, finish); }
      FlatMap(ChunkMarks, role) + FlatMap(ChunkMarks, text) + FlatMap(ChunkMarks, thinking) + FlatMap(ChunkMarks, calls)
        + FlatMap(ChunkMarks, finish);
      { SaidPartsMark(s, c); EndPartsMark(s, c); CallChunksMark(s, c.calls); }
      [] + MarkIf(OrEmpty(c.content) != "", Speaks) + MarkIf(OrEmpty(c.reasoning) != "", Thinks)
        + FlatMap(CallMarks, c.calls) + MarkIf(OrEmpty(c.finish) != "", Ends);
      ChoiceMarks(c);
    }
  }

  /** The reader keeps every mark, in order. */
  lemma {:induction false} ReadMarks(wires: seq<WireChunk>)
    ensures FlatMap(ChunkMarks, O.ReadChunks(wires)) == FlatMap(WireMarks, wires)
  {
    forall s: State, c: Choice
      ensures FlatMap(ChunkMarks, O.ChoiceChunks(s, c)) == ChoiceMarks(c)
    {
      ChoiceChunksMark(s, c);
    }
    forall s: State, w: WireChunk
      ensures FlatMap(ChunkMarks, O.UsageChunks(s, w)) == []
    {
      SmallMarks(O.UsageChunks(s, w));
    }
    ReadKeeps(ChunkMarks, ChoiceMarks, WireMarks, wires);
  }

  // ----- Closed blocks -----

  /** No block is open; one is; or one was opened inside another, stopped twice, or left open at the
      end of the message. */
  datatype Blocks = Shut | Open | Broken

  function Next(b: Blocks, e: ClaudeEvent): Blocks {
    match e
    case BlockStart(_, _, _, _) => if b == Shut then Open else Broken
    case BlockStop(_) => if b == Open then Shut else Broken
    case MessageDelta(_, _) => if b == Shut then Shut else Broken
    case _ => b
  }

  function BlocksAfter(b: Blocks, events: seq<ClaudeEvent>): Blocks {
    if events == [] then b else Next(BlocksAfter(b, events[..|events| - 1]), events[|events| - 1])
  }

  /** Every block that starts is stopped before the next one starts and before the message ends, and
      nothing else is stopped. */
  predicate BlocksClose(events: seq<ClaudeEvent>) {
    BlocksAfter(Shut, events) == Shut
  }

  lemma {:induction false} BlocksGoOn(b: Blocks, first: seq<ClaudeEvent>, more: seq<ClaudeEvent>)
    ensures BlocksAfter(b, first + more) == BlocksAfter(BlocksAfter(b, first), more)
    decreases |more|
  {
    var all := first + more;
    if more == [] {
      assert all == first;
    } else {
      assert all[..|all| - 1] == first + more[..|more| - 1];
      BlocksGoOn(b, first, more[..|more| - 1]);
    }
  }

  lemma AfterOne(b: Blocks, e: ClaudeEvent)
    ensures BlocksAfter(b, [e]) == Next(b, e)
  {
    assert [e][..0] == [];
  }

  lemma AfterTwo(b: Blocks, d: ClaudeEvent, e: ClaudeEvent)
    ensures BlocksAfter(b, [d, e]) == Next(Next(b, d), e)
  {
    assert [d, e][..1] == [d];
    AfterOne(b, d);
  }

  lemma AfterThree(b: Blocks, d: ClaudeEvent, e: ClaudeEvent, f: ClaudeEvent)
    ensures BlocksAfter(b, [d, e, f]) == Next(Next(Next(b, d), e), f)
  {
    assert [d, e, f][..2] == [d, e];
    AfterTwo(b, d, e);
  }

  // ----- What each chunk does to the blocks -----

  lemma ThinkingMoves(b: Blocks, s: State, text: string)
    ensures BlocksAfter(b, C.PrintedThinking(s, text)) == if s.thinking then b else if b == Shut then Open else Broken
  {
    var part := BlockPart(s.blockIndex, ThinkingDelta(text));
    var start := BlockStart(s.blockIndex, ThinkingKind, "", "");
    if s.thinking {
      assert C.PrintedThinking(s, text) == [part];
      AfterOne(b, part);
    } else {
      assert C.PrintedThinking(s, text) == [start, part];
      AfterTwo(b, start, part);
    }
  }

  lemma TextMoves(b: Blocks, s: State, text: string)
    ensures BlocksAfter(b, C.PrintedText(s, text)) ==
      if s.thinking then (if b == Open then Open else Broken)
      else if s.active == InText then b
      else if b == Shut then Open else Broken
  {
    var at := if s.thinking then s.blockIndex + 1 else s.blockIndex;
    var start, part := BlockStart(at, TextKind, "", ""), BlockPart(at, TextDelta(text));
    if s.thinking {
      assert C.PrintedText(s, text) == [BlockStop(s.blockIndex), start, part];
      AfterThree(b, BlockStop(s.blockIndex), start, part);
    } else if s.active == InText {
      assert C.PrintedText(s, text) == [part];
      AfterOne(b, part);
    } else {
      assert C.PrintedText(s, text) == [start, part];
      AfterTwo(b, start, part);
    }
  }

  lemma CallMoves(b: Blocks, s: State, id: string, name: string)
    ensures BlocksAfter(b, C.PrintedCall(s, id, name)) ==
      if s.active != NoBlock then (if b == Open then Open else Broken)
      else if b == Shut then Open else Broken
  {
    var at := if s.active == NoBlock then s.blockIndex else s.blockIndex + 1;
    var start := BlockStart(at, ToolUseKind, id, name);
    if s.active == NoBlock {
      assert C.PrintedCall(s, id, name) == [start];
      AfterOne(b, start);
    } else {
      assert C.PrintedCall(s, id, name) == [BlockStop(s.blockIndex), start];
      AfterTwo(b, BlockStop(s.blockIndex), start);
    }
  }

  lemma FinishMoves(b: Blocks, s: State, c: Chunk)
    ensures BlocksAfter(b, C.PrintedFinish(s, c)) ==
      if s.active != NoBlock then (if b == Open then Shut else Broken)
      else if b == Shut then Shut else Broken
  {
    var delta := C.PrintedFinish(s, c)[|C.PrintedFinish(s, c)| - 2];
    if s.active == NoBlock {
      assert C.PrintedFinish(s, c) == [delta, MessageStop];
      AfterTwo(b, delta, MessageStop);
    } else {
      assert C.PrintedFinish(s, c) == [BlockStop(s.blockIndex), delta, MessageStop];
      AfterThree(b, BlockStop(s.blockIndex), delta, MessageStop);
    }
  }

  lemma SilentMoves(b: Blocks, s: State, c: Chunk)
    requires SaysOneThing(c) && ChunkMarks(c) == []
    ensures BlocksAfter(b, C.PrintedEvents(s, c)) == b
    ensures C.AfterPrint(s, c).active == s.active && C.AfterPrint(s, c).thinking == s.thinking
  {
    var events := C.PrintedEvents(s, c);
    if events != [] {
      assert events == [events[0]];
      AfterOne(b, events[0]);
    }
  }

  // ----- Streams -----

  /** No thinking, and no text once a call has started. */
  predicate IsOrdered(said: seq<Mark>) {
    && Thinks !in said
    && forall i, j :: 0 <= i < j < |said| && said[i] == Calls ==> said[j] != Speaks
  }

  lemma OrderedNext(said: seq<Mark>, mark: Mark)
    ensures IsOrdered(said + [mark]) <==> IsOrdered(said) && mark != Thinks && (mark == Speaks ==> Calls !in said)
  {
    var more := said + [mark];
    assert more[|said|] == mark && forall i :: 0 <= i < |said| ==> more[i] == said[i];
    assert Thinks in more <==> Thinks in said || mark == Thinks;
    if IsOrdered(said) && mark != Thinks && (mark == Speaks ==> Calls !in said) {
      forall i, j | 0 <= i < j < |more| && more[i] == Calls ensures more[j] != Speaks {
        assert more[i] == said[i] && said[i] in said;
      }
    }
    if IsOrdered(more) {
      assert forall i, j :: 0 <= i < j < |said| && said[i] == Calls ==> more[i] == Calls && more[j] == said[j];
    }
  }

  /** Before the finish: an ordered stream has the block open that the state names; any other is broken,
      or has one open that the state does not know of. */
  ghost predicate Tracks(said: seq<Mark>, s: State, b: Blocks) {
    if IsOrdered(said) then
      && !s.thinking
      && (s.active == InTool <==> Calls in said)
      && (s.active == NoBlock || s.active == InText || s.active == InTool)
      && (b == if s.active == NoBlock then Shut else Open)
    else b == Broken || (b == Open && s.active == NoBlock)
  }

  lemma MarkIsOne(c: Chunk, mark: Mark)
    requires SaysOneThing(c) && ChunkMarks(c) == [mark]
    ensures mark == Speaks <==> c.role == "" && ThinkingOf(c) == "" && TextOf(c) != ""
    ensures mark == Thinks <==> c.role == "" && ThinkingOf(c) != ""
    ensures mark == Calls <==> c.role == "" && ThinkingOf(c) == "" && TextOf(c) == "" && c.delta.Some?
                               && c.delta.value.toolCallId != ""
    ensures mark == Ends <==> c.role == "" && c.delta.None? && c.finishReason != ""
  {
    assert [mark][0] == mark;
    assert ChunkMarks(c)[0] == mark;
  }

  lemma SpeaksTracks(said: seq<Mark>, s: State, b: Blocks, c: Chunk)
    requires Tracks(said, s, b) && SaysOneThing(c) && ChunkMarks(c) == [Speaks]
    ensures Tracks(said + [Speaks], C.AfterPrint(s, c), BlocksAfter(b, C.PrintedEvents(s, c)))
  {
    MarkIsOne(c, Speaks);
    OrderedNext(said, Speaks);
    TextMoves(b, s, TextOf(c));
  }

  lemma ThinksTracks(said: seq<Mark>, s: State, b: Blocks, c: Chunk)
    requires Tracks(said, s, b) && SaysOneThing(c) && ChunkMarks(c) == [Thinks]
    ensures Tracks(said + [Thinks], C.AfterPrint(s, c), BlocksAfter(b, C.PrintedEvents(s, c)))
  {
    MarkIsOne(c, Thinks);
    OrderedNext(said, Thinks);
    ThinkingMoves(b, s, ThinkingOf(c));
  }

  lemma CallsTracks(said: seq<Mark>, s: State, b: Blocks, c: Chunk)
    requires Tracks(said, s, b) && SaysOneThing(c) && ChunkMarks(c) == [Calls]
    ensures Tracks(said + [Calls], C.AfterPrint(s, c), BlocksAfter(b, C.PrintedEvents(s, c)))
  {
    MarkIsOne(c, Calls);
    OrderedNext(said, Calls);
    CallMoves(b, s, c.delta.value.toolCallId, c.delta.value.toolName);
  }

  lemma EndsTracks(said: seq<Mark>, s: State, b: Blocks, c: Chunk)
    requires Tracks(said, s, b) && SaysOneThing(c) && ChunkMarks(c) == [Ends]
    ensures BlocksAfter(b, C.PrintedEvents(s, c)) == if IsOrdered(said) then Shut else Broken
  {
    MarkIsOne(c, Ends);
    FinishMoves(b, s, c);
  }

  /** The finish comes last if at all. */
  ghost predicate EndsLast(marks: seq<Mark>) {
    forall i :: 0 <= i < |marks| - 1 ==> marks[i] != Ends
  }

  ghost predicate Follows(marks: seq<Mark>, s: State, b: Blocks) {
    if marks != [] && marks[|marks| - 1] == Ends then
      b == if IsOrdered(marks[..|marks| - 1]) then Shut else Broken
    else Tracks(marks, s, b)
  }

  lemma MarksAreFew(c: Chunk)
    requires SaysOneThing(c)
    ensures |ChunkMarks(c)| <= 1
  {
  }

  lemma TracksNext(marks: seq<Mark>, s: State, b: Blocks, c: Chunk, mark: Mark)
    requires Tracks(marks, s, b) && SaysOneThing(c) && ChunkMarks(c) == [mark] && mark != Ends
    ensures Tracks(marks + [mark], C.AfterPrint(s, c), BlocksAfter(b, C.PrintedEvents(s, c)))
  {
    match mark {
      case Speaks => SpeaksTracks(marks, s, b, c);
      case Thinks => ThinksTracks(marks, s, b, c);
      case Calls => CallsTracks(marks, s, b, c);
      case Ends =>
    }
  }

  lemma MarkFollows(marks: seq<Mark>, s: State, b: Blocks, c: Chunk, mark: Mark)
    requires Tracks(marks, s, b) && SaysOneThing(c) && ChunkMarks(c) == [mark]
    ensures Follows(marks + [mark], C.AfterPrint(s, c), BlocksAfter(b, C.PrintedEvents(s, c)))
  {
    assert (marks + [mark])[..|marks|] == marks;
    if mark == Ends {
      EndsTracks(marks, s, b, c);
    } else {
      TracksNext(marks, s, b, c, mark);
    }
  }

  lemma NoneAfterEnd(marks: seq<Mark>, mark: Mark)
    requires EndsLast(marks + [mark])
    ensures marks != [] ==> marks[|marks| - 1] != Ends
  {
    assert marks != [] ==> (marks + [mark])[|marks| - 1] == marks[|marks| - 1];
  }

  lemma SilentFollows(marks: seq<Mark>, s: State, b: Blocks, c: Chunk)
    requires Follows(marks, s, b) && SaysOneThing(c) && ChunkMarks(c) == []
    ensures Follows(marks, C.AfterPrint(s, c), BlocksAfter(b, C.PrintedEvents(s, c)))
  {
    SilentMoves(b, s, c);
  }

  lemma FollowsNext(marks: seq<Mark>, s: State, b: Blocks, c: Chunk, more: seq<Mark>)
    requires Follows(marks, s, b) && SaysOneThing(c) && ChunkMarks(c) == more && EndsLast(marks + more)
    ensures Follows(marks + more, C.AfterPrint(s, c), BlocksAfter(b, C.PrintedEvents(s, c)))
  {
    MarksAreFew(c);
    if more == [] {
      SilentFollows(marks, s, b, c);
      assert marks + more == marks;
    } else {
      assert more == [more[0]];
      NoneAfterEnd(marks, more[0]);
      MarkFollows(marks, s, b, c, more[0]);
    }
  }

  lemma {:induction false} StreamFollows(chunks: seq<Chunk>)
    requires (forall c :: c in chunks ==> SaysOneThing(c)) && EndsLast(FlatMap(ChunkMarks, chunks))
    ensures Follows(FlatMap(ChunkMarks, chunks), C.PrintState(chunks), BlocksAfter(Shut, C.PrintedStream(chunks)))
  {
    if chunks != [] {
      var init, c := chunks[..|chunks| - 1], chunks[|chunks| - 1];
      var before, s := FlatMap(ChunkMarks, init), C.PrintState(init);
      assert FlatMap(ChunkMarks, chunks) == before + ChunkMarks(c);
      assert forall i :: 0 <= i < |before| ==> before[i] == (before + ChunkMarks(c))[i];
      StreamFollows(init);
      BlocksGoOn(Shut, C.PrintedStream(init), C.PrintedEvents(s, c));
      FollowsNext(before, s, BlocksAfter(Shut, C.PrintedStream(init)), c, ChunkMarks(c));
    }
  }

  lemma OneEnd(said: seq<Mark>, marks: seq<Mark>)
    requires marks == said + [Ends] && Ends !in said
    ensures EndsLast(marks) && marks[|marks| - 1] == Ends && marks[..|marks| - 1] == said
  {
    assert forall i :: 0 <= i < |said| ==> marks[i] == said[i] && said[i] in said;
  }

  /** Of every OpenAI stream that finishes once and says nothing afterwards, the blocks a Claude client
      gets are closed exactly when there was no thinking and no text after the start of a call. */
  lemma {:induction false} BlocksCloseExactlyWhen(wires: seq<WireChunk>, said: seq<Mark>)
    requires FlatMap(WireMarks, wires) == said + [Ends] && Ends !in said
    ensures BlocksClose(OpenAIAsClaude(wires)) <==>
      && Thinks !in said
      && forall i, j :: 0 <= i < j < |said| && said[i] == Calls ==> said[j] != Speaks
  {
    ReadMarks(wires);
    ReadChunksSayOne(wires);
    var marks := FlatMap(ChunkMarks, O.ReadChunks(wires));
    OneEnd(said, marks);
    StreamFollows(O.ReadChunks(wires));
  }

  /** An input that fails: a thought and the finish. The block of the thought is never stopped. */
  lemma ThoughtIsLeftOpen(id: string, model: string, text: string)
    requires text != ""
    ensures !BlocksClose(OpenAIAsClaude([
      WireChunk(id, model, [Choice("", None, Some(text), [], None), Choice("", None, None, [], Some("stop"))], None)]))
  {
    var thought, finish := Choice("", None, Some(text), [], None), Choice("", None, None, [], Some("stop"));
    var w := WireChunk(id, model, [thought, finish], None);
    FlatMapOne(WireMarks, w);
    FlatMapOne(ChoiceMarks, thought);
    assert [thought, finish][..1] == [thought];
    assert FlatMap(WireMarks, [w]) == [Thinks] + [Ends];
    BlocksCloseExactlyWhen([w], [Thinks]);
  }
}
