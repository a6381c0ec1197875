/** How a translated stream begins and ends: the role it starts with, the finish or the stop reason the
    client is given, and the usage that is read from it. */
module StreamFinish {
  import opened Options
  import opened Flattening
  import opened Streams
  import opened StreamMeaning
  import C = ClaudeStream
  import O = OpenAIStream

  /** The reasons the two wire formats have in common, as Claude and as OpenAI name them. */
  const PAIRS := [("end_turn", "stop"), ("max_tokens", "length"), ("tool_use", "tool_calls")]

  predicate IsPair(stop: string, finish: string) {
    (stop, finish) in PAIRS
  }

  predicate IsKnownStop(stop: string) {
    exists i :: 0 <= i < |PAIRS| && PAIRS[i].0 == stop
  }

  predicate IsKnownFinish(finish: string) {
    exists i :: 0 <= i < |PAIRS| && PAIRS[i].1 == finish
  }

  /** The finish an OpenAI client is given for a stop reason: its pair, or itself if it has none. */
  predicate IsFinishFor(stop: string, finish: string) {
    if IsKnownStop(stop) then IsPair(stop, finish) else finish == stop
  }

  /** The stop reason a Claude client is given for a finish: its pair, or "end_turn" if it has none. */
  predicate IsStopFor(finish: string, stop: string) {
    if IsKnownFinish(finish) then IsPair(stop, finish) else stop == "end_turn"
  }

  lemma Pairs()
    ensures PAIRS[0] == ("end_turn", "stop") && PAIRS[1] == ("max_tokens", "length")
    ensures PAIRS[2] == ("tool_use", "tool_calls") && |PAIRS| == 3
  {
  }

  lemma FinishIsFor(stop: string)
    ensures IsFinishFor(stop, C.FinishOf(stop))
    ensures forall f :: IsFinishFor(stop, f) ==> f == C.FinishOf(stop)
  {
    Pairs();
  }

  lemma StopIsFor(finish: string)
    ensures IsStopFor(finish, C.StopReasonOf(finish))
    ensures forall s :: IsStopFor(finish, s) ==> s == C.StopReasonOf(finish)
  {
    Pairs();
  }

  /** A stop reason sent through OpenAI's names comes back exactly when the formats share it. */
  lemma StopComesBackExactlyWhen(stop: string)
    ensures C.StopReasonOf(C.FinishOf(stop)) == stop <==> IsKnownStop(stop)
  {
    Pairs();
    FinishIsFor(stop);
    StopIsFor(C.FinishOf(stop));
  }

  // ----- Claude upstream, OpenAI client -----

  /** The last stop reason that is not empty. */
  function LastStop(events: seq<ClaudeEvent>): string {
    if events == [] then ""
    else
      var e := events[|events| - 1];
      if e.MessageDelta? && e.stopReason != "" then e.stopReason else LastStop(events[..|events| - 1])
  }

  lemma {:induction false} ReadFinish(events: seq<ClaudeEvent>)
    ensures LastStop(events) == "" ==> C.ReadState(events).finishReason == ""
    ensures LastStop(events) != "" ==> C.ReadState(events).finishReason == C.FinishOf(LastStop(events))
  {
    if events != [] {
      ReadFinish(events[..|events| - 1]);
    }
  }

  /** The last wire chunk says how the message ended, and nothing else but usage. */
  ghost predicate EndsWithFinish(wires: seq<WireChunk>, front: seq<WireChunk>, finish: Option<string>) {
    && |wires| == |front| + 1 && wires[..|front|] == front
    && wires[|front|].choices == [Choice("", None, None, [], finish)]
  }

  lemma FinishGiven(events: seq<ClaudeEvent>) returns (finish: Option<string>)
    ensures finish == O.NonEmpty(C.ReadState(events).finishReason)
    ensures finish.None? <==> LastStop(events) == ""
    ensures finish.Some? ==> IsFinishFor(LastStop(events), finish.value)
  {
    ReadFinish(events);
    FinishIsFor(LastStop(events));
    finish := O.NonEmpty(C.ReadState(events).finishReason);
  }

  lemma StopSaysFinish(s: State, index: int)
    ensures O.PrintedChunk(StopChunk(s), index).choices == [Choice("", None, None, [], O.NonEmpty(s.finishReason))]
  {
  }

  lemma EndsWith(front: seq<WireChunk>, last: WireChunk, finish: Option<string>)
    requires last.choices == [Choice("", None, None, [], finish)]
    ensures EndsWithFinish(front + [last], front, finish)
  {
  }

  /** A Claude stream that ends in a message stop ends, for an OpenAI client, with the finish for its
      last stop reason, or with none if it gave none. */
  lemma {:induction false} OpenAIClientHearsFinish(events: seq<ClaudeEvent>)
    ensures exists finish: Option<string> ::
      && EndsWithFinish(ClaudeAsOpenAI(events + [MessageStop]), ClaudeAsOpenAI(events), finish)
      && (finish.None? <==> LastStop(events) == "")
      && (finish.Some? ==> IsFinishFor(LastStop(events), finish.value))
  {
    StopIsSentLast(events);
    var finish := FinishGiven(events);
    var s, index := C.ReadState(events), O.CallCount(C.ReadChunks(events));
    StopSaysFinish(s, index);
    EndsWith(ClaudeAsOpenAI(events), O.PrintedChunk(StopChunk(s), index), finish);
  }

  // ----- OpenAI upstream, Claude client -----

  function ChunkFinishes(c: Chunk): seq<string> {
    if c.finishReason != "" then [c.finishReason] else []
  }

  function ChoiceFinishes(c: Choice): seq<string> {
    if OrEmpty(c.finish) != "" then [c.finish.value] else []
  }

  function WireFinishes(w: WireChunk): seq<string> {
    FlatMap(ChoiceFinishes, w.choices)
  }

  /** The stop reasons among the events, each followed by the end of the message. */
  function EventStops(e: ClaudeEvent): seq<string> {
    if e.MessageDelta? then [e.stopReason] else []
  }

  function EventEnds(e: ClaudeEvent): seq<bool> {
    if e.MessageStop? then [true] else []
  }

  function ChunkRoles(c: Chunk): seq<string> {
    if c.role != "" then [c.role] else []
  }

  function ChoiceRoles(c: Choice): seq<string> {
    if c.role != "" then [c.role] else []
  }

  function WireRoles(w: WireChunk): seq<string> {
    FlatMap(ChoiceRoles, w.choices)
  }

  function EventRoles(e: ClaudeEvent): seq<string> {
    if e.MessageStart? then [e.role] else []
  }

  lemma SmallFinishes(chunks: seq<Chunk>)
    requires |chunks| <= 1
    ensures FlatMap(ChunkFinishes, chunks) == if chunks == [] then [] else ChunkFinishes(chunks[0])
    ensures FlatMap(ChunkRoles, chunks) == if chunks == [] then [] else ChunkRoles(chunks[0])
  {
    if chunks != [] {
      assert chunks == [chunks[0]];
      FlatMapOne(ChunkFinishes, chunks[0]);
      FlatMapOne(ChunkRoles, chunks[0]);
    }
  }

  lemma {:induction false} CallChunksFinish(s: State, calls: seq<WireCall>)
    ensures FlatMap(ChunkFinishes, O.CallChunks(s, calls)) == []
    ensures FlatMap(ChunkRoles, O.CallChunks(s, calls)) == []
  {
    if calls != [] {
      var init, last := calls[..|calls| - 1], calls[|calls| - 1];
      CallChunksFinish(s, init);
      FlatMapAppend(ChunkFinishes, O.CallChunks(s, init), [O.CallChunk(s, last)]);
      FlatMapAppend(ChunkRoles, O.CallChunks(s, init), [O.CallChunk(s, last)]);
      SmallFinishes([O.CallChunk(s, last)]);
    }
  }

  lemma SaidPartsFinish(s: State, c: Choice)
    ensures FlatMap(ChunkFinishes, O.TextChunks(s, c)) == [] && FlatMap(ChunkFinishes, O.ThinkingChunks(s, c)) == []
  {
    SmallFinishes(O.TextChunks(s, c));
    SmallFinishes(O.ThinkingChunks(s, c));
  }

  lemma SmallPartsFinish(s: State, c: Choice)
    ensures FlatMap(ChunkFinishes, O.RoleChunks(s, c)) == []
    ensures FlatMap(ChunkFinishes, O.FinishChunks(s, c)) == ChoiceFinishes(c)
  {
    SmallFinishes(O.RoleChunks(s, c));
    SmallFinishes(O.FinishChunks(s, c));
  }

  lemma SmallPartsBegin(s: State, c: Choice)
    ensures FlatMap(ChunkRoles, O.RoleChunks(s, c)) == ChoiceRoles(c)
    ensures FlatMap(ChunkRoles, O.FinishChunks(s, c)) == []
  {
    SmallFinishes(O.RoleChunks(s, c));
    SmallFinishes(O.FinishChunks(s, c));
  }

  lemma SaidPartsBegin(s: State, c: Choice)
    ensures FlatMap(ChunkRoles, O.TextChunks(s, c)) == [] && FlatMap(ChunkRoles, O.ThinkingChunks(s, c)) == []
  {
    SmallFinishes(O.TextChunks(s, c));
    SmallFinishes(O.ThinkingChunks(s, c));
  }

  lemma FlatMapFive<T>(of: Chunk -> seq<T>, a: seq<Chunk>, b: seq<Chunk>, c: seq<Chunk>, d: seq<Chunk>, e: seq<Chunk>)
    ensures FlatMap(of, a + b + c + d + e)
         == FlatMap(of, a) + FlatMap(of, b) + FlatMap(of, c) + FlatMap(of, d) + FlatMap(of, e)
  {
    FlatMapAppend(of, a, b);
    FlatMapAppend(of, a + b, c);
    FlatMapAppend(of, a + b + c, d);
    FlatMapAppend(of, a + b + c + d, e);
  }

  lemma ChoiceChunksFinish(s: State, c: Choice)
    ensures FlatMap(ChunkFinishes, O.ChoiceChunks(s, c)) == ChoiceFinishes(c)
    ensures FlatMap(ChunkRoles, O.ChoiceChunks(s, c)) == ChoiceRoles(c)
  {
    SmallPartsFinish(s, c);
    SaidPartsFinish(s, c);
    SmallPartsBegin(s, c);
    SaidPartsBegin(s, c);
    CallChunksFinish(s, c.calls);
    var role, text, thinking := O.RoleChunks(s, c), O.TextChunks(s, c), O.ThinkingChunks(s, c);
    FlatMapFive(ChunkFinishes, role, text, thinking, O.CallChunks(s, c.calls), O.FinishChunks(s, c));
    FlatMapFive(ChunkRoles, role, text, thinking, O.CallChunks(s, c.calls), O.FinishChunks(s, c));
  }

  /** What the reader keeps of every choice it keeps of all of them. */
  ghost predicate Keeps<T(!new)>(of: Chunk -> seq<T>, said: Choice -> seq<T>) {
    && (forall s: State, c: Choice :: FlatMap(of, O.ChoiceChunks(s, c)) == said(c))
    && (forall s: State, w: WireChunk :: FlatMap(of, O.UsageChunks(s, w)) == [])
  }

  lemma {:induction false} AllChoicesKeep<T(!new)>(of: Chunk -> seq<T>, said: Choice -> seq<T>, s: State,
                                                   choices: seq<Choice>)
    requires Keeps(of, said)
    ensures FlatMap(of, O.AllChoiceChunks(s, choices)) == FlatMap(said, choices)
  {
    if choices != [] {
      var init, last := choices[..|choices| - 1], choices[|choices| - 1];
      AllChoicesKeep(of, said, s, init);
      FlatMapAppend(of, O.AllChoiceChunks(s, init), O.ChoiceChunks(s, last));
    }
  }

  lemma {:induction false} ReadKeeps<T(!new)>(of: Chunk -> seq<T>, said: Choice -> seq<T>, whole: WireChunk -> seq<T>,
                                              wires: seq<WireChunk>)
    requires Keeps(of, said) && forall w: WireChunk :: whole(w) == FlatMap(said, w.choices)
    ensures FlatMap(of, O.ReadChunks(wires)) == FlatMap(whole, wires)
  {
    if wires != [] {
      var init, w := wires[..|wires| - 1], wires[|wires| - 1];
      ReadKeeps(of, said, whole, init);
      var s := O.ReadState(init);
      var t := O.Named(s, w);
      AllChoicesKeep(of, said, t, w.choices);
      FlatMapAppend(of, O.AllChoiceChunks(t, w.choices), O.UsageChunks(t, w));
      FlatMapAppend(of, O.ReadChunks(init), O.ChunksOf(s, w));
    }
  }

  /** The reader keeps every role and every finish, in order. */
  lemma {:induction false} ReadFinishes(wires: seq<WireChunk>)
    ensures FlatMap(ChunkFinishes, O.ReadChunks(wires)) == FlatMap(WireFinishes, wires)
    ensures FlatMap(ChunkRoles, O.ReadChunks(wires)) == FlatMap(WireRoles, wires)
  {
    forall s: State, c: Choice
      ensures FlatMap(ChunkFinishes, O.ChoiceChunks(s, c)) == ChoiceFinishes(c)
      ensures FlatMap(ChunkRoles, O.ChoiceChunks(s, c)) == ChoiceRoles(c)
    {
      ChoiceChunksFinish(s, c);
    }
    forall s: State, w: WireChunk
      ensures FlatMap(ChunkFinishes, O.UsageChunks(s, w)) == [] && FlatMap(ChunkRoles, O.UsageChunks(s, w)) == []
    {
      SmallFinishes(O.UsageChunks(s, w));
    }
    ReadKeeps(ChunkFinishes, ChoiceFinishes, WireFinishes, wires);
    ReadKeeps(ChunkRoles, ChoiceRoles, WireRoles, wires);
  }

  lemma PrintedChunkFinishes(c: Chunk, i: int)
    ensures WireFinishes(O.PrintedChunk(c, i)) == ChunkFinishes(c)
  {
    FlatMapOne(ChoiceFinishes, O.PrintedChoice(c, i));
  }

  lemma OnlyStopFinishes(s: State, e: ClaudeEvent)
    requires e != MessageStop
    ensures FlatMap(ChunkFinishes, C.ChunksOf(s, e)) == []
  {
    SmallFinishes(C.ChunksOf(s, e));
  }

  lemma {:induction false} ReadsNoFinish(events: seq<ClaudeEvent>)
    requires MessageStop !in events
    ensures FlatMap(ChunkFinishes, C.ReadChunks(events)) == []
  {
    if events != [] {
      var init, e := events[..|events| - 1], events[|events| - 1];
      assert events == init + [e];
      ReadsNoFinish(init);
      OnlyStopFinishes(C.ReadState(init), e);
      FlatMapAppend(ChunkFinishes, C.ReadChunks(init), C.ChunksOf(C.ReadState(init), e));
    }
  }

  /** Before the message stop an OpenAI client is given no finish. */
  lemma {:induction false} NoFinishBeforeStop(events: seq<ClaudeEvent>)
    requires MessageStop !in events
    ensures FlatMap(WireFinishes, ClaudeAsOpenAI(events)) == []
  {
    ReadsNoFinish(events);
    forall c: Chunk, i: int
      ensures WireFinishes(O.PrintedChunk(c, i)) == ChunkFinishes(c)
    {
      PrintedChunkFinishes(c, i);
    }
    PrintSays(WireFinishes, ChunkFinishes, C.ReadChunks(events));
  }

  function Stopping(finish: string): seq<string> {
    [C.StopReasonOf(finish)]
  }

  function Ending(finish: string): seq<bool> {
    [true]
  }

  lemma {:induction false} QuietStops(events: seq<ClaudeEvent>)
    requires forall i :: 0 <= i < |events| ==> !events[i].MessageDelta? && !events[i].MessageStop?
    ensures FlatMap(EventStops, events) == [] && FlatMap(EventEnds, events) == []
  {
    FlatMapEmpty(EventStops, events);
    FlatMapEmpty(EventEnds, events);
  }

  lemma PrintedEventsBegin(s: State, c: Chunk)
    ensures FlatMap(EventRoles, C.PrintedEvents(s, c)) == ChunkRoles(c)
  {
    if c.role != "" {
      FlatMapOne(EventRoles, C.PrintedEvents(s, c)[0]);
      assert C.PrintedEvents(s, c) == [C.PrintedEvents(s, c)[0]];
    } else {
      FlatMapEmpty(EventRoles, C.PrintedEvents(s, c));
    }
  }

  lemma {:induction false} PrintedStreamBegins(chunks: seq<Chunk>)
    ensures FlatMap(EventRoles, C.PrintedStream(chunks)) == FlatMap(ChunkRoles, chunks)
  {
    if chunks != [] {
      var init, c := chunks[..|chunks| - 1], chunks[|chunks| - 1];
      PrintedStreamBegins(init);
      PrintedEventsBegin(C.PrintState(init), c);
      FlatMapAppend(EventRoles, C.PrintedStream(init), C.PrintedEvents(C.PrintState(init), c));
    }
  }

  /** Of every OpenAI stream a Claude client is given one message start for each role, in order. */
  lemma {:induction false} ClaudeClientHearsRoles(wires: seq<WireChunk>)
    ensures FlatMap(EventRoles, OpenAIAsClaude(wires)) == FlatMap(WireRoles, wires)
  {
    ReadFinishes(wires);
    PrintedStreamBegins(O.ReadChunks(wires));
  }

  lemma FinishStops(s: State, c: Chunk)
    ensures FlatMap(EventStops, C.PrintedFinish(s, c)) == [C.StopReasonOf(c.finishReason)]
    ensures FlatMap(EventEnds, C.PrintedFinish(s, c)) == [true]
  {
    var events := C.PrintedFinish(s, c);
    var n := |events| - 2;
    var quiet, delta := events[..n], events[n];
    assert events == quiet + [delta] + [MessageStop];
    QuietStops(quiet);
    FlatMapAppend(EventStops, quiet, [delta]);
    FlatMapAppend(EventStops, quiet + [delta], [MessageStop]);
    FlatMapAppend(EventEnds, quiet, [delta]);
    FlatMapAppend(EventEnds, quiet + [delta], [MessageStop]);
    FlatMapOne(EventStops, delta);
    FlatMapOne(EventEnds, delta);
    FlatMapOne(EventStops, ClaudeEvent.MessageStop);
    FlatMapOne(EventEnds, ClaudeEvent.MessageStop);
  }

  lemma PrintedEventsStop(s: State, c: Chunk)
    requires SaysOneThing(c)
    ensures FlatMap(EventStops, C.PrintedEvents(s, c)) == FlatMap(Stopping, ChunkFinishes(c))
    ensures FlatMap(EventEnds, C.PrintedEvents(s, c)) == FlatMap(Ending, ChunkFinishes(c))
  {
    if c.finishReason != "" {
      FinishStops(s, c);
      FlatMapOne(Stopping, c.finishReason);
      FlatMapOne(Ending, c.finishReason);
    } else {
      QuietStops(C.PrintedEvents(s, c));
    }
  }

  lemma {:induction false} PrintedStreamStops(chunks: seq<Chunk>)
    requires forall c :: c in chunks ==> SaysOneThing(c)
    ensures FlatMap(EventStops, C.PrintedStream(chunks)) == FlatMap(Stopping, FlatMap(ChunkFinishes, chunks))
    ensures FlatMap(EventEnds, C.PrintedStream(chunks)) == FlatMap(Ending, FlatMap(ChunkFinishes, chunks))
  {
    if chunks != [] {
      var init, c := chunks[..|chunks| - 1], chunks[|chunks| - 1];
      PrintedStreamStops(init);
      var s := C.PrintState(init);
      PrintedEventsStop(s, c);
      FlatMapAppend(EventStops, C.PrintedStream(init), C.PrintedEvents(s, c));
      FlatMapAppend(EventEnds, C.PrintedStream(init), C.PrintedEvents(s, c));
      FlatMapAppend(Stopping, FlatMap(ChunkFinishes, init), ChunkFinishes(c));
      FlatMapAppend(Ending, FlatMap(ChunkFinishes, init), ChunkFinishes(c));
    }
  }

  lemma {:induction false} StopsAreFor(finishes: seq<string>)
    ensures var stops := FlatMap(Stopping, finishes);
      |stops| == |finishes| && forall i :: 0 <= i < |finishes| ==> IsStopFor(finishes[i], stops[i])
    ensures |FlatMap(Ending, finishes)| == |finishes|
  {
    if finishes != [] {
      StopsAreFor(finishes[..|finishes| - 1]);
      StopIsFor(finishes[|finishes| - 1]);
    }
  }

  /** Of every OpenAI stream a Claude client is given, for each finish in order, the stop reason for
      it, and one end of message. */
  lemma {:induction false} ClaudeClientHearsStops(wires: seq<WireChunk>)
    ensures var finishes, stops := FlatMap(WireFinishes, wires), FlatMap(EventStops, OpenAIAsClaude(wires));
      && |stops| == |finishes| == |FlatMap(EventEnds, OpenAIAsClaude(wires))|
      && forall i :: 0 <= i < |finishes| ==> IsStopFor(finishes[i], stops[i])
  {
    ReadChunksSayOne(wires);
    PrintedStreamStops(O.ReadChunks(wires));
    ReadFinishes(wires);
    StopsAreFor(FlatMap(WireFinishes, wires));
  }

  // ----- Usage, from an OpenAI upstream -----

  function ChunkUsages(c: Chunk): seq<(int, int, int)> {
    if c.usage.Some? then [(c.usage.value.prompt, c.usage.value.completion, c.usage.value.total)] else []
  }

  function WireUsages(w: WireChunk): seq<(int, int, int)> {
    if w.usage.Some? then [(w.usage.value.prompt, w.usage.value.completion, w.usage.value.total)] else []
  }

  lemma {:induction false} ChoicesUseNothing(s: State, choices: seq<Choice>)
    ensures forall c :: c in O.AllChoiceChunks(s, choices) ==> c.usage.None?
  {
    if choices != [] {
      ChoicesUseNothing(s, choices[..|choices| - 1]);
      CallsUseNothing(s, choices[|choices| - 1].calls);
    }
  }

  lemma {:induction false} CallsUseNothing(s: State, calls: seq<WireCall>)
    ensures forall c :: c in O.CallChunks(s, calls) ==> c.usage.None?
  {
    if calls != [] {
      CallsUseNothing(s, calls[..|calls| - 1]);
    }
  }

  lemma WireUsageIsRead(s: State, w: WireChunk)
    ensures FlatMap(ChunkUsages, O.ChunksOf(s, w)) == WireUsages(w)
  {
    var t := O.Named(s, w);
    var said := O.AllChoiceChunks(t, w.choices);
    ChoicesUseNothing(t, w.choices);
    assert forall i :: 0 <= i < |said| ==> said[i] in said;
    FlatMapEmpty(ChunkUsages, said);
    FlatMapAppend(ChunkUsages, said, O.UsageChunks(t, w));
    if w.usage.Some? {
      FlatMapOne(ChunkUsages, O.UsageChunks(t, w)[0]);
    }
  }

  /** The reader keeps the tokens every wire chunk states, in order. */
  lemma {:induction false} UsagesAreRead(wires: seq<WireChunk>)
    ensures FlatMap(ChunkUsages, O.ReadChunks(wires)) == FlatMap(WireUsages, wires)
  {
    if wires != [] {
      var init, w := wires[..|wires| - 1], wires[|wires| - 1];
      UsagesAreRead(init);
      WireUsageIsRead(O.ReadState(init), w);
      FlatMapAppend(ChunkUsages, O.ReadChunks(init), O.ChunksOf(O.ReadState(init), w));
    }
  }
}
