/** An OpenAI stream on its way to a Claude client, bytes included. */
module StreamDelivery {
  import opened EventFraming
  import opened Flattening
  import opened Streams
  import opened StreamRelay
  import C = ClaudeStream
  import M = StreamMeaning
  import O = OpenAIStream
  import S = Sse

  // Chunks are translated, marshalled, combined into payloads, taken apart again, printed as
  // server-sent events, and read by the client.

  /** Every event becomes a JSON object on one line. */
  ghost predicate MarshalsToLines(marshal: ClaudeEvent -> string) {
    forall e :: IsLine(marshal(e)) && marshal(e) != S.DONE
  }

  function Marshalled(events: seq<ClaudeEvent>, marshal: ClaudeEvent -> string): seq<string> {
    seq(|events|, i requires 0 <= i < |events| => marshal(events[i]))
  }

  function AsChunks(payloads: seq<string>): seq<S.Event> {
    seq(|payloads|, i requires 0 <= i < |payloads| => S.ChunkOf(payloads[i]))
  }

  /** What is written for some Claude events. */
  function Written(events: seq<ClaudeEvent>, marshal: ClaudeEvent -> string): seq<S.Event> {
    AsChunks(Marshalled(events, marshal))
  }

  /** What is written for a whole stream. */
  function Payloads(wires: seq<WireChunk>, marshal: ClaudeEvent -> string): seq<S.Event> {
    Written(M.OpenAIAsClaude(wires), marshal) + [S.ChunkOf(S.DONE)]
  }

  lemma WrittenTogether(a: seq<ClaudeEvent>, b: seq<ClaudeEvent>, marshal: ClaudeEvent -> string)
    ensures S.Printed(Written(a + b, marshal)) == S.Printed(Written(a, marshal)) + S.Printed(Written(b, marshal))
  {
    assert Written(a + b, marshal) == Written(a, marshal) + Written(b, marshal);
    S.PrintedAppend(Written(a, marshal), Written(b, marshal));
  }

  // ----- The server's side -----

  lemma PrintedNext(payloads: seq<string>, i: nat)
    requires i < |payloads|
    ensures S.Printed(AsChunks(payloads[..i + 1]))
         == S.Printed(AsChunks(payloads[..i])) + S.Unlines(S.EventLines(S.ChunkOf(payloads[i])))
  {
    var last := [S.ChunkOf(payloads[i])];
    assert AsChunks(payloads[..i + 1]) == AsChunks(payloads[..i]) + last;
    S.PrintedAppend(AsChunks(payloads[..i]), last);
    assert last[1..] == [];
  }

  method WritePayloads(w: S.ResponseWriter, payloads: seq<string>)
    requires forall i :: 0 <= i < |payloads| ==> '\n' !in payloads[i]
    modifies w
    ensures w.body == old(w.body) + S.Printed(AsChunks(payloads))
  {
    ghost var start := w.body;
    for i := 0 to |payloads|
      invariant w.body == start + S.Printed(AsChunks(payloads[..i]))
    {
      PrintedNext(payloads, i);
      w.WriteChunk(payloads[i]);
      Associative(start, S.Printed(AsChunks(payloads[..i])), S.Unlines(S.EventLines(S.ChunkOf(payloads[i]))));
    }
    assert payloads[..|payloads|] == payloads;
  }

  /** Writes the events one chunk is printed as: combined, taken apart again, one payload each. */
  method WriteEvents(w: S.ResponseWriter, events: seq<ClaudeEvent>, marshal: ClaudeEvent -> string)
    requires MarshalsToLines(marshal)
    modifies w
    ensures w.body == old(w.body) + S.Printed(Written(events, marshal))
  {
    var data := CombineEvents(Marshalled(events, marshal));
    var payloads := SplitEvents(data);
    SeparatedUndoesCombined(Marshalled(events, marshal));
    WritePayloads(w, payloads);
  }

  /** The first i chunks after those sent before have been written. */
  ghost predicate HasWritten(w: S.ResponseWriter, client: StreamState, sent: seq<Chunk>, chunks: seq<Chunk>, i: nat,
                             marshal: ClaudeEvent -> string)
    reads w, client
  {
    && i <= |chunks|
    && client.Value() == C.PrintState(sent + chunks[..i])
    && w.body == S.Printed(Written(C.PrintedStream(sent + chunks[..i]), marshal))
  }

  method WriteOne(w: S.ResponseWriter, client: StreamState, ghost sent: seq<Chunk>, chunks: seq<Chunk>, i: nat,
                  marshal: ClaudeEvent -> string)
    requires MarshalsToLines(marshal) && i < |chunks| && HasWritten(w, client, sent, chunks, i, marshal)
    modifies w, client
    ensures HasWritten(w, client, sent, chunks, i + 1, marshal)
  {
    ClaudeStateAt(sent, chunks, i);
    var events := client.PrintClaude(chunks[i]);
    WrittenTogether(C.PrintedStream(sent + chunks[..i]), events, marshal);
    WriteEvents(w, events, marshal);
  }

  method WriteChunks(w: S.ResponseWriter, client: StreamState, ghost sent: seq<Chunk>, chunks: seq<Chunk>,
                     marshal: ClaudeEvent -> string)
    requires MarshalsToLines(marshal) && HasWritten(w, client, sent, chunks, 0, marshal)
    modifies w, client
    ensures HasWritten(w, client, sent, chunks, |chunks|, marshal)
  {
    for i := 0 to |chunks|
      invariant HasWritten(w, client, sent, chunks, i, marshal)
    {
      WriteOne(w, client, sent, chunks, i, marshal);
    }
  }

  /** The first i wire chunks have been streamed. */
  ghost predicate HasStreamed(w: S.ResponseWriter, upstream: StreamState, client: StreamState, wires: seq<WireChunk>,
                              i: nat, marshal: ClaudeEvent -> string)
    reads w, upstream, client
  {
    && i <= |wires|
    && upstream.Value() == O.ReadState(wires[..i])
    && client.Value() == C.PrintState(O.ReadChunks(wires[..i]))
    && w.body == S.Printed(Written(C.PrintedStream(O.ReadChunks(wires[..i])), marshal))
  }

  method StreamOne(w: S.ResponseWriter, upstream: StreamState, client: StreamState, wires: seq<WireChunk>, i: nat,
                   marshal: ClaudeEvent -> string)
    requires MarshalsToLines(marshal) && i < |wires| && upstream != client
    requires HasStreamed(w, upstream, client, wires, i, marshal)
    modifies w, upstream, client
    ensures HasStreamed(w, upstream, client, wires, i + 1, marshal)
  {
    WireNext(wires, i);
    ghost var sent := O.ReadChunks(wires[..i]);
    var chunks := upstream.ReadOpenAI(wires[i]);
    AllOrNone(sent, chunks);
    WriteChunks(w, client, sent, chunks, marshal);
  }

  lemma WireNext(wires: seq<WireChunk>, i: nat)
    requires i < |wires|
    ensures O.ReadState(wires[..i + 1]) == O.AfterWire(O.ReadState(wires[..i]), wires[i])
    ensures O.ReadChunks(wires[..i + 1]) == O.ReadChunks(wires[..i]) + O.ChunksOf(O.ReadState(wires[..i]), wires[i])
  {
    assert wires[..i + 1][..i] == wires[..i];
  }

  lemma AllOrNone(sent: seq<Chunk>, chunks: seq<Chunk>)
    ensures sent + chunks[..0] == sent && sent + chunks[..|chunks|] == sent + chunks
  {
  }

  method StreamAll(w: S.ResponseWriter, upstream: StreamState, client: StreamState, wires: seq<WireChunk>,
                   marshal: ClaudeEvent -> string)
    requires MarshalsToLines(marshal) && upstream != client
    requires HasStreamed(w, upstream, client, wires, 0, marshal)
    modifies w, upstream, client
    ensures w.body == S.Printed(Written(M.OpenAIAsClaude(wires), marshal))
  {
    for i := 0 to |wires|
      invariant HasStreamed(w, upstream, client, wires, i, marshal)
    {
      StreamOne(w, upstream, client, wires, i, marshal);
    }
    assert wires[..|wires|] == wires;
  }

  /** Writes the closing [DONE]. */
  method WriteDone(w: S.ResponseWriter, ghost events: seq<S.Event>)
    requires w.body == S.Printed(events)
    modifies w
    ensures w.body == S.Printed(events + [S.ChunkOf(S.DONE)])
  {
    ghost var last := [S.ChunkOf(S.DONE)];
    S.PrintedAppend(events, last);
    assert last[1..] == [];
    w.WriteChunk(S.DONE);
  }

  /** Streams an OpenAI upstream to a Claude client. */
  method StreamResponse(wires: seq<WireChunk>, marshal: ClaudeEvent -> string) returns (body: string)
    requires MarshalsToLines(marshal)
    ensures body == S.Printed(Payloads(wires, marshal))
  {
    var w := new S.ResponseWriter();
    var upstream := new StreamState();
    var client := new StreamState();
    StreamAll(w, upstream, client, wires, marshal);
    WriteDone(w, Written(M.OpenAIAsClaude(wires), marshal));
    body := w.body;
  }

  // ----- The client's side -----

  /** The events the client finds in what it read, up to the closing one. */
  function Unmarshalled(read: seq<S.Event>, unmarshal: string -> ClaudeEvent): seq<ClaudeEvent> {
    if read == [] || S.IsDone(read[0]) then [] else [unmarshal(read[0].data)] + Unmarshalled(read[1..], unmarshal)
  }

  lemma LineIsPlain(payload: string)
    requires IsLine(payload)
    ensures S.IsPlain(S.ChunkOf(payload))
  {
    Text.SplitOnePart(payload, '\n');
  }

  lemma PayloadIsPlain(events: seq<ClaudeEvent>, marshal: ClaudeEvent -> string, i: nat)
    requires MarshalsToLines(marshal) && i <= |events|
    ensures var e := (Written(events, marshal) + [S.ChunkOf(S.DONE)])[i];
      S.IsPlain(e) && (i < |events| ==> !S.IsDone(e))
  {
    LineIsPlain(if i < |events| then marshal(events[i]) else S.DONE);
  }

  /** Everything written is read back as it was. */
  lemma PayloadsAreRead(wires: seq<WireChunk>, marshal: ClaudeEvent -> string)
    requires MarshalsToLines(marshal)
    ensures S.Read(S.Printed(Payloads(wires, marshal))) == Payloads(wires, marshal)
  {
    var events, written := M.OpenAIAsClaude(wires), Payloads(wires, marshal);
    forall i | 0 <= i < |written|
      ensures S.IsPlain(written[i]) && (i < |written| - 1 ==> !S.IsDone(written[i]))
    {
      PayloadIsPlain(events, marshal, i);
    }
    S.RoundTripExactlyWhen(written);
  }

  lemma {:induction false} UnmarshalsBack(events: seq<ClaudeEvent>, marshal: ClaudeEvent -> string,
                                          unmarshal: string -> ClaudeEvent)
    requires MarshalsToLines(marshal) && forall e :: unmarshal(marshal(e)) == e
    ensures Unmarshalled(Written(events, marshal) + [S.ChunkOf(S.DONE)], unmarshal) == events
  {
    var read := Written(events, marshal) + [S.ChunkOf(S.DONE)];
    if events != [] {
      assert read[0] == S.ChunkOf(marshal(events[0]));
      assert read[1..] == Written(events[1..], marshal) + [S.ChunkOf(S.DONE)];
      UnmarshalsBack(events[1..], marshal, unmarshal);
      assert unmarshal(marshal(events[0])) == events[0];
    }
  }

  /** From the bytes it is sent, a client gets exactly the events of the translation, and in them all
      the text and all the thinking of the upstream. */
  lemma {:induction false} ClientHears(wires: seq<WireChunk>, marshal: ClaudeEvent -> string,
                                       unmarshal: string -> ClaudeEvent)
    requires MarshalsToLines(marshal) && forall e :: unmarshal(marshal(e)) == e
    ensures var heard := Unmarshalled(S.Read(S.Printed(Payloads(wires, marshal))), unmarshal);
      && heard == M.OpenAIAsClaude(wires)
      && FlatMap(EventText, heard) == FlatMap(M.WireText, wires)
      && FlatMap(EventThinking, heard) == FlatMap(M.WireThinking, wires)
  {
    PayloadsAreRead(wires, marshal);
    UnmarshalsBack(M.OpenAIAsClaude(wires), marshal, unmarshal);
    M.OpenAIStreamIsHeard(wires);
  }
}
