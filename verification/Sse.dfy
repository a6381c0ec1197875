/** Server-sent events, section 9.2.6 of the WHATWG HTML standard. */
module Sse {
  import opened Options
  import opened Text

  type Int64 = n: int | -MAX_INT64 - 1 <= n <= MAX_INT64

  datatype Event = Event(kind: string, data: string, id: string, retry: Int64)

  const DONE := "[DONE]"

  predicate IsDone(e: Event) {
    e.data == DONE
  }

  // ----- Printing -----

  function FieldText(name: string, value: string): string {
    name + ": " + value
  }

  function DataLines(lines: seq<string>): seq<string> {
    if lines == [] then [] else [FieldText("data", lines[0])] + DataLines(lines[1..])
  }

  function HeadLines(e: Event): seq<string> {
    (if e.id != "" then [FieldText("id", e.id)] else [])
    + (if e.kind != "" then [FieldText("event", e.kind)] else [])
    + (if e.retry > 0 then [FieldText("retry", Decimal(e.retry))] else [])
  }

  /** The lines of one event, the blank one that ends it included. */
  function EventLines(e: Event): seq<string> {
    HeadLines(e) + DataLines(Split(e.data, '\n')) + [""]
  }

  function Unlines(lines: seq<string>): string {
    if lines == [] then "" else lines[0] + "\n" + Unlines(lines[1..])
  }

  function Printed(events: seq<Event>): string {
    if events == [] then "" else Unlines(EventLines(events[0])) + Printed(events[1..])
  }

  class ResponseWriter {
    var body: string

    constructor ()
      ensures body == ""
    {
      body := "";
    }

    /** Prints one line; `written` are the lines printed since the body was `start`. */
    method Print(line: string, ghost start: string, ghost written: seq<string>) returns (ghost more: seq<string>)
      requires body == start + Unlines(written)
      modifies this
      ensures more == written + [line] && body == start + Unlines(more)
    {
      UnlinesSnoc(written, line);
      body := body + line + "\n";
      more := written + [line];
    }

    method WriteHead(e: Event)
      modifies this
      ensures body == old(body) + Unlines(HeadLines(e))
    {
      ghost var start, written := body, [];
      if e.id != "" {
        written := Print(FieldText("id", e.id), start, written);
      }
      if e.kind != "" {
        written := Print(FieldText("event", e.kind), start, written);
      }
      if e.retry > 0 {
        written := Print(FieldText("retry", Decimal(e.retry)), start, written);
      }
      assert written == HeadLines(e);
    }

    method WriteEvent(e: Event)
      modifies this
      ensures body == old(body) + Unlines(EventLines(e))
    {
      ghost var start, written := body, HeadLines(e);
      WriteHead(e);
      var lines := Split(e.data, '\n');
      var k := 0;
      while k < |lines|
        invariant 0 <= k <= |lines| && written == HeadLines(e) + DataLines(lines[..k])
        invariant body == start + Unlines(written)
      {
        written := Print(FieldText("data", lines[k]), start, written);
        DataLinesSnoc(lines, k);
        k := k + 1;
      }
      assert lines[..k] == lines;
      written := Print("", start, written);
    }

    /** Appends a payload as it is; on one line, that is the event with that data and nothing else. */
    method WriteChunk(data: string)
      modifies this
      ensures body == old(body) + FieldText("data", data) + "\n\n"
      ensures '\n' !in data ==> body == old(body) + Unlines(EventLines(ChunkOf(data)))
    {
      body := body + FieldText("data", data) + "\n\n";
      if '\n' !in data {
        ChunkLines(data);
        assert old(body) + FieldText("data", data) + "\n\n" == old(body) + (FieldText("data", data) + "\n\n");
      }
    }
  }

  /** An event of which only the data is printed. */
  function ChunkOf(data: string): Event {
    Event("", data, "", 0)
  }

  lemma ChunkLines(data: string)
    requires '\n' !in data
    ensures Unlines(EventLines(ChunkOf(data))) == FieldText("data", data) + "\n\n"
  {
    SplitOnePart(data, '\n');
    var line := FieldText("data", data);
    assert [data][1..] == [] && DataLines([data]) == [line];
    assert HeadLines(ChunkOf(data)) == [];
    assert EventLines(ChunkOf(data)) == [] + [line] + [""] == [line, ""];
    assert [line, ""][1..] == [""] && [""][1..] == [];
  }

  lemma {:induction false} PrintedAppend(a: seq<Event>, b: seq<Event>)
    ensures Printed(a + b) == Printed(a) + Printed(b)
  {
    if a == [] {
      assert a + b == b;
    } else {
      assert (a + b)[1..] == a[1..] + b;
      PrintedAppend(a[1..], b);
    }
  }

  lemma {:induction false} UnlinesSnoc(lines: seq<string>, last: string)
    ensures Unlines(lines + [last]) == Unlines(lines) + last + "\n"
  {
    if lines != [] {
      assert (lines + [last])[1..] == lines[1..] + [last];
      UnlinesSnoc(lines[1..], last);
    }
  }

  lemma {:induction false} DataLinesSnoc(lines: seq<string>, k: nat)
    requires k < |lines|
    ensures DataLines(lines[..k + 1]) == DataLines(lines[..k]) + [FieldText("data", lines[k])]
  {
    DataLinesAppend(lines[..k], lines[k]);
    assert lines[..k + 1] == lines[..k] + [lines[k]];
  }

  lemma {:induction false} DataLinesAppend(lines: seq<string>, last: string)
    ensures DataLines(lines + [last]) == DataLines(lines) + [FieldText("data", last)]
  {
    var all := lines + [last];
    if lines == [] {
      assert all[0] == last && all[1..] == [];
    } else {
      DataLinesAppend(lines[1..], last);
      assert all[0] == lines[0] && all[1..] == lines[1..] + [last];
    }
  }

  // ----- Scanning and parsing -----

  /** The scanner strips one trailing carriage return from every line. */
  function DropCR(line: string): string {
    if line != "" && line[|line| - 1] == '\r' then line[..|line| - 1] else line
  }

  function DropAll(lines: seq<string>): seq<string> {
    if lines == [] then [] else [DropCR(lines[0])] + DropAll(lines[1..])
  }

  /** The lines of a text; a final piece without a newline counts unless it is empty. */
  function ScanLines(text: string): seq<string> {
    var pieces := Split(text, '\n');
    DropAll(if pieces[|pieces| - 1] == "" then pieces[..|pieces| - 1] else pieces)
  }

  function IndexOf(s: string, c: char): (i: int)
    ensures -1 <= i < |s|
  {
    if s == "" then -1
    else if s[0] == c then 0
    else
      var i := IndexOf(s[1..], c);
      if i < 0 then -1 else i + 1
  }

  /** Field name and value around the first colon, one leading space removed. */
  function ParseField(line: string): (string, string) {
    var i := IndexOf(line, ':');
    if i < 0 then (line, "")
    else
      var value := line[i + 1..];
      (line[..i], if value != "" && value[0] == ' ' then value[1..] else value)
  }

  /** The accumulators of the event being read. */
  datatype Pending = Pending(kind: string, data: seq<string>, id: string, retry: Int64)

  const NOTHING := Pending("", [], "", 0)

  function Complete(p: Pending): Event {
    Event(p.kind, Join(p.data, '\n'), p.id, p.retry)
  }

  datatype Field = DataField | EventField | IdField | RetryField | Unknown

  function FieldOf(name: string): Field {
    if name == "data" then DataField
    else if name == "event" then EventField
    else if name == "id" then IdField
    else if name == "retry" then RetryField
    else Unknown
  }

  function Take(p: Pending, field: Field, value: string): Pending {
    match field
    case DataField => p.(data := p.data + [value])
    case EventField => p.(kind := value)
    case IdField => p.(id := value)
    case RetryField => p.(retry := RetryOr(value, p.retry))
    case Unknown => p
  }

  /** A retry value that is not a number is ignored. */
  function RetryOr(value: string, otherwise: Int64): Int64 {
    var n := Atoi(TrimSpace(value));
    if n.Some? then n.value else otherwise
  }

  /** The reading loop's state: `out` has been sent, `done` once [DONE] was among it. */
  datatype Reader = Reader(pending: Pending, out: seq<Event>, done: bool)

  const START := Reader(NOTHING, [], false)

  function EndOfBlock(r: Reader): Reader {
    if r.pending.data == [] then r.(pending := NOTHING)
    else Reader(NOTHING, r.out + [Complete(r.pending)], IsDone(Complete(r.pending)))
  }

  function StepLine(r: Reader, line: string): Reader {
    if r.done then r
    else if line == "" then EndOfBlock(r)
    else if line[0] == ':' then r
    else
      var (field, value) := ParseField(line);
      r.(pending := Take(r.pending, FieldOf(field), value))
  }

  function Fold(r: Reader, lines: seq<string>): Reader
    decreases |lines|
  {
    if lines == [] then r else Fold(StepLine(r, lines[0]), lines[1..])
  }

  /** A trailing event without its blank line is delivered too. */
  function Flush(r: Reader): seq<Event> {
    if !r.done && r.pending.data != [] then r.out + [Complete(r.pending)] else r.out
  }

  function Read(text: string): seq<Event> {
    Flush(Fold(START, ScanLines(text)))
  }

  lemma {:induction false} FoldWhenDone(r: Reader, lines: seq<string>)
    requires r.done
    ensures Fold(r, lines) == r
    decreases |lines|
  {
    if lines != [] {
      FoldWhenDone(r, lines[1..]);
    }
  }

  method ReadStream(text: string) returns (events: seq<Event>)
    ensures events == Read(text)
  {
    var lines := ScanLines(text);
    var eventType, dataLines, id, retry := "", [], "", 0;
    events := [];
    var k := 0;
    while k < |lines|
      invariant 0 <= k <= |lines|
      invariant -MAX_INT64 - 1 <= retry <= MAX_INT64
      invariant Fold(START, lines) == Fold(Reader(Pending(eventType, dataLines, id, retry), events, false), lines[k..])
    {
      var line := lines[k];
      assert lines[k..][1..] == lines[k + 1..];
      k := k + 1;
      if line == "" {
        if |dataLines| > 0 {
          var e := Event(eventType, Join(dataLines, '\n'), id, retry);
          events := events + [e];
          if IsDone(e) {
            FoldWhenDone(Reader(NOTHING, events, true), lines[k..]);
            return;
          }
        }
        eventType, dataLines, id, retry := "", [], "", 0;
        continue;
      }
      if line[0] == ':' {
        continue;
      }
      var (field, value) := ParseField(line);
      match FieldOf(field) {
        case DataField => dataLines := dataLines + [value];
        case EventField => eventType := value;
        case IdField => id := value;
        case RetryField =>
          var n := Atoi(TrimSpace(value));
          if n.Some? {
            retry := n.value;
          }
        case Unknown =>
      }
    }
    if |dataLines| > 0 {
      events := events + [Event(eventType, Join(dataLines, '\n'), id, retry)];
    }
  }

  // ----- What the reader makes of the printer's output -----

  function PrintedRetry(retry: Int64): Int64 {
    if retry > 0 then retry else 0
  }

  /** The event as the reader gives it back: trailing carriage returns stripped from the
      type, the ID and every data line, and a retry that was not printed read as 0. */
  function Normal(e: Event): Event {
    Event(DropCR(e.kind), Join(DropAll(Split(e.data, '\n')), '\n'), DropCR(e.id), PrintedRetry(e.retry))
  }

  /** Type and ID fit on one line. */
  predicate IsFramed(e: Event) {
    '\n' !in e.kind && '\n' !in e.id
  }

  /** The events delivered: reading stops after the first [DONE]. */
  function Delivered(events: seq<Event>): seq<Event> {
    if events == [] then []
    else if IsDone(Normal(events[0])) then [Normal(events[0])]
    else [Normal(events[0])] + Delivered(events[1..])
  }

  function AllLines(events: seq<Event>): seq<string> {
    if events == [] then [] else EventLines(events[0]) + AllLines(events[1..])
  }

  lemma {:induction false} UnlinesAppend(a: seq<string>, b: seq<string>)
    ensures Unlines(a + b) == Unlines(a) + Unlines(b)
  {
    if a == [] {
      assert a + b == b;
    } else {
      assert (a + b)[1..] == a[1..] + b;
      UnlinesAppend(a[1..], b);
    }
  }

  lemma {:induction false} PrintedLines(events: seq<Event>)
    ensures Printed(events) == Unlines(AllLines(events))
  {
    if events != [] {
      PrintedLines(events[1..]);
      UnlinesAppend(EventLines(events[0]), AllLines(events[1..]));
    }
  }

  lemma {:induction false} SplitUnlines(lines: seq<string>)
    requires NoneContains(lines, '\n')
    ensures Split(Unlines(lines), '\n') == lines + [""]
  {
    if lines != [] {
      var first, rest := lines[0], lines[1..];
      assert '\n' !in first;
      assert NoneContains(rest, '\n') by {
        assert forall i :: 0 <= i < |rest| ==> rest[i] == lines[i + 1];
      }
      SplitUnlines(rest);
      SplitAfterPart(first, Unlines(rest), '\n');
      assert Unlines(lines) == first + ['\n'] + Unlines(rest);
      assert [first] + (rest + [""]) == lines + [""];
    }
  }

  lemma {:induction false} ScanUnlines(lines: seq<string>)
    requires NoneContains(lines, '\n')
    ensures ScanLines(Unlines(lines)) == DropAll(lines)
  {
    SplitUnlines(lines);
    assert (lines + [""])[..|lines|] == lines;
  }

  lemma {:induction false} DataLinesClean(lines: seq<string>)
    requires NoneContains(lines, '\n')
    ensures NoneContains(DataLines(lines), '\n')
  {
    if lines != [] {
      DataLinesClean(lines[1..]);
    }
  }

  lemma EventLinesClean(e: Event)
    requires IsFramed(e)
    ensures NoneContains(EventLines(e), '\n')
  {
    SplitIsClean(e.data, '\n');
    DataLinesClean(Split(e.data, '\n'));
    assert e.retry > 0 ==> forall i :: 0 <= i < |Decimal(e.retry)| ==> Decimal(e.retry)[i] != '\n';
  }

  lemma {:induction false} AllLinesClean(events: seq<Event>)
    requires forall i :: 0 <= i < |events| ==> IsFramed(events[i])
    ensures NoneContains(AllLines(events), '\n')
  {
    if events != [] {
      EventLinesClean(events[0]);
      AllLinesClean(events[1..]);
    }
  }

  lemma {:induction false} DropAllAppend(a: seq<string>, b: seq<string>)
    ensures DropAll(a + b) == DropAll(a) + DropAll(b)
  {
    if a == [] {
      assert a + b == b;
    } else {
      assert (a + b)[1..] == a[1..] + b;
      DropAllAppend(a[1..], b);
    }
  }

  lemma {:induction false} IndexOfFirst(s: string, c: char, k: nat)
    requires k < |s| && s[k] == c && forall i :: 0 <= i < k ==> s[i] != c
    ensures IndexOf(s, c) == k
  {
    if k > 0 {
      IndexOfFirst(s[1..], c, k - 1);
    }
  }

  /** The space after the colon may be missing, and so may the colon. */
  lemma UnspacedFieldLine(name: string, value: string)
    requires name != "" && ':' !in name && (value == "" || value[0] != ' ')
    ensures ParseField(name + ":" + value) == (name, value)
    ensures ParseField(name) == (name, "")
  {
    var line := name + ":" + value;
    IndexOfFirst(line, ':', |name|);
    assert line[..|name|] == name && line[|name| + 1..] == value;
    NoIndex(name, ':');
  }

  lemma {:induction false} NoIndex(s: string, c: char)
    requires c !in s
    ensures IndexOf(s, c) == -1
  {
    if s != "" {
      assert s[0] in s;
      NoIndex(s[1..], c);
    }
  }

  /** What a reader passes over: a comment, a field it does not know, a retry that is no number, and a
      block without data, whose type and ID go with it. */
  lemma PassedOver(r: Reader, line: string)
    requires !r.done && line != ""
    ensures line[0] == ':' ==> StepLine(r, line) == r
    ensures ParseField(line).0 !in {"data", "event", "id", "retry"} ==> StepLine(r, line) == r
    ensures ParseField(line).0 == "retry" && Atoi(TrimSpace(ParseField(line).1)).None? ==> StepLine(r, line) == r
    ensures r.pending.data == [] ==> StepLine(r, "") == Reader(NOTHING, r.out, false)
  {
  }

  /** A field line is read back as its name and its value without a trailing CR. */
  lemma FieldLine(name: string, value: string)
    requires name != "" && ':' !in name
    ensures var line := DropCR(FieldText(name, value));
            line != "" && line[0] == name[0] && ParseField(line) == (name, DropCR(value))
  {
    var full := name + ": " + value;
    var line := DropCR(full);
    assert full[|full| - 1] == if value == "" then ' ' else value[|value| - 1];
    assert line == name + ": " + DropCR(value);
    IndexOfFirst(line, ':', |name|);
    assert line[..|name|] == name && line[|name| + 1..] == " " + DropCR(value);
    assert (" " + DropCR(value))[1..] == DropCR(value);
  }

  lemma {:induction false} FoldAppend(r: Reader, a: seq<string>, b: seq<string>)
    ensures Fold(r, a + b) == Fold(Fold(r, a), b)
    decreases |a|
  {
    if a == [] {
      assert a + b == b;
    } else {
      assert (a + b)[1..] == a[1..] + b;
      FoldAppend(StepLine(r, a[0]), a[1..], b);
    }
  }

  lemma FieldNames()
    ensures FieldOf("data") == DataField && FieldOf("event") == EventField
    ensures FieldOf("id") == IdField && FieldOf("retry") == RetryField
    ensures ':' !in "data" && ':' !in "event" && ':' !in "id" && ':' !in "retry"
  {
  }

  lemma {:induction false} FoldField(r: Reader, name: string, value: string)
    requires !r.done && name != "" && ':' !in name && name[0] != ':'
    ensures Fold(r, DropAll([FieldText(name, value)])) == r.(pending := Take(r.pending, FieldOf(name), DropCR(value)))
  {
    FieldLine(name, value);
    var line := DropCR(FieldText(name, value));
    assert DropAll([FieldText(name, value)]) == [line] && [line][1..] == [];
    assert Fold(r, [line]) == Fold(StepLine(r, line), []);
  }

  function WithData(r: Reader, lines: seq<string>): Reader {
    r.(pending := r.pending.(data := r.pending.data + lines))
  }

  lemma {:induction false} FoldDataField(r: Reader, value: string)
    requires !r.done
    ensures Fold(r, DropAll([FieldText("data", value)])) == WithData(r, [DropCR(value)])
  {
    FieldNames();
    FoldField(r, "data", value);
  }

  lemma WithDataTogether(r: Reader, a: seq<string>, b: seq<string>)
    ensures WithData(WithData(r, a), b) == WithData(r, a + b)
  {
    assert (r.pending.data + a) + b == r.pending.data + (a + b);
  }

  lemma DataLinesSplit(lines: seq<string>)
    requires lines != []
    ensures DropAll(DataLines(lines)) == DropAll([FieldText("data", lines[0])]) + DropAll(DataLines(lines[1..]))
    ensures DropAll(lines) == [DropCR(lines[0])] + DropAll(lines[1..])
  {
    DropAllAppend([FieldText("data", lines[0])], DataLines(lines[1..]));
  }

  lemma {:induction false} FoldData(r: Reader, lines: seq<string>)
    requires !r.done
    ensures Fold(r, DropAll(DataLines(lines))) == WithData(r, DropAll(lines))
    decreases |lines|
  {
    if lines == [] {
      assert r.pending.data + [] == r.pending.data;
    } else {
      var value, rest := lines[0], lines[1..];
      var field := DropAll([FieldText("data", value)]);
      DataLinesSplit(lines);
      FoldAppend(r, field, DropAll(DataLines(rest)));
      FoldDataField(r, value);
      FoldData(WithData(r, [DropCR(value)]), rest);
      WithDataTogether(r, [DropCR(value)], DropAll(rest));
    }
  }

  lemma PlainDecimal(n: nat)
    ensures DropCR(Decimal(n)) == Decimal(n) && TrimSpace(Decimal(n)) == Decimal(n)
  {
  }

  function OptionalLine(present: bool, line: string): seq<string> {
    if present then [line] else []
  }

  lemma FoldId(r: Reader, id: string)
    requires !r.done && r.pending.id == ""
    ensures Fold(r, DropAll(OptionalLine(id != "", FieldText("id", id)))) == r.(pending := r.pending.(id := DropCR(id)))
  {
    if id != "" {
      FieldNames();
      FoldField(r, "id", id);
    }
  }

  lemma FoldKind(r: Reader, kind: string)
    requires !r.done && r.pending.kind == ""
    ensures Fold(r, DropAll(OptionalLine(kind != "", FieldText("event", kind)))) == r.(pending := r.pending.(kind := DropCR(kind)))
  {
    if kind != "" {
      FieldNames();
      FoldField(r, "event", kind);
    }
  }

  lemma {:induction false} FoldRetry(r: Reader, retry: Int64)
    requires !r.done && r.pending.retry == 0
    ensures Fold(r, DropAll(if retry > 0 then [FieldText("retry", Decimal(retry))] else [])) ==
            r.(pending := r.pending.(retry := PrintedRetry(retry)))
  {
    if retry > 0 {
      FieldNames();
      FoldField(r, "retry", Decimal(retry));
      PlainDecimal(retry);
      AtoiRoundTrip(retry);
    }
  }

  lemma {:induction false} FoldHead(r: Reader, e: Event)
    requires !r.done && r.pending == NOTHING
    ensures Fold(r, DropAll(HeadLines(e))) ==
            r.(pending := Pending(DropCR(e.kind), [], DropCR(e.id), PrintedRetry(e.retry)))
  {
    var ids, kinds := OptionalLine(e.id != "", FieldText("id", e.id)), OptionalLine(e.kind != "", FieldText("event", e.kind));
    var retries := if e.retry > 0 then [FieldText("retry", Decimal(e.retry))] else [];
    var r1 := r.(pending := r.pending.(id := DropCR(e.id)));
    var r2 := r1.(pending := r1.pending.(kind := DropCR(e.kind)));
    calc {
      Fold(r, DropAll(HeadLines(e)));
      { DropAllAppend(ids, kinds); DropAllAppend(ids + kinds, retries); }
      Fold(r, DropAll(ids) + DropAll(kinds) + DropAll(retries));
      { FoldAppend(r, DropAll(ids) + DropAll(kinds), DropAll(retries)); FoldAppend(r, DropAll(ids), DropAll(kinds)); }
      Fold(Fold(Fold(r, DropAll(ids)), DropAll(kinds)), DropAll(retries));
      { FoldId(r, e.id); FoldKind(r1, e.kind); }
      Fold(r2, DropAll(retries));
      { FoldRetry(r2, e.retry); }
      r2.(pending := r2.pending.(retry := PrintedRetry(e.retry)));
    }
  }

  lemma {:induction false} DropAllLength(lines: seq<string>)
    ensures |DropAll(lines)| == |lines|
  {
    if lines != [] {
      DropAllLength(lines[1..]);
    }
  }

  /** The lines of one event but for the blank one. */
  lemma FoldBody(r: Reader, e: Event)
    requires !r.done && r.pending == NOTHING
    ensures var lines := DropAll(Split(e.data, '\n'));
      && lines != []
      && Fold(r, DropAll(HeadLines(e) + DataLines(Split(e.data, '\n'))))
           == r.(pending := Pending(DropCR(e.kind), lines, DropCR(e.id), PrintedRetry(e.retry)))
  {
    var head, data := HeadLines(e), DataLines(Split(e.data, '\n'));
    DropAllAppend(head, data);
    FoldAppend(r, DropAll(head), DropAll(data));
    FoldHead(r, e);
    var r1 := Fold(r, DropAll(head));
    FoldData(r1, Split(e.data, '\n'));
    DropAllLength(Split(e.data, '\n'));
    assert [] + DropAll(Split(e.data, '\n')) == DropAll(Split(e.data, '\n'));
  }

  lemma FoldEvent(r: Reader, e: Event)
    requires !r.done && r.pending == NOTHING
    ensures Fold(r, DropAll(EventLines(e))) == Reader(NOTHING, r.out + [Normal(e)], IsDone(Normal(e)))
  {
    var body := HeadLines(e) + DataLines(Split(e.data, '\n'));
    DropAllAppend(body, [""]);
    FoldAppend(r, DropAll(body), DropAll([""]));
    FoldBody(r, e);
    var r2 := Fold(r, DropAll(body));
    assert DropAll([""]) == [""] && [""][1..] == [];
    assert Fold(r2, [""]) == Fold(StepLine(r2, ""), []);
  }

  function AfterEvent(r: Reader, e: Event): Reader {
    Reader(NOTHING, r.out + [Normal(e)], IsDone(Normal(e)))
  }

  lemma {:induction false} FoldFirstEvent(r: Reader, events: seq<Event>)
    requires !r.done && r.pending == NOTHING && events != []
    ensures Fold(r, DropAll(AllLines(events))) == Fold(AfterEvent(r, events[0]), DropAll(AllLines(events[1..])))
  {
    var first, rest := EventLines(events[0]), AllLines(events[1..]);
    DropAllAppend(first, rest);
    FoldAppend(r, DropAll(first), DropAll(rest));
    FoldEvent(r, events[0]);
  }

  /** The reader's state after whole events. */
  function AfterEvents(r: Reader, events: seq<Event>): Reader
    decreases |events|
  {
    if events == [] || r.done then r else AfterEvents(AfterEvent(r, events[0]), events[1..])
  }

  lemma {:induction false} FoldEvents(r: Reader, events: seq<Event>)
    requires r.pending == NOTHING
    ensures Fold(r, DropAll(AllLines(events))) == AfterEvents(r, events)
    decreases |events|
  {
    if r.done {
      FoldWhenDone(r, DropAll(AllLines(events)));
    } else if events != [] {
      FoldFirstEvent(r, events);
      FoldEvents(AfterEvent(r, events[0]), events[1..]);
    }
  }

  lemma {:induction false} AfterEventsDelivers(r: Reader, events: seq<Event>)
    requires !r.done && r.pending == NOTHING
    ensures Flush(AfterEvents(r, events)) == r.out + Delivered(events)
    decreases |events|
  {
    if events != [] {
      var r1 := AfterEvent(r, events[0]);
      if !r1.done {
        AfterEventsDelivers(r1, events[1..]);
      }
    }
  }

  /** What is read back from any printed events whose type and ID fit on one line. */
  lemma {:induction false} ReadOfPrinted(events: seq<Event>)
    requires forall i :: 0 <= i < |events| ==> IsFramed(events[i])
    ensures Read(Printed(events)) == Delivered(events)
  {
    PrintedLines(events);
    AllLinesClean(events);
    ScanUnlines(AllLines(events));
    FoldEvents(START, events);
    AfterEventsDelivers(START, events);
  }

  lemma LinesAssociate(a: seq<string>, b: seq<string>, c: seq<string>)
    ensures a + (b + c) == (a + b) + c
  {
  }

  lemma AllLinesOne(e: Event)
    ensures AllLines([e]) == [] + EventLines(e)
  {
    assert [e][1..] == [];
    assert EventLines(e) + [] == EventLines(e);
  }

  lemma {:induction false} AllLinesSnoc(events: seq<Event>, e: Event)
    ensures AllLines(events + [e]) == AllLines(events) + EventLines(e)
  {
    if events == [] {
      assert [] + [e] == [e];
      AllLinesOne(e);
    } else {
      assert (events + [e])[1..] == events[1..] + [e];
      AllLinesSnoc(events[1..], e);
      LinesAssociate(EventLines(events[0]), AllLines(events[1..]), EventLines(e));
    }
  }

  lemma {:induction false} AfterEventsSnoc(r: Reader, events: seq<Event>, e: Event)
    ensures var s := AfterEvents(r, events);
      AfterEvents(r, events + [e]) == if s.done then s else AfterEvent(s, e)
    decreases |events|
  {
    if events == [] {
      assert ([] + [e])[1..] == [];
    } else if !r.done {
      assert (events + [e])[1..] == events[1..] + [e];
      AfterEventsSnoc(AfterEvent(r, events[0]), events[1..], e);
    }
  }

  lemma {:induction false} AfterEventsIsClear(r: Reader, events: seq<Event>)
    requires r.pending == NOTHING
    ensures AfterEvents(r, events).pending == NOTHING
    decreases |events|
  {
    if events != [] && !r.done {
      AfterEventsIsClear(AfterEvent(r, events[0]), events[1..]);
    }
  }

  /** The last blank line does not matter: the event before it is flushed. */
  lemma {:induction false} FlushesTheLast(r: Reader, e: Event)
    requires r.pending == NOTHING
    ensures Flush(Fold(r, DropAll(HeadLines(e) + DataLines(Split(e.data, '\n')))))
         == Flush(if r.done then r else AfterEvent(r, e))
  {
    if r.done {
      FoldWhenDone(r, DropAll(HeadLines(e) + DataLines(Split(e.data, '\n'))));
    } else {
      FoldBody(r, e);
    }
  }

  lemma PrintedUpToLast(events: seq<Event>, e: Event)
    ensures var t := Printed(events + [e]);
      && t != "" && t[|t| - 1] == '\n'
      && t[..|t| - 1] == Unlines(AllLines(events) + (HeadLines(e) + DataLines(Split(e.data, '\n'))))
  {
    var body := HeadLines(e) + DataLines(Split(e.data, '\n'));
    PrintedLines(events + [e]);
    AllLinesSnoc(events, e);
    assert AllLines(events) + EventLines(e) == AllLines(events) + body + [""];
    UnlinesSnoc(AllLines(events) + body, "");
  }

  lemma NoneContainsFront(lines: seq<string>, last: string)
    requires NoneContains(lines + [last], '\n')
    ensures NoneContains(lines, '\n')
  {
    assert forall i :: 0 <= i < |lines| ==> lines[i] == (lines + [last])[i];
  }

  /** A stream that breaks off before the blank line of its last event is read like the whole one. */
  lemma {:induction false} UnfinishedIsRead(events: seq<Event>, e: Event)
    requires IsFramed(e) && forall i :: 0 <= i < |events| ==> IsFramed(events[i])
    ensures var t := Printed(events + [e]);
      && t != "" && t[|t| - 1] == '\n'
      && Read(t[..|t| - 1]) == Delivered(events + [e])
  {
    var body := HeadLines(e) + DataLines(Split(e.data, '\n'));
    PrintedUpToLast(events, e);
    AllLinesSnoc(events, e);
    AllLinesClean(events + [e]);
    assert AllLines(events) + EventLines(e) == AllLines(events) + body + [""];
    NoneContainsFront(AllLines(events) + body, "");
    ScanUnlines(AllLines(events) + body);
    DropAllAppend(AllLines(events), body);
    FoldAppend(START, DropAll(AllLines(events)), DropAll(body));
    FoldEvents(START, events);
    AfterEventsIsClear(START, events);
    FlushesTheLast(AfterEvents(START, events), e);
    AfterEventsSnoc(START, events, e);
    AfterEventsDelivers(START, events + [e]);
  }

  // ----- The round trip, exactly -----

  predicate EndsWithCR(s: string) {
    s != "" && s[|s| - 1] == '\r'
  }

  /** What a caller can check of one event before printing it. */
  predicate IsPlain(e: Event) {
    && IsFramed(e) && !EndsWithCR(e.kind) && !EndsWithCR(e.id) && e.retry >= 0
    && forall i :: 0 <= i < |Split(e.data, '\n')| ==> !EndsWithCR(Split(e.data, '\n')[i])
  }

  lemma {:induction false} DropAllIdentity(lines: seq<string>)
    ensures DropAll(lines) == lines <==> forall i :: 0 <= i < |lines| ==> !EndsWithCR(lines[i])
  {
    if lines != [] {
      DropAllIdentity(lines[1..]);
      assert lines == [lines[0]] + lines[1..];
      assert (forall i :: 0 <= i < |lines| ==> !EndsWithCR(lines[i])) <==>
             !EndsWithCR(lines[0]) && forall i :: 0 <= i < |lines[1..]| ==> !EndsWithCR(lines[1..][i]);
    }
  }

  lemma {:induction false} DropAllClean(lines: seq<string>, c: char)
    requires NoneContains(lines, c)
    ensures NoneContains(DropAll(lines), c) && |DropAll(lines)| == |lines|
  {
    if lines != [] {
      DropAllClean(lines[1..], c);
    }
  }

  lemma NormalIsIdentity(e: Event)
    requires IsFramed(e)
    ensures Normal(e) == e <==> IsPlain(e)
  {
    var lines := Split(e.data, '\n');
    SplitIsClean(e.data, '\n');
    JoinOfSplit(e.data, '\n');
    DropAllClean(lines, '\n');
    DropAllIdentity(lines);
    SplitOfJoin(DropAll(lines), '\n');
  }

  /** Each event can be printed and read back, and [DONE] comes last if at all. */
  ghost predicate ArePlain(events: seq<Event>) {
    && (forall i :: 0 <= i < |events| ==> IsPlain(events[i]))
    && (forall i :: 0 <= i < |events| - 1 ==> !IsDone(events[i]))
  }

  lemma ArePlainSplit(events: seq<Event>)
    requires events != []
    ensures ArePlain(events) <==> IsPlain(events[0]) && (|events| > 1 ==> !IsDone(events[0])) && ArePlain(events[1..])
  {
    assert forall i :: 0 <= i < |events[1..]| ==> events[1..][i] == events[i + 1];
    if IsPlain(events[0]) && (|events| > 1 ==> !IsDone(events[0])) && ArePlain(events[1..]) {
      forall i | 0 <= i < |events| ensures IsPlain(events[i]) && (i < |events| - 1 ==> !IsDone(events[i])) {
        if i > 0 {
          assert events[i] == events[1..][i - 1];
        }
      }
    }
  }

  lemma {:induction false} DeliveredIsIdentity(events: seq<Event>)
    requires forall i :: 0 <= i < |events| ==> IsFramed(events[i])
    ensures |Delivered(events)| <= |events|
    ensures Delivered(events) == events <==> ArePlain(events)
  {
    if events != [] {
      NormalIsIdentity(events[0]);
      DeliveredIsIdentity(events[1..]);
      ArePlainSplit(events);
      assert events == [events[0]] + events[1..];
    }
  }

  ghost predicate NoNewlines(r: Reader) {
    && '\n' !in r.pending.kind && '\n' !in r.pending.id
    && forall i :: 0 <= i < |r.out| ==> IsFramed(r.out[i])
  }

  lemma FieldValueClean(line: string, c: char)
    requires c !in line
    ensures c !in ParseField(line).1
  {
  }

  lemma StepKeepsNoNewlines(r: Reader, line: string)
    requires NoNewlines(r) && '\n' !in line
    ensures NoNewlines(StepLine(r, line))
  {
    if line != "" {
      FieldValueClean(line, '\n');
      TakeKeepsNoNewlines(r, FieldOf(ParseField(line).0), ParseField(line).1);
    }
  }

  lemma TakeKeepsNoNewlines(r: Reader, field: Field, value: string)
    requires NoNewlines(r) && '\n' !in value
    ensures NoNewlines(r.(pending := Take(r.pending, field, value)))
  {
  }

  /** Whatever text is read, no type and no ID contains a newline. */
  lemma {:induction false} FoldKeepsNoNewlines(r: Reader, lines: seq<string>)
    requires NoNewlines(r) && NoneContains(lines, '\n')
    ensures NoNewlines(Fold(r, lines))
    decreases |lines|
  {
    if lines != [] {
      StepKeepsNoNewlines(r, lines[0]);
      FoldKeepsNoNewlines(StepLine(r, lines[0]), lines[1..]);
    }
  }

  /** Printed events are read back unchanged exactly when every type, ID and data line ends
      in something other than a carriage return, types and IDs fit on one line, no retry
      is negative, and [DONE] comes last if at all. Multi-line data is included. */
  lemma {:induction false} RoundTripExactlyWhen(events: seq<Event>)
    ensures Read(Printed(events)) == events <==>
            && (forall i :: 0 <= i < |events| ==> IsPlain(events[i]))
            && (forall i :: 0 <= i < |events| - 1 ==> events[i].data != "[DONE]")
  {
    if forall i :: 0 <= i < |events| ==> IsFramed(events[i]) {
      ReadOfPrinted(events);
      DeliveredIsIdentity(events);
    } else {
      ReadIsFramed(Printed(events));
    }
  }

  lemma ReadIsFramed(text: string)
    ensures forall i :: 0 <= i < |Read(text)| ==> IsFramed(Read(text)[i])
  {
    SplitIsClean(text, '\n');
    var pieces := Split(text, '\n');
    DropAllClean(if pieces[|pieces| - 1] == "" then pieces[..|pieces| - 1] else pieces, '\n');
    FoldKeepsNoNewlines(START, ScanLines(text));
  }
}
