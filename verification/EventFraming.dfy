/** Several events in one payload, one to a line, and taking them apart again. */
module EventFraming {
  import opened Text

  /** A payload of its own line, as a marshalled JSON object is. */
  predicate IsLine(event: string) {
    event != "" && '\n' !in event && !IsSpace(event[0]) && !IsSpace(event[|event| - 1])
  }

  function Combined(events: seq<string>): string {
    Join(events, '\n')
  }

  /** The parts that are not blank, without the space around them. */
  function Trimmed(parts: seq<string>): seq<string> {
    if parts == [] then []
    else
      var last := TrimSpace(parts[|parts| - 1]);
      Trimmed(parts[..|parts| - 1]) + (if last != "" then [last] else [])
  }

  function Separated(data: string): seq<string> {
    if data == "" then []
    else
      var parts := Trimmed(Split(data, '\n'));
      if parts == [] then [data] else parts
  }

  lemma LineIsTrimmed(line: string)
    requires IsLine(line)
    ensures TrimSpace(line) == line
  {
  }

  lemma {:induction false} LinesStay(events: seq<string>)
    requires forall i :: 0 <= i < |events| ==> IsLine(events[i])
    ensures Trimmed(events) == events
  {
    if events != [] {
      var n := |events| - 1;
      LinesStay(events[..n]);
      LineIsTrimmed(events[n]);
      assert events == events[..n] + [events[n]];
    }
  }

  /** Events that are lines are taken apart as they were put together. */
  lemma SeparatedUndoesCombined(events: seq<string>)
    requires forall i :: 0 <= i < |events| ==> IsLine(events[i])
    ensures Separated(Combined(events)) == events
  {
    if events != [] {
      SplitOfJoin(events, '\n');
      LinesStay(events);
    }
  }

  /** `data` is what the events before i take up of the payload. */
  ghost predicate IsSoFar(data: string, events: seq<string>, i: nat) {
    i <= |events| && Combined(events) == if i < |events| then data + Combined(events[i..]) else data
  }

  lemma NextEvent(data: string, events: seq<string>, i: nat)
    requires i < |events| && IsSoFar(data, events, i)
    ensures IsSoFar(data + events[i] + (if i < |events| - 1 then ['\n'] else ""), events, i + 1)
  {
    var rest := events[i..];
    assert rest[0] == events[i] && rest[1..] == events[i + 1..];
    if i < |events| - 1 {
      var later := Combined(rest[1..]);
      assert Combined(rest) == events[i] + ['\n'] + later;
      assert data + (events[i] + ['\n'] + later) == (data + events[i] + ['\n']) + later;
    } else {
      assert data + events[i] + "" == data + events[i];
    }
  }

  method CombineEvents(events: seq<string>) returns (data: string)
    ensures data == Combined(events)
  {
    if |events| == 0 {
      return "";
    }
    data := "";
    assert events[0..] == events && "" + Combined(events) == Combined(events);
    for i := 0 to |events|
      invariant IsSoFar(data, events, i)
    {
      NextEvent(data, events, i);
      data := data + events[i] + (if i < |events| - 1 then ['\n'] else "");
    }
  }

  method SplitEvents(data: string) returns (events: seq<string>)
    ensures events == Separated(data)
  {
    if |data| == 0 {
      return [];
    }
    var parts := Split(data, '\n');
    events := [];
    for i := 0 to |parts|
      invariant events == Trimmed(parts[..i])
    {
      assert parts[..i + 1][..i] == parts[..i];
      var p := TrimSpace(parts[i]);
      if p != "" {
        events := events + [p];
      }
    }
    assert parts[..|parts|] == parts;
    if |events| == 0 {
      return [data];
    }
  }
}
