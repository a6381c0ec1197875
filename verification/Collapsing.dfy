/** Collapsing runs of identical lines, and undoing it. */
module Collapsing {
  import opened Flattening
  import opened Options
  import opened Text

  const MARKER_HEAD := "... [x"
  const MARKER_TAIL := " identical lines]"

  function Marker(run: nat): string {
    MARKER_HEAD + Decimal(run) + MARKER_TAIL
  }

  /** How many lines the first is repeated over. */
  function RunLength(lines: seq<string>): (n: nat)
    requires lines != []
    ensures 0 < n <= |lines|
    ensures forall i :: 0 <= i < n ==> lines[i] == lines[0]
    ensures n < |lines| ==> lines[n] != lines[0]
  {
    if |lines| > 1 && lines[1] == lines[0] then 1 + RunLength(lines[1..]) else 1
  }

  function CollapsedRun(run: seq<string>, minRun: int): seq<string>
    requires run != []
  {
    if |run| >= minRun then [run[0], Marker(|run|)] else run
  }

  function Collapsed(lines: seq<string>, minRun: int): seq<string> {
    if lines == [] then []
    else
      var n := RunLength(lines);
      CollapsedRun(lines[..n], minRun) + Collapsed(lines[n..], minRun)
  }

  /** The count a marker line states. */
  function MarkerCount(line: string): Option<nat> {
    if MARKER_HEAD <= line && |line| >= |MARKER_HEAD| + |MARKER_TAIL| && line[|line| - |MARKER_TAIL|..] == MARKER_TAIL
    then DigitsValue(line[|MARKER_HEAD|..|line| - |MARKER_TAIL|])
    else None
  }

  predicate IsMarker(line: string) {
    MarkerCount(line).Some?
  }

  ghost predicate Unmarked(lines: seq<string>) {
    forall i :: 0 <= i < |lines| ==> !IsMarker(lines[i])
  }

  function Repeated(line: string, n: nat): (r: seq<string>)
    ensures |r| == n
  {
    seq(n, _ => line)
  }

  /** Undoes collapsing: a line before a marker stands for as many as the marker counts. */
  function Expanded(lines: seq<string>): seq<string> {
    if lines == [] then []
    else if |lines| > 1 && IsMarker(lines[1]) then
      Repeated(lines[0], MarkerCount(lines[1]).value) + Expanded(lines[2..])
    else [lines[0]] + Expanded(lines[1..])
  }

  lemma MarkerCounts(run: nat)
    ensures MarkerCount(Marker(run)) == Some(run)
  {
    var line := Marker(run);
    assert line[|MARKER_HEAD|..|line| - |MARKER_TAIL|] == Decimal(run);
    DigitsRoundTrip(run);
  }

  lemma ExpandedOne(line: string, rest: seq<string>)
    requires rest != [] ==> !IsMarker(rest[0])
    ensures Expanded([line] + rest) == [line] + Expanded(rest)
  {
    var all := [line] + rest;
    assert all[0] == line && all[1..] == rest && (rest != [] ==> all[1] == rest[0]);
  }

  /** Unmarked lines before an unmarked line, or at the end, stand for themselves. */
  lemma {:induction false} ExpandedPlain(front: seq<string>, rest: seq<string>)
    requires Unmarked(front) && (rest != [] ==> !IsMarker(rest[0]))
    ensures Expanded(front + rest) == front + Expanded(rest)
    decreases |front|
  {
    if front == [] {
      assert front + rest == rest;
    } else {
      var n := |front| - 1;
      var init, last := front[..n], front[n];
      assert !IsMarker(last) && Unmarked(init);
      ExpandedOne(last, rest);
      ExpandedPlain(init, [last] + rest);
      Associative(init, [last], rest);
      Associative(init, [last], Expanded(rest));
      assert front == init + [last];
    }
  }

  lemma CollapsedStarts(lines: seq<string>, minRun: int)
    requires lines != []
    ensures Collapsed(lines, minRun) != [] && Collapsed(lines, minRun)[0] == lines[0]
  {
  }

  lemma ExpandedMarked(line: string, n: nat, rest: seq<string>)
    ensures Expanded([line, Marker(n)] + rest) == Repeated(line, n) + Expanded(rest)
  {
    MarkerCounts(n);
    assert ([line, Marker(n)] + rest)[2..] == rest;
  }

  /** The lines are their first run and the rest, which starts with another line. */
  lemma FirstRun(lines: seq<string>)
    requires lines != []
    ensures var n := RunLength(lines); lines == Repeated(lines[0], n) + lines[n..] && lines[..n] == Repeated(lines[0], n)
  {
  }

  /** What may follow a run of unmarked lines. */
  predicate Follows(line: string, more: seq<string>) {
    more == [] || (more[0] != line && !IsMarker(more[0]))
  }

  lemma RunExpands(line: string, n: nat, more: seq<string>, minRun: int)
    requires n > 0 && minRun >= 2 && !IsMarker(line) && Follows(line, more)
    ensures Expanded(CollapsedRun(Repeated(line, n), minRun) + more) == Repeated(line, n) + Expanded(more)
    ensures |CollapsedRun(Repeated(line, n), minRun)| <= n
  {
    if n >= minRun {
      ExpandedMarked(line, n, more);
    } else {
      ExpandedPlain(Repeated(line, n), more);
    }
  }

  lemma RestFollows(lines: seq<string>, minRun: int)
    requires lines != [] && Unmarked(lines)
    ensures Unmarked(lines[RunLength(lines)..])
    ensures Follows(lines[0], Collapsed(lines[RunLength(lines)..], minRun))
  {
    var rest := lines[RunLength(lines)..];
    if rest != [] {
      assert rest[0] == lines[RunLength(lines)];
      CollapsedStarts(rest, minRun);
    }
  }

  /** Expanding the markers gives back the lines, and there were never more lines for them. */
  lemma {:induction false} ExpandedUndoes(lines: seq<string>, minRun: int)
    requires minRun >= 2 && Unmarked(lines)
    ensures Expanded(Collapsed(lines, minRun)) == lines
    ensures |Collapsed(lines, minRun)| <= |lines|
    decreases |lines|
  {
    if lines != [] {
      var n := RunLength(lines);
      FirstRun(lines);
      RestFollows(lines, minRun);
      ExpandedUndoes(lines[n..], minRun);
      RunExpands(lines[0], n, Collapsed(lines[n..], minRun), minRun);
    }
  }

  /** A run followed by a line that differs is the run collapsing sees. */
  lemma {:induction false} RunLengthIs(line: string, n: nat, rest: seq<string>)
    requires n > 0 && (rest != [] ==> rest[0] != line)
    ensures RunLength(Repeated(line, n) + rest) == n
  {
    var all := Repeated(line, n) + rest;
    if n > 1 {
      assert all[1..] == Repeated(line, n - 1) + rest;
      RunLengthIs(line, n - 1, rest);
    } else {
      assert all == [line] + rest;
    }
  }

  lemma CollapsedShortRun(line: string, n: nat, rest: seq<string>, minRun: int)
    requires 0 < n < minRun && (rest != [] ==> rest[0] != line)
    ensures Collapsed(Repeated(line, n) + rest, minRun) == Repeated(line, n) + Collapsed(rest, minRun)
  {
    RunLengthIs(line, n, rest);
    var all := Repeated(line, n) + rest;
    assert all[..n] == Repeated(line, n) && all[n..] == rest;
  }

  /** A line that starts no longer run stays as it is. */
  lemma SingleStays(line: string, rest: seq<string>, minRun: int)
    requires minRun >= 2 && (rest != [] ==> rest[0] != line)
    ensures Collapsed([line] + rest, minRun) == [line] + Collapsed(rest, minRun)
  {
    var all := [line] + rest;
    assert all[0] == line && (rest != [] ==> all[1] == rest[0]);
    assert RunLength(all) == 1;
    assert all[..1] == [line] && all[1..] == rest;
  }

  lemma TwoSingles(a: string, b: string, more: seq<string>, minRun: int)
    requires minRun >= 2 && a != b && (more != [] ==> more[0] != b)
    ensures Collapsed([a] + ([b] + more), minRun) == [a] + ([b] + Collapsed(more, minRun))
  {
    SingleStays(b, more, minRun);
    SingleStays(a, [b] + more, minRun);
  }

  lemma PairOf(a: string, b: string, more: seq<string>)
    ensures [a, b] + more == [a] + ([b] + more)
  {
  }

  lemma RunStaysCollapsed(line: string, n: nat, more: seq<string>, minRun: int)
    requires n > 0 && minRun >= 2 && !IsMarker(line) && Follows(line, more)
    ensures var run := CollapsedRun(Repeated(line, n), minRun);
      Collapsed(run + more, minRun) == run + Collapsed(more, minRun)
  {
    if n < minRun {
      CollapsedShortRun(line, n, more, minRun);
    } else {
      MarkerCounts(n);
      TwoSingles(line, Marker(n), more, minRun);
      PairOf(line, Marker(n), more);
      PairOf(line, Marker(n), Collapsed(more, minRun));
    }
  }

  /** Collapsing twice is collapsing once. */
  lemma {:induction false} CollapsedIsFixed(lines: seq<string>, minRun: int)
    requires minRun >= 2 && Unmarked(lines)
    ensures Collapsed(Collapsed(lines, minRun), minRun) == Collapsed(lines, minRun)
    decreases |lines|
  {
    if lines != [] {
      var n := RunLength(lines);
      FirstRun(lines);
      RestFollows(lines, minRun);
      CollapsedIsFixed(lines[n..], minRun);
      RunStaysCollapsed(lines[0], n, Collapsed(lines[n..], minRun), minRun);
    }
  }

  function CollapseText(text: string, minRun: int): string {
    Join(Collapsed(Split(text, '\n'), minRun), '\n')
  }

  function ExpandText(text: string): string {
    Join(Expanded(Split(text, '\n')), '\n')
  }

  lemma {:induction false} CollapsedIsClean(lines: seq<string>, minRun: int)
    requires NoneContains(lines, '\n')
    ensures NoneContains(Collapsed(lines, minRun), '\n')
    decreases |lines|
  {
    if lines != [] {
      var n := RunLength(lines);
      CollapsedIsClean(lines[n..], minRun);
      assert '\n' !in Marker(n) by {
        assert '\n' !in Decimal(n);
      }
    }
  }

  /** The lines of a collapsed text are the collapsed lines. */
  lemma SplitOfCollapsed(text: string, minRun: int)
    ensures Split(CollapseText(text, minRun), '\n') == Collapsed(Split(text, '\n'), minRun)
  {
    var lines := Split(text, '\n');
    SplitIsClean(text, '\n');
    CollapsedIsClean(lines, minRun);
    CollapsedStarts(lines, minRun);
    SplitOfJoin(Collapsed(lines, minRun), '\n');
  }

  /** Of a text without marker lines: expanding undoes collapsing, collapsing again changes
      nothing, and no line is added. */
  lemma {:induction false} CollapseIsUndone(text: string, minRun: int)
    requires minRun >= 2 && Unmarked(Split(text, '\n'))
    ensures ExpandText(CollapseText(text, minRun)) == text
    ensures CollapseText(CollapseText(text, minRun), minRun) == CollapseText(text, minRun)
    ensures |Split(CollapseText(text, minRun), '\n')| <= |Split(text, '\n')|
  {
    var lines := Split(text, '\n');
    SplitOfCollapsed(text, minRun);
    ExpandedUndoes(lines, minRun);
    CollapsedIsFixed(lines, minRun);
    JoinOfSplit(text, '\n');
  }

  /** Why the lines must be unmarked: a run and a line followed by that run's marker collapse to
      the same lines, so no expansion could tell them apart. */
  lemma MarkedInputIsAmbiguous(line: string, n: nat, minRun: int)
    requires minRun >= 2 && n >= minRun && line != Marker(n)
    ensures Collapsed(Repeated(line, n), minRun) == Collapsed([line, Marker(n)], minRun)
    ensures Repeated(line, n) != [line, Marker(n)]
  {
    RunLengthIs(line, n, []);
    assert Repeated(line, n) + [] == Repeated(line, n);
    TwoSingles(line, Marker(n), [], minRun);
    PairOf(line, Marker(n), []);
    assert [line, Marker(n)] + [] == [line, Marker(n)];
    assert Repeated(line, n)[1] == line;
  }

  /** Appends the run from i to j, or its first line and its count. */
  method AppendRun(out: seq<string>, lines: seq<string>, i: nat, j: nat, minRun: int) returns (more: seq<string>)
    requires i < j <= |lines|
    ensures more == out + CollapsedRun(lines[i..j], minRun)
  {
    var run := j - i;
    more := out + [lines[i]];
    if run >= minRun {
      more := more + [Marker(run)];
    } else {
      for k := i + 1 to j
        invariant more == out + lines[i..k]
      {
        more := more + [lines[k]];
      }
    }
  }

  method CollapseRepeats(text: string, minRun: int) returns (r: string)
    ensures r == CollapseText(text, minRun)
  {
    var lines := Split(text, '\n');
    var out: seq<string> := [];
    var i := 0;
    while i < |lines|
      invariant 0 <= i <= |lines|
      invariant IsSoFar(out, lines, i, minRun)
      decreases |lines| - i
    {
      var j := RunEnd(lines, i);
      CollapsedNext(lines, out, i, j, minRun);
      out := AppendRun(out, lines, i, j, minRun);
      i := j;
    }
    assert out == Collapsed(lines, minRun) by {
      assert lines[|lines|..] == [] && out + [] == out;
    }
    r := Join(out, '\n');
  }

  /** The lines from i on remain to be collapsed. */
  ghost predicate IsSoFar(out: seq<string>, lines: seq<string>, i: nat, minRun: int)
    requires i <= |lines|
  {
    Collapsed(lines, minRun) == out + Collapsed(lines[i..], minRun)
  }

  lemma {:induction false} CollapsedFrom(lines: seq<string>, i: nat, j: nat, minRun: int)
    requires i < j <= |lines| && j == i + RunLength(lines[i..])
    ensures Collapsed(lines[i..], minRun) == CollapsedRun(lines[i..j], minRun) + Collapsed(lines[j..], minRun)
  {
    assert lines[i..][..j - i] == lines[i..j] && lines[i..][j - i..] == lines[j..];
  }

  lemma {:induction false} CollapsedNext(lines: seq<string>, out: seq<string>, i: nat, j: nat, minRun: int)
    requires i < j <= |lines| && j == i + RunLength(lines[i..])
    requires IsSoFar(out, lines, i, minRun)
    ensures IsSoFar(out + CollapsedRun(lines[i..j], minRun), lines, j, minRun)
  {
    CollapsedFrom(lines, i, j, minRun);
    Associative(out, CollapsedRun(lines[i..j], minRun), Collapsed(lines[j..], minRun));
  }

  /** Where the run that starts at i ends. */
  method RunEnd(lines: seq<string>, i: nat) returns (j: nat)
    requires i < |lines|
    ensures j == i + RunLength(lines[i..])
  {
    j := i + 1;
    while j < |lines| && lines[j] == lines[i]
      invariant i < j <= |lines|
      invariant lines[j - 1] == lines[i]
      invariant RunLength(lines[i..]) == j - 1 - i + RunLength(lines[j - 1..])
    {
      assert lines[j - 1..][1..] == lines[j..];
      j := j + 1;
    }
  }
}
