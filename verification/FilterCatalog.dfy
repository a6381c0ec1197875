/** The catalog of filters: which catalogs are accepted, and what applying one to a text does. An
    entry names its kind and the parameters of that kind; a catalog is accepted as a whole or
    rejected for its first wrong entry. The filters run in catalog order, each on what the one
    before it left, and keep a text valid if their patterns do. */
module FilterCatalog {
  import opened Options
  import opened Text
  import opened Utf8
  import opened Collapsing
  import opened Truncation

  datatype Spec = Spec(
    name: string, kind: string, pattern: string, replacement: string, minRun: int, maxBytes: int)

  /** A compiled pattern: the text with every match replaced. */
  type Regex = (string, string) -> string

  /** A compiler of patterns; not every pattern compiles. */
  type Compiler = string -> Option<Regex>

  datatype Filter = Filter(spec: Spec, re: Option<Regex>)

  datatype Error =
    | Empty
    | MissingName(index: nat)
    | MissingPattern(name: string)
    | BadPattern(name: string)
    | BadMinRun(name: string)
    | BadMaxBytes(name: string)
    | UnknownKind(name: string)

  const ANSI_STRIP := "ansi-strip"
  const COLLAPSE_REPEATS := "collapse-repeats"
  const NOISE_SHORT_CIRCUIT := "noise-shortcircuit"
  const TRUNCATE_SAFE := "truncate-safe"

  datatype Kind = Strip | Collapse | Noise | Truncate | Unknown

  function KindOf(spec: Spec): Kind {
    if spec.kind == ANSI_STRIP then Strip
    else if spec.kind == NOISE_SHORT_CIRCUIT then Noise
    else if spec.kind == COLLAPSE_REPEATS then Collapse
    else if spec.kind == TRUNCATE_SAFE then Truncate
    else Unknown
  }

  predicate UsesPattern(kind: Kind) {
    kind == Strip || kind == Noise
  }

  /** What is wrong with the entry at an index. */
  function ErrorOf(spec: Spec, i: nat, compile: Compiler): Option<Error> {
    if spec.name == "" then Some(MissingName(i))
    else
      match KindOf(spec)
      case Collapse => if spec.minRun < 2 then Some(BadMinRun(spec.name)) else None
      case Truncate => if spec.maxBytes < 1 then Some(BadMaxBytes(spec.name)) else None
      case Unknown => Some(UnknownKind(spec.name))
      case _ =>
        if spec.pattern == "" then Some(MissingPattern(spec.name))
        else if compile(spec.pattern).None? then Some(BadPattern(spec.name))
        else None
  }

  function Compiled(spec: Spec, compile: Compiler): Filter {
    Filter(spec, if UsesPattern(KindOf(spec)) then compile(spec.pattern) else None)
  }

  /** A filter that can be applied as it is. */
  predicate Usable(f: Filter) {
    match KindOf(f.spec)
    case Collapse => f.spec.minRun >= 2
    case Truncate => f.spec.maxBytes >= 1
    case Unknown => false
    case _ => f.re.Some?
  }

  function Applied(f: Filter, text: string): string {
    match KindOf(f.spec)
    case Strip => if f.re.Some? then f.re.value(text, "") else text
    case Noise => if f.re.Some? then f.re.value(text, f.spec.replacement) else text
    case Collapse => CollapseText(text, f.spec.minRun)
    case Truncate => if f.spec.maxBytes >= 0 then Truncated(text, f.spec.maxBytes) else text
    case Unknown => text
  }

  function AllApplied(filters: seq<Filter>, text: string): string {
    if filters == [] then text
    else Applied(filters[|filters| - 1], AllApplied(filters[..|filters| - 1], text))
  }

  /** An entry is accepted exactly when it has a name and, by its kind, a pattern that compiles, a run
      of at least two lines or a budget of at least one byte. */
  lemma EntryAcceptedExactlyWhen(spec: Spec, i: nat, compile: Compiler)
    ensures ErrorOf(spec, i, compile).None? <==>
      && spec.name != ""
      && ((spec.kind in {"ansi-strip", "noise-shortcircuit"} && spec.pattern != "" && compile(spec.pattern).Some?)
          || (spec.kind == "collapse-repeats" && spec.minRun >= 2)
          || (spec.kind == "truncate-safe" && spec.maxBytes >= 1))
  {
  }

  /** What an accepted entry does to a text, by the name of its kind: it erases what its pattern
      matches, replaces it, collapses runs of its length, or cuts to its budget. */
  lemma EntryDoes(spec: Spec, i: nat, compile: Compiler, text: string)
    requires ErrorOf(spec, i, compile).None?
    ensures var r := Applied(Compiled(spec, compile), text);
      && (spec.kind == "ansi-strip" ==> r == compile(spec.pattern).value(text, ""))
      && (spec.kind == "noise-shortcircuit" ==> r == compile(spec.pattern).value(text, spec.replacement))
      && (spec.kind == "collapse-repeats" ==> r == CollapseText(text, spec.minRun))
      && (spec.kind == "truncate-safe" ==> r == Truncated(text, spec.maxBytes))
  {
  }

  /** Two catalogs one after the other are one catalog: each filter works on what those before it left. */
  lemma {:induction false} AppliedTogether(a: seq<Filter>, b: seq<Filter>, text: string)
    ensures AllApplied(a + b, text) == AllApplied(b, AllApplied(a, text))
    decreases |b|
  {
    if b == [] {
      assert a + b == a;
    } else {
      var n := |b| - 1;
      AppliedTogether(a, b[..n], text);
      assert (a + b)[..|a + b| - 1] == a + b[..n] && (a + b)[|a + b| - 1] == b[n];
    }
  }

  /** A catalog that ends with a cut leaves no more than the budget and the notice, whatever came
      before. */
  lemma CutComesLast(filters: seq<Filter>, text: string)
    requires filters != [] && Usable(filters[|filters| - 1]) && filters[|filters| - 1].spec.kind == "truncate-safe"
    ensures |AllApplied(filters, text)| <= filters[|filters| - 1].spec.maxBytes + 16
  {
    var n := |filters| - 1;
    var before, m := AllApplied(filters[..n], text), filters[n].spec.maxBytes;
    assert AllApplied(filters, text) == Truncated(before, m);
    if |before| > m {
      KeptIs(before, m);
    }
  }

  // ----- Valid text stays valid -----

  ghost predicate AllValid(parts: seq<string>) {
    forall i :: 0 <= i < |parts| ==> Valid(parts[i])
  }

  lemma LinesAreValidExactlyWhen(first: string, rest: string, newline: string)
    requires newline == ['\n']
    ensures Valid(first + newline + rest) <==> Valid(first) && Valid(rest)
  {
    var all := first + newline + rest;
    if Valid(all) {
      CutBeforeLead(all, |first|);
      RestAfterAscii(all, |first|);
      assert all[..|first|] == first && all[|first| + 1..] == rest;
    }
    if Valid(first) && Valid(rest) {
      AsciiIsValid(newline);
      ValidAppend(first, newline);
      ValidAppend(first + newline, rest);
    }
  }

  lemma HeadAndTailValid(parts: seq<string>)
    requires parts != []
    ensures AllValid(parts) <==> Valid(parts[0]) && AllValid(parts[1..])
  {
    assert forall i :: 0 < i < |parts| ==> parts[i] == parts[1..][i - 1];
  }

  /** Lines joined by newlines are valid exactly when each of them is. */
  lemma {:induction false} JoinIsValidExactlyWhen(parts: seq<string>)
    ensures Valid(Join(parts, '\n')) <==> AllValid(parts)
  {
    if |parts| > 1 {
      JoinIsValidExactlyWhen(parts[1..]);
      LinesAreValidExactlyWhen(parts[0], Join(parts[1..], '\n'), ['\n']);
      HeadAndTailValid(parts);
    }
  }

  lemma MarkerIsValid(run: nat)
    ensures Valid(Marker(run))
  {
    var line := Marker(run);
    assert forall i :: 0 <= i < |Decimal(run)| ==> IsDigit(Decimal(run)[i]);
    AsciiIsValid(line);
  }

  lemma {:induction false} CollapsedIsValid(lines: seq<string>, minRun: int)
    requires AllValid(lines)
    ensures AllValid(Collapsed(lines, minRun))
    decreases |lines|
  {
    if lines != [] {
      var n := RunLength(lines);
      CollapsedIsValid(lines[n..], minRun);
      MarkerIsValid(n);
    }
  }

  lemma CollapseKeepsValid(text: string, minRun: int)
    requires Valid(text)
    ensures Valid(CollapseText(text, minRun))
  {
    var lines := Split(text, '\n');
    JoinOfSplit(text, '\n');
    JoinIsValidExactlyWhen(lines);
    CollapsedIsValid(lines, minRun);
    JoinIsValidExactlyWhen(Collapsed(lines, minRun));
  }

  /** A filter whose pattern, if it has one, replaces matches with valid text. */
  ghost predicate KeepsValid(f: Filter) {
    f.re.Some? ==>
      forall text :: Valid(text) ==> Valid(f.re.value(text, "")) && Valid(f.re.value(text, f.spec.replacement))
  }

  lemma FilterKeepsValid(f: Filter, text: string)
    requires KeepsValid(f) && Valid(text)
    ensures Valid(Applied(f, text))
  {
    match KindOf(f.spec)
    case Collapse => CollapseKeepsValid(text, f.spec.minRun);
    case Truncate => if f.spec.maxBytes >= 0 { TruncatedIsValid(text, f.spec.maxBytes); }
    case _ =>
  }

  /** The filters together turn valid text into valid text if their patterns do. */
  lemma {:induction false} CatalogKeepsValid(filters: seq<Filter>, text: string)
    requires (forall f :: f in filters ==> KeepsValid(f)) && Valid(text)
    ensures Valid(AllApplied(filters, text))
  {
    if filters != [] {
      var n := |filters| - 1;
      CatalogKeepsValid(filters[..n], text);
      FilterKeepsValid(filters[n], AllApplied(filters[..n], text));
    }
  }

  // ----- The catalog -----

  datatype Parsed = Accepted(filters: seq<Filter>) | Rejected(error: Error)

  /** Accepts a catalog exactly when it has entries and none of them is wrong; then the filters
      are its entries in order, each usable. It is rejected for its first wrong entry. */
  method ParseCatalog(specs: seq<Spec>, compile: Compiler) returns (r: Parsed)
    ensures r.Accepted? <==> specs != [] && forall i :: 0 <= i < |specs| ==> ErrorOf(specs[i], i, compile).None?
    ensures r.Accepted? ==> |r.filters| == |specs|
    ensures r.Accepted? ==> forall i :: 0 <= i < |specs| ==> r.filters[i].spec == specs[i] && Usable(r.filters[i])
    ensures r.Rejected? && specs != [] ==>
      exists i :: 0 <= i < |specs| && ErrorOf(specs[i], i, compile) == Some(r.error)
        && forall j :: 0 <= j < i ==> ErrorOf(specs[j], j, compile).None?
    ensures specs == [] ==> r == Rejected(Empty)
  {
    if |specs| == 0 {
      return Rejected(Empty);
    }
    var filters: seq<Filter> := [];
    for i := 0 to |specs|
      invariant |filters| == i
      invariant forall j :: 0 <= j < i ==> ErrorOf(specs[j], j, compile).None?
      invariant forall j :: 0 <= j < i ==> filters[j].spec == specs[j] && Usable(filters[j])
    {
      var error := ErrorOf(specs[i], i, compile);
      if error.Some? {
        return Rejected(error.value);
      }
      filters := filters + [Compiled(specs[i], compile)];
    }
    r := Accepted(filters);
  }

  class Catalog {
    const filters: seq<Filter>

    constructor (filters: seq<Filter>)
      ensures this.filters == filters
    {
      this.filters := filters;
    }
  }

  /** A catalog that failed to load leaves the text as it is. */
  method Apply(c: Catalog?, text: string) returns (r: string)
    requires c != null ==> forall f :: f in c.filters ==> Usable(f)
    ensures r == if c == null then text else AllApplied(c.filters, text)
  {
    r := text;
    if c == null {
      return;
    }
    for i := 0 to |c.filters|
      invariant r == AllApplied(c.filters[..i], text)
    {
      assert c.filters[..i + 1][..i] == c.filters[..i];
      r := ApplyFilter(c.filters[i], r);
    }
    assert c.filters[..|c.filters|] == c.filters;
  }

  method ApplyFilter(f: Filter, text: string) returns (r: string)
    requires Usable(f)
    ensures r == Applied(f, text)
  {
    match KindOf(f.spec) {
      case Strip =>
        r := f.re.value(text, "");
      case Noise =>
        r := f.re.value(text, f.spec.replacement);
      case Collapse =>
        r := CollapseRepeats(text, f.spec.minRun);
      case Truncate =>
        r := TruncateSafe(text, f.spec.maxBytes);
      case Unknown =>
        r := text;
    }
  }
}
