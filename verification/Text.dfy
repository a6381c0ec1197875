/** Splitting and joining text, and decimal numbers, as Go's strings and strconv packages do. A
    text splits into one more piece than it has separators, so the empty text is one empty piece,
    and joining the pieces gives the text back; decimal numbers are those that fit 64 bits, and
    trimming removes Unicode white space from both ends. Used by the printer and the reader of
    server-sent events, by the filters and by the stream payloads. */
module Text {
  import opened Options

  const MAX_INT64 := 0x7fff_ffff_ffff_ffff

  /** strings.Split on a one-character separator: never empty. */
  function Split(s: string, sep: char): (r: seq<string>)
    ensures |r| >= 1
  {
    if s == "" then [""]
    else if s[0] == sep then [""] + Split(s[1..], sep)
    else
      var rest := Split(s[1..], sep);
      [[s[0]] + rest[0]] + rest[1..]
  }

  function Join(parts: seq<string>, sep: char): string {
    if parts == [] then ""
    else if |parts| == 1 then parts[0]
    else parts[0] + [sep] + Join(parts[1..], sep)
  }

  ghost predicate NoneContains(parts: seq<string>, c: char) {
    forall i :: 0 <= i < |parts| ==> c !in parts[i]
  }

  lemma {:induction false} SplitIsClean(s: string, sep: char)
    ensures NoneContains(Split(s, sep), sep)
  {
    if s != "" {
      SplitIsClean(s[1..], sep);
    }
  }

  lemma {:induction false} JoinOfSplit(s: string, sep: char)
    ensures Join(Split(s, sep), sep) == s
  {
    if s != "" {
      JoinOfSplit(s[1..], sep);
      var rest := Split(s[1..], sep);
      if s[0] == sep {
        assert ([""] + rest)[1..] == rest;
      } else {
        var r := [[s[0]] + rest[0]] + rest[1..];
        assert r[1..] == rest[1..];
        assert s == [s[0]] + s[1..];
      }
    }
  }

  lemma {:induction false} SplitAfterPart(part: string, rest: string, sep: char)
    requires sep !in part
    ensures Split(part + [sep] + rest, sep) == [part] + Split(rest, sep)
  {
    if part == "" {
      assert (part + [sep] + rest)[1..] == rest;
    } else {
      assert (part + [sep] + rest)[1..] == part[1..] + [sep] + rest;
      SplitAfterPart(part[1..], rest, sep);
      assert part == [part[0]] + part[1..] && part[0] != sep;
    }
  }

  lemma {:induction false} SplitOnePart(part: string, sep: char)
    requires sep !in part
    ensures Split(part, sep) == [part]
  {
    if part != "" {
      SplitOnePart(part[1..], sep);
      assert part == [part[0]] + part[1..] && part[0] != sep;
    }
  }

  lemma {:induction false} SplitOfJoin(parts: seq<string>, sep: char)
    requires parts != [] && NoneContains(parts, sep)
    ensures Split(Join(parts, sep), sep) == parts
  {
    if |parts| == 1 {
      SplitOnePart(parts[0], sep);
    } else {
      SplitOfJoin(parts[1..], sep);
      SplitAfterPart(parts[0], Join(parts[1..], sep), sep);
    }
  }

  /** strings.SplitN on a one-character separator with at most two parts. */
  function SplitTwo(s: string, sep: char): (r: seq<string>)
    ensures 1 <= |r| <= 2
  {
    if s == "" then [""]
    else if s[0] == sep then ["", s[1..]]
    else
      var rest := SplitTwo(s[1..], sep);
      [[s[0]] + rest[0]] + rest[1..]
  }

  lemma {:induction false} SplitTwoParts(s: string, sep: char)
    ensures sep !in SplitTwo(s, sep)[0]
    ensures |SplitTwo(s, sep)| == 1 ==> SplitTwo(s, sep)[0] == s
    ensures |SplitTwo(s, sep)| == 2 ==> s == SplitTwo(s, sep)[0] + [sep] + SplitTwo(s, sep)[1]
  {
    if s != "" && s[0] != sep {
      SplitTwoParts(s[1..], sep);
      assert s == [s[0]] + s[1..];
    }
  }

  lemma {:induction false} SplitTwoAt(part: string, rest: string, sep: char)
    requires sep !in part
    ensures SplitTwo(part + [sep] + rest, sep) == [part, rest]
  {
    var s := part + [sep] + rest;
    if part == "" {
      assert s[1..] == rest;
    } else {
      assert s[1..] == part[1..] + [sep] + rest;
      SplitTwoAt(part[1..], rest, sep);
      assert part == [part[0]] + part[1..] && s[0] == part[0] != sep;
    }
  }

  // ----- Decimal numbers -----

  predicate IsDigit(c: char) {
    '0' <= c <= '9'
  }

  function DigitOf(n: nat): (c: char)
    requires n < 10
    ensures IsDigit(c)
  {
    '0' + n as char
  }

  /** %d of a natural number. */
  function Decimal(n: nat): (s: string)
    ensures s != "" && forall i :: 0 <= i < |s| ==> IsDigit(s[i])
  {
    if n < 10 then [DigitOf(n)] else Decimal(n / 10) + [DigitOf(n % 10)]
  }

  /** The value of a nonempty string of digits. */
  function DigitsValue(s: string): Option<nat> {
    if s == "" || !IsDigit(s[|s| - 1]) then None
    else
      var low := s[|s| - 1] as int - '0' as int;
      if |s| == 1 then Some(low)
      else
        var high := DigitsValue(s[..|s| - 1]);
        if high.None? then None else Some(10 * high.value + low)
  }

  /** strconv.Atoi on a 64-bit platform: an optional sign, digits, and no overflow. */
  function Atoi(s: string): Option<int> {
    var signed := s != "" && (s[0] == '-' || s[0] == '+');
    var v := DigitsValue(if signed then s[1..] else s);
    match v
    case None => None
    case Some(m) =>
      var n := if signed && s[0] == '-' then 0 - m else m as int;
      if -MAX_INT64 - 1 <= n <= MAX_INT64 then Some(n) else None
  }

  lemma {:induction false} DigitsRoundTrip(n: nat)
    ensures DigitsValue(Decimal(n)) == Some(n)
  {
    if n >= 10 {
      DigitsRoundTrip(n / 10);
      assert Decimal(n)[..|Decimal(n)| - 1] == Decimal(n / 10);
    }
  }

  lemma AtoiRoundTrip(n: nat)
    requires n <= MAX_INT64
    ensures Atoi(Decimal(n)) == Some(n)
  {
    DigitsRoundTrip(n);
    assert IsDigit(Decimal(n)[0]);
  }

  /** A sign may come before the digits; a number that 64 bits do not hold is none. */
  lemma AtoiSigned(n: nat)
    ensures Atoi("-" + Decimal(n)) == if n <= MAX_INT64 + 1 then Some(0 - n) else None
    ensures Atoi("+" + Decimal(n)) == Atoi(Decimal(n)) == if n <= MAX_INT64 then Some(n) else None
  {
    AtoiNegative(n);
    AtoiPositive(n);
    AtoiUnsigned(n);
  }

  lemma AtoiNegative(n: nat)
    ensures Atoi("-" + Decimal(n)) == if n <= MAX_INT64 + 1 then Some(0 - n) else None
  {
    DigitsRoundTrip(n);
    assert ("-" + Decimal(n))[1..] == Decimal(n);
  }

  lemma AtoiPositive(n: nat)
    ensures Atoi("+" + Decimal(n)) == if n <= MAX_INT64 then Some(n) else None
  {
    DigitsRoundTrip(n);
    assert ("+" + Decimal(n))[1..] == Decimal(n);
  }

  lemma AtoiUnsigned(n: nat)
    ensures Atoi(Decimal(n)) == if n <= MAX_INT64 then Some(n) else None
  {
    DigitsRoundTrip(n);
    assert IsDigit(Decimal(n)[0]);
  }

  predicate IsSpace(c: char) {
    c in {'\t', '\n', '\U{b}', '\U{c}', '\r', ' ', '\U{85}', '\U{a0}', '\U{1680}', '\U{2028}', '\U{2029}',
          '\U{202f}', '\U{205f}', '\U{3000}'}
    || '\U{2000}' <= c <= '\U{200a}'
  }

  function TrimLeft(s: string): string {
    if s != "" && IsSpace(s[0]) then TrimLeft(s[1..]) else s
  }

  function TrimRight(s: string): string {
    if s != "" && IsSpace(s[|s| - 1]) then TrimRight(s[..|s| - 1]) else s
  }

  function TrimSpace(s: string): string {
    TrimRight(TrimLeft(s))
  }
}
