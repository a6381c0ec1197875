/** Cutting a text to a budget at the last line boundary, or else at a character boundary. */
module Truncation {
  import opened Options
  import opened Utf8

  const ELLIPSIS := "\n... [truncated]"
  const UTF_MAX: nat := 4

  function LastIndex(s: string, c: char): (r: Option<nat>)
    ensures r.Some? ==> r.value < |s| && s[r.value] == c && forall i :: r.value < i < |s| ==> s[i] != c
    ensures r.None? ==> c !in s
  {
    if s == "" then None
    else if s[|s| - 1] == c then Some(|s| - 1)
    else LastIndex(s[..|s| - 1], c)
  }

  /** Drops up to `steps` bytes from the end until the rest is valid. */
  function BackedOff(cut: string, steps: nat): (r: string)
    ensures r <= cut && |r| + steps >= |cut|
  {
    if steps == 0 || cut == "" || Valid(cut) then cut else BackedOff(cut[..|cut| - 1], steps - 1)
  }

  /** What is kept of a text that is over the budget. */
  function Kept(text: string, maxBytes: nat): string
    requires maxBytes < |text|
  {
    var cut := text[..maxBytes];
    match LastIndex(cut, '\n')
    case Some(nl) => cut[..nl]
    case None => BackedOff(cut, UTF_MAX)
  }

  function Truncated(text: string, maxBytes: nat): string {
    if |text| <= maxBytes then text else Kept(text, maxBytes) + ELLIPSIS
  }

  /** Backing off stops at the longest valid prefix within reach. */
  lemma {:induction false} BackedOffIs(cut: string, steps: nat, b: nat)
    requires b <= |cut| <= b + steps && Valid(cut[..b])
    ensures var r := BackedOff(cut, steps);
      b <= |r| && Valid(r) && r == cut[..|r|] && forall k :: |r| < k <= |cut| ==> !Valid(cut[..k])
    decreases |cut|
  {
    assert cut[..|cut|] == cut;
    if cut != "" && !Valid(cut) {
      assert b < |cut|;
      var less := cut[..|cut| - 1];
      assert less[..b] == cut[..b];
      BackedOffIs(less, steps - 1, b);
      var r := BackedOff(less, steps - 1);
      forall k | |r| < k <= |cut| ensures !Valid(cut[..k]) {
        if k < |cut| {
          assert less[..k] == cut[..k];
        }
      }
      assert less[..|r|] == cut[..|r|];
    }
  }

  /** Of a valid text over the budget, what is kept is a valid prefix within the budget: all up to
      the last newline in it or, without one, the longest valid prefix, at most three bytes
      short. */
  lemma KeptIsLongestSafe(text: string, maxBytes: nat)
    requires Valid(text) && maxBytes < |text|
    ensures var kept := Kept(text, maxBytes);
      && |kept| <= maxBytes && kept == text[..|kept|] && Valid(kept)
      && ('\n' in text[..maxBytes] ==>
            text[|kept|] == '\n' && forall i :: |kept| < i < maxBytes ==> text[i] != '\n')
      && ('\n' !in text[..maxBytes] ==>
            maxBytes <= |kept| + 3 && forall k :: |kept| < k <= maxBytes ==> !Valid(text[..k]))
  {
    var cut := text[..maxBytes];
    match LastIndex(cut, '\n')
    case Some(nl) =>
      CutBeforeLead(text, nl);
      assert cut[..nl] == text[..nl];
    case None => KeptWithoutNewline(text, maxBytes);
  }

  lemma KeptWithoutNewline(text: string, maxBytes: nat)
    requires Valid(text) && maxBytes < |text|
    requires LastIndex(text[..maxBytes], '\n').None?
    ensures var kept := Kept(text, maxBytes);
      && |kept| <= maxBytes && kept == text[..|kept|] && Valid(kept)
      && maxBytes <= |kept| + 3 && forall k :: |kept| < k <= maxBytes ==> !Valid(text[..k])
  {
    var cut := text[..maxBytes];
    var b := BoundaryBefore(text, maxBytes);
    assert cut[..b] == text[..b];
    BackedOffIs(cut, UTF_MAX, b);
    assert forall k :: 0 <= k <= maxBytes ==> cut[..k] == text[..k];
  }

  lemma AppendNotice(kept: string, notice: string)
    requires Valid(kept) && notice == ELLIPSIS
    ensures Valid(kept + notice)
  {
    assert forall i :: 0 <= i < |notice| ==> notice[i] as int <= 0x7F;
    AsciiIsValid(notice);
    ValidAppend(kept, notice);
  }

  /** Truncating keeps a text valid. It is unchanged within the budget; over it, the result is
      what was kept and a notice of 16 bytes, which the budget does not count. */
  lemma TruncatedIsValid(text: string, maxBytes: nat)
    requires Valid(text)
    ensures Valid(Truncated(text, maxBytes))
    ensures |text| <= maxBytes ==> Truncated(text, maxBytes) == text
    ensures |text| > maxBytes ==> |Truncated(text, maxBytes)| == |Kept(text, maxBytes)| + 16
  {
    if |text| > maxBytes {
      KeptIsLongestSafe(text, maxBytes);
      AppendNotice(Kept(text, maxBytes), ELLIPSIS);
    }
  }

  /** Four steps of backing off leave a valid prefix exactly when there is one so near. */
  lemma {:induction false} BackingOffSucceedsExactlyWhen(cut: string, steps: nat)
    ensures Valid(BackedOff(cut, steps)) <==> exists b :: 0 <= b <= |cut| <= b + steps && Valid(cut[..b])
    decreases |cut|
  {
    var r := BackedOff(cut, steps);
    assert cut[..|r|] == r;
    if b :| 0 <= b <= |cut| <= b + steps && Valid(cut[..b]) {
      BackedOffIs(cut, steps, b);
    }
  }

  // ----- When the two promises hold -----

  /** The last newline among the first `maxBytes` bytes. */
  ghost predicate IsLastNewline(text: string, maxBytes: nat, nl: nat) {
    nl < maxBytes <= |text| && text[nl] == '\n' && forall i :: nl < i < maxBytes ==> text[i] != '\n'
  }

  lemma KeptIs(text: string, maxBytes: nat)
    requires maxBytes < |text|
    ensures '\n' !in text[..maxBytes] ==> Kept(text, maxBytes) == BackedOff(text[..maxBytes], UTF_MAX)
    ensures '\n' in text[..maxBytes] ==> exists nl: nat :: IsLastNewline(text, maxBytes, nl)
    ensures forall nl: nat :: IsLastNewline(text, maxBytes, nl) ==> Kept(text, maxBytes) == text[..nl]
  {
    var cut := text[..maxBytes];
    if found :| LastIndex(cut, '\n') == Some(found) {
      assert IsLastNewline(text, maxBytes, found);
      assert cut[..found] == text[..found];
    }
    forall nl: nat | IsLastNewline(text, maxBytes, nl)
      ensures Kept(text, maxBytes) == text[..nl]
    {
      assert cut[nl] == '\n';
      assert LastIndex(cut, '\n') == Some(nl);
    }
  }

  /** The result is within the budget exactly when the text is, or when the last newline in the
      budget leaves room for the notice. A text cut at a character boundary never is. */
  lemma FitsBudgetExactlyWhen(text: string, maxBytes: nat)
    ensures |Truncated(text, maxBytes)| <= maxBytes <==>
            |text| <= maxBytes || exists nl: nat :: IsLastNewline(text, maxBytes, nl) && nl + 16 <= maxBytes
  {
    if |text| > maxBytes {
      KeptIs(text, maxBytes);
      if '\n' !in text[..maxBytes] {
        assert forall nl: nat :: IsLastNewline(text, maxBytes, nl) ==> text[..maxBytes][nl] == '\n';
      }
    }
  }

  lemma NoticeChangesNothing(kept: string)
    ensures Valid(kept + ELLIPSIS) <==> Valid(kept)
  {
    if Valid(kept) {
      AppendNotice(kept, ELLIPSIS);
    }
    if Valid(kept + ELLIPSIS) {
      assert (kept + ELLIPSIS)[|kept|] == '\n';
      CutBeforeLead(kept + ELLIPSIS, |kept|);
      assert (kept + ELLIPSIS)[..|kept|] == kept;
    }
  }

  /** Whatever the bytes, the result is valid exactly when the text is, if it is within the
      budget; when the lines kept are, if there is a newline in the budget; and otherwise
      when some valid prefix ends at most four bytes before the budget does. */
  lemma {:induction false} ResultIsValidExactlyWhen(text: string, maxBytes: nat)
    ensures Valid(Truncated(text, maxBytes)) <==>
            if |text| <= maxBytes then Valid(text)
            else if '\n' in text[..maxBytes] then
              exists nl: nat :: IsLastNewline(text, maxBytes, nl) && Valid(text[..nl])
            else exists b :: 0 <= b <= maxBytes <= b + 4 && Valid(text[..b])
  {
    if |text| > maxBytes {
      KeptIs(text, maxBytes);
      NoticeChangesNothing(Kept(text, maxBytes));
      if '\n' !in text[..maxBytes] {
        var cut := text[..maxBytes];
        BackingOffSucceedsExactlyWhen(cut, UTF_MAX);
        assert forall b :: 0 <= b <= maxBytes ==> cut[..b] == text[..b];
      }
    }
  }

  /** A result over the budget: of two bytes cut to one, seventeen are returned. */
  lemma NoticeOverrunsBudget()
    ensures |Truncated("ab", 1)| == 17
  {
    KeptIs("ab", 1);
    AsciiIsValid("ab"[..1]);
  }

  /** Six bytes that no character starts with. */
  const BROKEN := "\U{FF}\U{FF}\U{FF}\U{FF}\U{FF}\U{FF}"

  /** A text that is not valid may be cut to one that is not. */
  lemma BrokenStaysBroken()
    ensures !Valid(Truncated(BROKEN, 5))
  {
    assert forall i :: 0 <= i < |BROKEN| ==> BROKEN[i] == '\U{FF}';
    forall b | 0 <= b <= 5 <= b + 4
      ensures !Valid(BROKEN[..b])
    {
      assert BROKEN[..b][0] == '\U{FF}';
    }
    ResultIsValidExactlyWhen(BROKEN, 5);
  }

  method TruncateSafe(text: string, maxBytes: nat) returns (r: string)
    ensures r == Truncated(text, maxBytes)
  {
    if |text| <= maxBytes {
      return text;
    }
    var cut := text[..maxBytes];
    var newline := LastIndex(cut, '\n');
    if newline.Some? {
      cut := cut[..newline.value];
    } else {
      ghost var start := cut;
      var n := 0;
      while n < UTF_MAX && |cut| > 0 && !Valid(cut)
        invariant 0 <= n <= UTF_MAX
        invariant BackedOff(cut, UTF_MAX - n) == BackedOff(start, UTF_MAX)
      {
        cut := cut[..|cut| - 1];
        n := n + 1;
      }
    }
    r := cut + ELLIPSIS;
  }
}
