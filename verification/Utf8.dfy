/** UTF-8, section 4 of RFC 3629. A string here is the source's: each char is one byte. A character
    is one to four bytes, of which all but the first are tails; overlong forms, surrogates and
    code points past the last are not characters, and a string is valid when it is a sequence of
    characters. The lemmas say where a valid string may be cut. */
module Utf8 {
  predicate IsTail(c: char) {
    0x80 <= c as int <= 0xBF
  }

  /** The length of the encoded character a string starts with, or 0. */
  function CharLength(s: string): (n: nat)
    ensures n <= |s| && n <= 4
    ensures forall i :: 0 < i < n ==> IsTail(s[i])
  {
    if s == "" then 0
    else
      var b := s[0] as int;
      if b <= 0x7F then 1
      else if |s| < 2 || !IsTail(s[1]) then 0
      else
        var c := s[1] as int;
        if 0xC2 <= b <= 0xDF then 2
        else if |s| < 3 || !IsTail(s[2]) then 0
        else if (b == 0xE0 && c >= 0xA0) || 0xE1 <= b <= 0xEC || (b == 0xED && c <= 0x9F) || 0xEE <= b <= 0xEF then 3
        else if |s| < 4 || !IsTail(s[3]) then 0
        else if (b == 0xF0 && c >= 0x90) || 0xF1 <= b <= 0xF3 || (b == 0xF4 && c <= 0x8F) then 4
        else 0
  }

  predicate Valid(s: string)
    decreases |s|
  {
    s == "" || (CharLength(s) > 0 && Valid(s[CharLength(s)..]))
  }

  /** What follows a whole character does not change its length. */
  lemma CharLengthOfPrefix(s: string, k: nat)
    requires 0 < CharLength(s) <= k <= |s|
    ensures CharLength(s[..k]) == CharLength(s)
  {
  }

  /** A valid text can be cut before any byte that is no tail. */
  lemma {:induction false} CutBeforeLead(s: string, k: nat)
    requires Valid(s) && k < |s| && !IsTail(s[k])
    ensures Valid(s[..k])
    decreases |s|
  {
    if k > 0 {
      var n := CharLength(s);
      var rest := s[n..];
      assert n <= k && rest[k - n] == s[k];
      CutBeforeLead(rest, k - n);
      CharLengthOfPrefix(s, k);
      assert s[..k][n..] == rest[..k - n];
    }
  }

  /** Any cut of a valid text is at most three bytes after a character boundary. */
  lemma {:induction false} BoundaryBefore(s: string, k: nat) returns (b: nat)
    requires Valid(s) && k <= |s|
    ensures b <= k <= b + 3 && Valid(s[..b])
    decreases |s|
  {
    if k == 0 || k < CharLength(s) {
      b := 0;
    } else {
      var n := CharLength(s);
      var rest := s[n..];
      var more := BoundaryBefore(rest, k - n);
      b := n + more;
      CharLengthOfPrefix(s, b);
      assert s[..b] == s[..n] + rest[..more];
    }
  }

  lemma CharLengthOfExtension(s: string, k: nat, a: string)
    requires k <= |s| && s[..k] == a && CharLength(a) > 0
    ensures CharLength(s) == CharLength(a)
  {
    assert forall i :: 0 <= i < k ==> s[i] == a[i];
  }

  lemma {:induction false} ValidAppend(a: string, b: string)
    requires Valid(a) && Valid(b)
    ensures Valid(a + b)
    decreases |a|
  {
    if a == "" {
      assert a + b == b;
    } else {
      var n := CharLength(a);
      assert (a + b)[..|a|] == a;
      CharLengthOfExtension(a + b, |a|, a);
      ValidAppend(a[n..], b);
      DropOfAppend(a, b, n);
    }
  }

  lemma DropOfAppend(a: string, b: string, n: nat)
    requires n <= |a|
    ensures (a + b)[n..] == a[n..] + b
  {
  }

  lemma {:induction false} AsciiIsValid(s: string)
    requires forall i :: 0 <= i < |s| ==> s[i] as int <= 0x7F
    ensures Valid(s)
  {
    if s != "" {
      AsciiIsValid(s[1..]);
    }
  }

  /** What follows an ASCII byte of a valid text is valid. */
  lemma {:induction false} RestAfterAscii(s: string, k: nat)
    requires Valid(s) && k < |s| && s[k] as int <= 0x7F
    ensures Valid(s[k + 1..])
    decreases |s|
  {
    var n := CharLength(s);
    if k > 0 {
      var rest := s[n..];
      assert n <= k && rest[k - n] == s[k];
      RestAfterAscii(rest, k - n);
      assert rest[k - n + 1..] == s[k + 1..];
    }
  }
}
