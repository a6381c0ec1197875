/** Valid UTF-8 as the encoding of code points, section 3 of RFC 3629: what is valid by its bytes is what
    encodes a sequence of scalar values, each in its shortest form. */
module Encoding {
  import opened Utf8

  /** A Unicode scalar value: no surrogate, and not past the last. */
  predicate IsScalar(cp: int) {
    0 <= cp <= 0x10FFFF && !(0xD800 <= cp <= 0xDFFF)
  }

  function Byte(n: int): char
    requires 0 <= n < 256
  {
    n as char
  }

  /** The bytes of a code point: its bits, six to a tail. */
  function Encoded(cp: int): string
    requires IsScalar(cp)
  {
    if cp < 0x80 then [Byte(cp)]
    else if cp < 0x800 then [Byte(0xC0 + cp / 64), Byte(0x80 + cp % 64)]
    else if cp < 0x10000 then [Byte(0xE0 + cp / 4096), Byte(0x80 + cp / 64 % 64), Byte(0x80 + cp % 64)]
    else [Byte(0xF0 + cp / 262144), Byte(0x80 + cp / 4096 % 64), Byte(0x80 + cp / 64 % 64), Byte(0x80 + cp % 64)]
  }

  function Tail(c: char): int {
    c as int - 0x80
  }

  /** The code point a string starts with. */
  function Decoded(s: string): int
    requires CharLength(s) > 0
  {
    var b := s[0] as int;
    match CharLength(s)
    case 1 => b
    case 2 => (b - 0xC0) * 64 + Tail(s[1])
    case 3 => (b - 0xE0) * 4096 + Tail(s[1]) * 64 + Tail(s[2])
    case _ => (b - 0xF0) * 262144 + Tail(s[1]) * 4096 + Tail(s[2]) * 64 + Tail(s[3])
  }

  lemma LastDigit(high: int, low: int)
    requires 0 <= low < 64
    ensures (high * 64 + low) / 64 == high && (high * 64 + low) % 64 == low
  {
  }

  lemma Digits(a: int, b: int, c: int, d: int)
    requires 0 <= b < 64 && 0 <= c < 64 && 0 <= d < 64 && 0 <= a
    ensures var n := a * 262144 + b * 4096 + c * 64 + d;
      && n / 262144 == a && n / 4096 % 64 == b && n / 64 % 64 == c && n % 64 == d
      && n / 4096 == a * 64 + b && n / 64 == a * 4096 + b * 64 + c
  {
    var n, two, three := a * 262144 + b * 4096 + c * 64 + d, a * 64 + b, (a * 64 + b) * 64 + c;
    LastDigit(three, d);
    LastDigit(two, c);
    LastDigit(a, b);
    assert n == three * 64 + d && n / 64 == three && n / 4096 == two && n / 262144 == a;
  }

  lemma ThreeDecoded(s: string)
    requires CharLength(s) == 3
    ensures IsScalar(Decoded(s)) && Encoded(Decoded(s)) == s[..3]
  {
    Digits(0, s[0] as int - 0xE0, Tail(s[1]), Tail(s[2]));
  }

  lemma FourDecoded(s: string)
    requires CharLength(s) == 4
    ensures IsScalar(Decoded(s)) && Encoded(Decoded(s)) == s[..4]
  {
    Digits(s[0] as int - 0xF0, Tail(s[1]), Tail(s[2]), Tail(s[3]));
  }

  /** What a character decodes to is a scalar value that encodes to it. */
  lemma DecodedIsScalar(s: string)
    requires CharLength(s) > 0
    ensures IsScalar(Decoded(s)) && Encoded(Decoded(s)) == s[..CharLength(s)]
  {
    match CharLength(s)
    case 1 =>
    case 2 => Digits(0, 0, s[0] as int - 0xC0, Tail(s[1]));
    case 3 => ThreeDecoded(s);
    case _ => FourDecoded(s);
  }

  lemma TwoBytes(hi: int, lo: int, rest: string)
    requires 2 <= hi < 32 && 0 <= lo < 64
    ensures CharLength([Byte(0xC0 + hi), Byte(0x80 + lo)] + rest) == 2
  {
  }

  lemma ThreeBytes(hi: int, mid: int, lo: int, rest: string)
    requires 0 <= hi < 16 && 0 <= mid < 64 && 0 <= lo < 64
    requires (hi == 0 ==> mid >= 32) && (hi == 13 ==> mid < 32)
    ensures CharLength([Byte(0xE0 + hi), Byte(0x80 + mid), Byte(0x80 + lo)] + rest) == 3
  {
  }

  lemma FourBytes(hi: int, b: int, c: int, d: int, rest: string)
    requires 0 <= hi < 5 && 0 <= b < 64 && 0 <= c < 64 && 0 <= d < 64
    requires (hi == 0 ==> b >= 16) && (hi == 4 ==> b < 16)
    ensures CharLength([Byte(0xF0 + hi), Byte(0x80 + b), Byte(0x80 + c), Byte(0x80 + d)] + rest) == 4
  {
  }

  /** What the encoding of a code point starts is one character. */
  lemma EncodedIsCharacter(cp: int, rest: string)
    requires IsScalar(cp)
    ensures CharLength(Encoded(cp) + rest) == |Encoded(cp)|
  {
    if 0x80 <= cp < 0x800 {
      TwoBytes(cp / 64, cp % 64, rest);
    } else if 0x800 <= cp < 0x10000 {
      assert cp / 4096 == cp / 64 / 64;
      ThreeBytes(cp / 4096, cp / 64 % 64, cp % 64, rest);
    } else if 0x10000 <= cp {
      assert cp / 262144 == cp / 4096 / 64;
      FourBytes(cp / 262144, cp / 4096 % 64, cp / 64 % 64, cp % 64, rest);
    }
  }

  ghost predicate AreScalars(points: seq<int>) {
    forall i :: 0 <= i < |points| ==> IsScalar(points[i])
  }

  function EncodedAll(points: seq<int>): string
    requires AreScalars(points)
  {
    if points == [] then "" else Encoded(points[0]) + EncodedAll(points[1..])
  }

  lemma {:induction false} EncodedIsValid(points: seq<int>)
    requires AreScalars(points)
    ensures Valid(EncodedAll(points))
  {
    if points != [] {
      var rest := EncodedAll(points[1..]);
      EncodedIsValid(points[1..]);
      EncodedIsCharacter(points[0], rest);
      assert EncodedAll(points)[|Encoded(points[0])|..] == rest;
    }
  }

  lemma {:induction false} ValidIsEncoded(s: string) returns (points: seq<int>)
    requires Valid(s)
    ensures AreScalars(points)
    ensures EncodedAll(points) == s
    decreases |s|
  {
    if s == "" {
      points := [];
    } else {
      var n := CharLength(s);
      DecodedIsScalar(s);
      var rest := ValidIsEncoded(s[n..]);
      points := [Decoded(s)] + rest;
      assert points[1..] == rest && s == s[..n] + s[n..];
    }
  }

  /** A string is valid exactly when it is the encoding of some Unicode scalar values. */
  lemma ValidExactlyWhenEncoded(s: string)
    ensures Valid(s) <==> exists points: seq<int> :: AreScalars(points) && EncodedAll(points) == s
  {
    if Valid(s) {
      var points := ValidIsEncoded(s);
      assert AreScalars(points) && EncodedAll(points) == s;
    }
    if points: seq<int> :| AreScalars(points) && EncodedAll(points) == s {
      EncodedIsValid(points);
    }
  }
}
