/** Byte-pair token counting: the in-place merge and its list definition. */
module Bpe {
  import opened Flattening
  import opened Options

  /** A string of bytes, one to a char. */
  type Bytes = string
  type Vocabulary = map<Bytes, int>

  /** The rank of a pair that is not a known token. */
  const MAX_RANK := 0x4000_0000_0000_0000
  const MAX_MERGE_LEN := 512

  // ----- The list definition -----

  function Rank(v: Vocabulary, s: Bytes): int {
    if s in v then v[s] else MAX_RANK
  }

  function PairRank(v: Vocabulary, segs: seq<Bytes>, i: nat): int
    requires i + 1 < |segs|
  {
    Rank(v, segs[i] + segs[i + 1])
  }

  /** Segments i and i + 1 together are a known token. */
  predicate Joins(v: Vocabulary, segs: seq<Bytes>, i: nat)
    requires i + 1 < |segs|
  {
    segs[i] + segs[i + 1] in v && v[segs[i] + segs[i + 1]] < 0x4000_0000_0000_0000
  }

  /** Pair i has the least rank of all known pairs, and is the first such pair. */
  ghost predicate IsBest(v: Vocabulary, segs: seq<Bytes>, i: nat) {
    && i + 1 < |segs| && Joins(v, segs, i)
    && forall j: nat :: j + 1 < |segs| && Joins(v, segs, j) ==>
         && (j < i ==> v[segs[i] + segs[i + 1]] < v[segs[j] + segs[j + 1]])
         && (i < j ==> v[segs[i] + segs[i + 1]] <= v[segs[j] + segs[j + 1]])
  }

  ghost predicate NoneMergeable(v: Vocabulary, segs: seq<Bytes>) {
    forall j: nat :: j + 1 < |segs| ==> !Joins(v, segs, j)
  }

  function LeastRank(v: Vocabulary, segs: seq<Bytes>, best: Option<nat>): int
    requires best.Some? ==> best.value + 1 < |segs|
  {
    if best.Some? then PairRank(v, segs, best.value) else MAX_RANK
  }

  /** The best of the first k pairs. */
  function BestOf(v: Vocabulary, segs: seq<Bytes>, k: nat): (r: Option<nat>)
    requires k == 0 || k < |segs|
    ensures r.Some? ==> r.value < k
  {
    if k == 0 then None
    else
      var best := BestOf(v, segs, k - 1);
      if PairRank(v, segs, k - 1) < LeastRank(v, segs, best) then Some(k - 1) else best
  }

  function Best(v: Vocabulary, segs: seq<Bytes>): (r: Option<nat>)
    ensures r.Some? ==> r.value + 1 < |segs|
  {
    BestOf(v, segs, if |segs| < 2 then 0 else |segs| - 1)
  }

  /** Joins segments i and i + 1. */
  function JoinAt(segs: seq<Bytes>, i: nat): (r: seq<Bytes>)
    requires i + 1 < |segs|
    ensures |r| == |segs| - 1
  {
    segs[..i] + [segs[i] + segs[i + 1]] + segs[i + 2..]
  }

  /** Repeatedly joins the leftmost adjacent pair of least rank. */
  function Merge(v: Vocabulary, segs: seq<Bytes>): seq<Bytes>
    decreases |segs|
  {
    match Best(v, segs)
    case None => segs
    case Some(i) => Merge(v, JoinAt(segs, i))
  }

  function Singles(piece: Bytes): (r: seq<Bytes>)
    ensures |r| == |piece|
  {
    seq(|piece|, i requires 0 <= i < |piece| => [piece[i]])
  }

  /** The tokens of one pre-token chunk. */
  function Tokens(v: Vocabulary, piece: Bytes): seq<Bytes>
    decreases |piece|
  {
    if piece == [] then []
    else if piece in v || |piece| == 1 then [piece]
    else if |piece| > MAX_MERGE_LEN then
      Tokens(v, piece[..MAX_MERGE_LEN]) + Tokens(v, piece[MAX_MERGE_LEN..])
    else Merge(v, Singles(piece))
  }

  function Concat(segs: seq<Bytes>): Bytes {
    if segs == [] then [] else segs[0] + Concat(segs[1..])
  }

  function AllTokens(v: Vocabulary, chunks: seq<Bytes>): seq<Bytes> {
    if chunks == [] then [] else AllTokens(v, chunks[..|chunks| - 1]) + Tokens(v, chunks[|chunks| - 1])
  }

  // ----- What the list definition promises -----

  /** What BestOf knows of the first k pairs. */
  ghost predicate LeastOf(v: Vocabulary, segs: seq<Bytes>, k: nat, r: Option<nat>)
    requires k == 0 || k < |segs|
  {
    match r
    case None => forall j: nat :: j < k ==> PairRank(v, segs, j) >= MAX_RANK
    case Some(i) =>
      && i < k
      && PairRank(v, segs, i) < MAX_RANK
      && (forall j: nat :: j < i ==> PairRank(v, segs, i) < PairRank(v, segs, j))
      && (forall j: nat :: i < j < k ==> PairRank(v, segs, i) <= PairRank(v, segs, j))
  }

  lemma {:induction false} BestOfIsLeast(v: Vocabulary, segs: seq<Bytes>, k: nat)
    requires k == 0 || k < |segs|
    ensures LeastOf(v, segs, k, BestOf(v, segs, k))
  {
    if k > 0 {
      BestOfIsLeast(v, segs, k - 1);
    }
  }

  lemma BestStep(v: Vocabulary, segs: seq<Bytes>, i: nat, best: Option<nat>, least: int, rank: int)
    requires i + 1 < |segs| && best == BestOf(v, segs, i)
    requires least == LeastRank(v, segs, best) && rank == PairRank(v, segs, i)
    ensures BestOf(v, segs, i + 1) == if rank < least then Some(i) else best
    ensures rank < least ==> LeastRank(v, segs, Some(i)) == rank
  {
  }

  lemma PairRankIs(v: Vocabulary, segs: seq<Bytes>, i: nat)
    requires i + 1 < |segs|
    ensures Joins(v, segs, i) <==> PairRank(v, segs, i) < MAX_RANK
    ensures Joins(v, segs, i) ==> PairRank(v, segs, i) == v[segs[i] + segs[i + 1]]
  {
  }

  /** The pair joined is the one and only leftmost least one; there is none exactly when no
      adjacent pair is a token. */
  lemma {:induction false} BestIsLeftmostLeast(v: Vocabulary, segs: seq<Bytes>, i: nat)
    ensures Best(v, segs) == Some(i) <==> IsBest(v, segs, i)
    ensures Best(v, segs) == None <==> NoneMergeable(v, segs)
  {
    BestOfIsLeast(v, segs, if |segs| < 2 then 0 else |segs| - 1);
    forall j: nat | j + 1 < |segs|
      ensures Joins(v, segs, j) <==> PairRank(v, segs, j) < MAX_RANK
      ensures Joins(v, segs, j) ==> PairRank(v, segs, j) == v[segs[j] + segs[j + 1]]
    {
      PairRankIs(v, segs, j);
    }
  }

  /** A segment that is one byte or a token of the vocabulary. */
  predicate IsToken(v: Vocabulary, s: Bytes) {
    |s| == 1 || s in v
  }

  ghost predicate AllAreTokens(v: Vocabulary, segs: seq<Bytes>) {
    forall i :: 0 <= i < |segs| ==> IsToken(v, segs[i])
  }

  lemma {:induction false} ConcatAppend(a: seq<Bytes>, b: seq<Bytes>)
    ensures Concat(a + b) == Concat(a) + Concat(b)
  {
    if a == [] {
      assert a + b == b;
    } else {
      ConcatAppend(a[1..], b);
      ConcatFirst(a, b);
      Associative(a[0], Concat(a[1..]), Concat(b));
    }
  }

  lemma ConcatFirst(a: seq<Bytes>, b: seq<Bytes>)
    requires a != []
    ensures Concat(a + b) == a[0] + Concat(a[1..] + b)
  {
    assert (a + b)[0] == a[0] && (a + b)[1..] == a[1..] + b;
  }

  lemma {:induction false} JoinKeepsText(segs: seq<Bytes>, i: nat)
    requires i + 1 < |segs|
    ensures Concat(JoinAt(segs, i)) == Concat(segs)
  {
    var left, right := segs[..i], segs[i + 2..];
    var a, b := segs[i], segs[i + 1];
    assert segs == left + ([a, b] + right);
    assert ([a, b] + right)[1..] == [b] + right && ([b] + right)[1..] == right;
    ConcatAppend(left, [a, b] + right);
    assert JoinAt(segs, i) == left + ([a + b] + right);
    assert ([a + b] + right)[1..] == right;
    ConcatAppend(left, [a + b] + right);
    assert a + (b + Concat(right)) == (a + b) + Concat(right);
  }

  /** The merge keeps the text, produces only tokens, leaves nothing to join, never adds a
      segment and never drops the last one. */
  lemma {:induction false} MergeSegments(v: Vocabulary, segs: seq<Bytes>)
    requires AllAreTokens(v, segs)
    ensures Concat(Merge(v, segs)) == Concat(segs)
    ensures AllAreTokens(v, Merge(v, segs))
    ensures NoneMergeable(v, Merge(v, segs))
    ensures |Merge(v, segs)| <= |segs|
    ensures segs != [] ==> Merge(v, segs) != []
    decreases |segs|
  {
    match Best(v, segs)
    case None => BestIsLeftmostLeast(v, segs, 0);
    case Some(i) =>
      BestIsLeftmostLeast(v, segs, i);
      JoinKeepsText(segs, i);
      assert segs[i] + segs[i + 1] in v;
      MergeSegments(v, JoinAt(segs, i));
  }

  lemma {:induction false} SinglesConcat(piece: Bytes)
    ensures Concat(Singles(piece)) == piece
  {
    if piece != [] {
      assert Singles(piece)[1..] == Singles(piece[1..]);
      SinglesConcat(piece[1..]);
    }
  }

  /** The tokens of a chunk spell it, each is one byte or in the vocabulary, and there are
      between one and as many as the chunk has bytes. */
  lemma {:induction false} TokensSegmentChunk(v: Vocabulary, piece: Bytes)
    ensures Concat(Tokens(v, piece)) == piece
    ensures AllAreTokens(v, Tokens(v, piece))
    ensures |Tokens(v, piece)| <= |piece|
    ensures piece != [] ==> |Tokens(v, piece)| >= 1
    decreases |piece|
  {
    if piece == [] {
    } else if piece in v || |piece| == 1 {
      assert Concat([piece]) == piece + Concat([]);
    } else if |piece| > MAX_MERGE_LEN {
      var head, tail := piece[..MAX_MERGE_LEN], piece[MAX_MERGE_LEN..];
      TokensSegmentChunk(v, head);
      TokensSegmentChunk(v, tail);
      ConcatAppend(Tokens(v, head), Tokens(v, tail));
      assert piece == head + tail;
    } else {
      SinglesConcat(piece);
      MergeSegments(v, Singles(piece));
    }
  }

  /** Up to the window length no two adjacent tokens of a chunk could still be joined. */
  lemma {:induction false} TokensAreFinal(v: Vocabulary, piece: Bytes)
    requires |piece| <= MAX_MERGE_LEN
    ensures NoneMergeable(v, Tokens(v, piece))
  {
    if piece !in v && |piece| > 1 {
      MergeSegments(v, Singles(piece));
    }
  }

  lemma {:induction false} AllTokensSegmentText(v: Vocabulary, chunks: seq<Bytes>)
    ensures Concat(AllTokens(v, chunks)) == Concat(chunks)
    ensures AllAreTokens(v, AllTokens(v, chunks))
    ensures |AllTokens(v, chunks)| <= |Concat(chunks)|
  {
    if chunks != [] {
      var n := |chunks| - 1;
      var init, last := chunks[..n], chunks[n];
      assert chunks == init + [last];
      AllTokensSegmentText(v, init);
      TokensSegmentChunk(v, last);
      ConcatAppend(AllTokens(v, init), Tokens(v, last));
      ConcatAppend(init, [last]);
      assert Concat([last]) == last + Concat([]);
    }
  }

  // ----- Boundary offsets -----

  /** Offsets from 0 to the end of the piece, strictly increasing. */
  ghost predicate Bounds(offs: seq<nat>, piece: Bytes) {
    && |offs| >= 1
    && offs[0] == 0
    && offs[|offs| - 1] == |piece|
    && (forall i, j :: 0 <= i < j < |offs| ==> offs[i] < offs[j])
  }

  /** The segments between consecutive offsets. */
  ghost function Segments(offs: seq<nat>, piece: Bytes): (r: seq<Bytes>)
    requires Bounds(offs, piece)
    ensures |r| == |offs| - 1
  {
    seq(|offs| - 1, i requires 0 <= i < |offs| - 1 =>
      assert offs[i] < offs[i + 1];
      assert offs[i + 1] <= |piece| by { AtMostEnd(offs, piece, i + 1); }
      piece[offs[i]..offs[i + 1]])
  }

  lemma AtMostEnd(offs: seq<nat>, piece: Bytes, i: nat)
    requires Bounds(offs, piece) && i < |offs|
    ensures offs[i] <= |piece|
  {
    if i < |offs| - 1 {
      assert offs[i] < offs[|offs| - 1];
    }
  }

  /** The bytes between offsets i and i + 2 are the pair of segments i and i + 1. */
  lemma PairIsSlice(offs: seq<nat>, piece: Bytes, i: nat)
    requires Bounds(offs, piece) && i + 2 < |offs|
    ensures offs[i] < offs[i + 2] <= |piece|
    ensures Segments(offs, piece)[i] + Segments(offs, piece)[i + 1] == piece[offs[i]..offs[i + 2]]
  {
    AtMostEnd(offs, piece, i + 2);
    assert offs[i] < offs[i + 1] < offs[i + 2];
  }

  /** The offsets without offset i + 1. */
  function Dropped(offs: seq<nat>, i: nat): (r: seq<nat>)
    requires i + 2 < |offs|
    ensures |r| == |offs| - 1
  {
    offs[..i + 1] + offs[i + 2..]
  }

  lemma DroppedAt(offs: seq<nat>, i: nat, k: nat)
    requires i + 2 < |offs| && k < |offs| - 1
    ensures Dropped(offs, i)[k] == if k <= i then offs[k] else offs[k + 1]
  {
  }

  lemma Shifted(b: seq<nat>, offs: seq<nat>, i: nat)
    requires i + 2 < |offs| && |b| == |offs| - 1
    requires forall m :: 0 <= m <= i ==> b[m] == offs[m]
    requires forall m :: i < m < |b| ==> b[m] == offs[m + 1]
    ensures b == Dropped(offs, i)
  {
  }

  lemma DropKeepsBounds(offs: seq<nat>, piece: Bytes, i: nat)
    requires Bounds(offs, piece) && i + 2 < |offs|
    ensures Bounds(Dropped(offs, i), piece)
  {
    var less := Dropped(offs, i);
    forall a, b | 0 <= a < b < |less| ensures less[a] < less[b] {
      DroppedAt(offs, i, a);
      DroppedAt(offs, i, b);
    }
    DroppedAt(offs, i, 0);
    DroppedAt(offs, i, |less| - 1);
  }

  /** Dropping offset i + 1 joins segments i and i + 1. */
  lemma DropJoins(offs: seq<nat>, piece: Bytes, i: nat)
    requires Bounds(offs, piece) && i + 2 < |offs|
    ensures Bounds(Dropped(offs, i), piece)
    ensures Segments(Dropped(offs, i), piece) == JoinAt(Segments(offs, piece), i)
  {
    DropKeepsBounds(offs, piece, i);
    var less, segs := Dropped(offs, i), Segments(offs, piece);
    forall k: nat | k < |less| - 1 ensures Segments(less, piece)[k] == JoinAt(segs, i)[k] {
      DroppedAt(offs, i, k);
      DroppedAt(offs, i, k + 1);
      if k == i {
        PairIsSlice(offs, piece, i);
      }
    }
  }

  lemma UnitBounds(offs: seq<nat>, piece: Bytes)
    requires |offs| == |piece| + 1
    requires forall i :: 0 <= i < |offs| ==> offs[i] == i
    ensures Bounds(offs, piece) && Segments(offs, piece) == Singles(piece)
  {
    forall i: nat | i < |piece| ensures Segments(offs, piece)[i] == Singles(piece)[i] {
      assert piece[i..i + 1] == [piece[i]];
    }
  }

  // ----- The tokenizer -----

  class Tokenizer {
    const ranks: Vocabulary

    constructor (ranks: Vocabulary)
      ensures this.ranks == ranks
    {
      this.ranks := ranks;
    }

    /** The rank of the pair at i; past the last pair, that of an unknown one. */
    method RankAt(piece: Bytes, parts: array<nat>, n: nat, i: nat) returns (rank: int)
      requires n <= parts.Length && Bounds(parts[..n], piece)
      ensures rank == if i + 2 >= n then MAX_RANK else PairRank(ranks, Segments(parts[..n], piece), i)
    {
      if i + 2 >= n {
        return MAX_RANK;
      }
      ghost var offs := parts[..n];
      PairIsSlice(offs, piece, i);
      assert parts[i] == offs[i] && parts[i + 2] == offs[i + 2];
      var pair := piece[parts[i]..parts[i + 2]];
      rank := if pair in ranks then ranks[pair] else MAX_RANK;
    }

    /** The scan for the least pair among the first n offsets. */
    method LeastPair(piece: Bytes, parts: array<nat>, n: nat) returns (r: Option<nat>)
      requires 2 <= n <= parts.Length && Bounds(parts[..n], piece)
      ensures r == Best(ranks, Segments(parts[..n], piece))
    {
      var minRank := MAX_RANK;
      r := None;
      ghost var segs := Segments(parts[..n], piece);
      var i := 0;
      while i + 2 < n
        invariant 0 <= i <= n - 2
        invariant r == BestOf(ranks, segs, i)
        invariant minRank == LeastRank(ranks, segs, r)
      {
        var rank := RankAt(piece, parts, n, i);
        BestStep(ranks, segs, i, r, minRank, rank);
        if rank < minRank {
          minRank, r := rank, Some(i);
        }
        i := i + 1;
      }
    }

    /** Shifts the offsets after i + 1 one place down. */
    method RemoveOffset(parts: array<nat>, n: nat, i: nat)
      requires i + 2 < n <= parts.Length
      modifies parts
      ensures parts[..n - 1] == Dropped(old(parts[..n]), i)
    {
      ghost var was := parts[..n];
      var k := i + 1;
      while k + 1 < n
        invariant i + 1 <= k <= n - 1
        invariant forall m :: 0 <= m <= i ==> parts[m] == was[m]
        invariant forall m :: i < m < k ==> parts[m] == was[m + 1]
        invariant forall m :: k <= m < n ==> parts[m] == was[m]
      {
        parts[k] := parts[k + 1];
        k := k + 1;
      }
      Shifted(parts[..n - 1], was, i);
    }

    /** One round of the merge: drops the offset inside the least pair, if there is one. */
    method JoinLeast(piece: Bytes, parts: array<nat>, n: nat) returns (joined: bool)
      requires 2 <= n <= parts.Length && Bounds(parts[..n], piece)
      modifies parts
      ensures joined <==> Best(ranks, Segments(old(parts[..n]), piece)) != None
      ensures !joined ==> parts[..n] == old(parts[..n])
      ensures joined ==>
        && n > 2 && Bounds(parts[..n - 1], piece)
        && Segments(parts[..n - 1], piece)
           == var segs := Segments(old(parts[..n]), piece); JoinAt(segs, Best(ranks, segs).value)
    {
      var least := LeastPair(piece, parts, n);
      if least == None {
        return false;
      }
      ghost var offs := parts[..n];
      DropJoins(offs, piece, least.value);
      RemoveOffset(parts, n, least.value);
      joined := true;
    }

    /** The in-place merge leaves as many segments as the list definition. */
    method MergeCount(piece: Bytes) returns (count: nat)
      requires |piece| >= 1
      ensures count == |Merge(ranks, Singles(piece))|
    {
      var parts := new nat[|piece| + 1](i => i);
      var n := |piece| + 1;
      UnitBounds(parts[..n], piece);
      while n > 2
        invariant 2 <= n <= parts.Length
        invariant Bounds(parts[..n], piece)
        invariant Merge(ranks, Segments(parts[..n], piece)) == Merge(ranks, Singles(piece))
        decreases n
      {
        var joined := JoinLeast(piece, parts, n);
        if !joined {
          break;
        }
        n := n - 1;
      }
      count := n - 1;
    }

    method BpeCount(piece: Bytes) returns (count: nat)
      ensures count == |Tokens(ranks, piece)|
      decreases |piece|
    {
      if |piece| == 0 {
        return 0;
      }
      if piece in ranks {
        return 1;
      }
      if |piece| == 1 {
        return 1;
      }
      if |piece| > MAX_MERGE_LEN {
        var head := BpeCount(piece[..MAX_MERGE_LEN]);
        var tail := BpeCount(piece[MAX_MERGE_LEN..]);
        return head + tail;
      }
      count := MergeCount(piece);
    }
  }

  /** The token count of a text cut into pre-token chunks; a tokenizer that failed to load
      counts nothing. */
  method Count(t: Tokenizer?, chunks: seq<Bytes>) returns (total: nat)
    ensures total == if t == null then 0 else |AllTokens(t.ranks, chunks)|
    ensures total <= |Concat(chunks)|
  {
    total := 0;
    if t == null {
      return;
    }
    for i := 0 to |chunks|
      invariant total == |AllTokens(t.ranks, chunks[..i])|
    {
      var n := t.BpeCount(chunks[i]);
      assert chunks[..i + 1][..i] == chunks[..i];
      total := total + n;
    }
    assert chunks[..|chunks|] == chunks;
    AllTokensSegmentText(t.ranks, chunks);
  }
}
