/** Loops that append a few elements for each element of a list, as one function of the list. The
    lemmas say how such a loop continues by one round, how it runs over two lists one after the
    other, what it does over the output of another such loop, and when a second loop gives back or
    erases what the first one was given. Used wherever the source builds a slice by appending in a
    loop. */
module Flattening {
  lemma Associative<T>(a: seq<T>, b: seq<T>, c: seq<T>)
    ensures (a + b) + c == a + (b + c)
  {
  }

  function FlatMap<A, B>(f: A -> seq<B>, s: seq<A>): seq<B> {
    if s == [] then [] else FlatMap(f, s[..|s| - 1]) + f(s[|s| - 1])
  }

  /** One more round of the loop. */
  lemma FlatMapNext<A, B>(f: A -> seq<B>, s: seq<A>, i: nat)
    requires i < |s|
    ensures FlatMap(f, s[..i + 1]) == FlatMap(f, s[..i]) + f(s[i])
  {
    assert s[..i + 1][..i] == s[..i];
  }

  lemma {:induction false} FlatMapAll<A, B>(f: A -> seq<B>, s: seq<A>)
    ensures FlatMap(f, s[..|s|]) == FlatMap(f, s)
  {
    assert s[..|s|] == s;
  }

  lemma FlatMapOne<A, B>(f: A -> seq<B>, x: A)
    ensures FlatMap(f, [x]) == f(x)
  {
    assert [x][..0] == [];
  }

  lemma {:induction false} FlatMapAppend<A, B>(f: A -> seq<B>, a: seq<A>, b: seq<A>)
    ensures FlatMap(f, a + b) == FlatMap(f, a) + FlatMap(f, b)
    decreases |b|
  {
    if b == [] {
      assert a + b == a;
    } else {
      var n := |b| - 1;
      FlatMapAppend(f, a, b[..n]);
      assert (a + b)[..|a + b| - 1] == a + b[..n];
      assert (a + b)[|a + b| - 1] == b[n];
    }
  }

  /** One loop over the output of another does, element by element, what h does. */
  lemma {:induction false} FlatMapComposes<A, B, C>(f: A -> seq<B>, g: B -> seq<C>, h: A -> seq<C>, s: seq<A>)
    requires forall i :: 0 <= i < |s| ==> FlatMap(g, f(s[i])) == h(s[i])
    ensures FlatMap(g, FlatMap(f, s)) == FlatMap(h, s)
  {
    if s != [] {
      var n := |s| - 1;
      FlatMapComposes(f, g, h, s[..n]);
      FlatMapAppend(g, FlatMap(f, s[..n]), f(s[n]));
    }
  }

  function Singleton<A>(x: A): seq<A> {
    [x]
  }

  lemma {:induction false} FlatMapSingletons<A>(s: seq<A>)
    ensures FlatMap(Singleton, s) == s
  {
    if s != [] {
      FlatMapSingletons(s[..|s| - 1]);
    }
  }

  /** Where g turns the image of each element back into that element, it does so for the list. */
  lemma {:induction false} FlatMapRestores<A, B>(f: A -> seq<B>, g: B -> seq<A>, s: seq<A>)
    requires forall i :: 0 <= i < |s| ==> FlatMap(g, f(s[i])) == [s[i]]
    ensures FlatMap(g, FlatMap(f, s)) == s
  {
    FlatMapComposes(f, g, Singleton, s);
    FlatMapSingletons(s);
  }

  function Nothing<A, B>(x: A): seq<B> {
    []
  }

  lemma {:induction false} FlatMapErases<A, B, C>(f: A -> seq<B>, g: B -> seq<C>, s: seq<A>)
    requires forall i :: 0 <= i < |s| ==> FlatMap(g, f(s[i])) == []
    ensures FlatMap(g, FlatMap(f, s)) == []
  {
    FlatMapComposes(f, g, Nothing<A, C>, s);
    FlatMapEmpty(Nothing<A, C>, s);
  }

  lemma {:induction false} FlatMapEmpty<A, B>(f: A -> seq<B>, s: seq<A>)
    requires forall i :: 0 <= i < |s| ==> f(s[i]) == []
    ensures FlatMap(f, s) == []
  {
    if s != [] {
      FlatMapEmpty(f, s[..|s| - 1]);
    }
  }

  /** Functions that agree on the elements give the same list. */
  lemma {:induction false} FlatMapAgrees<A, B>(f: A -> seq<B>, g: A -> seq<B>, s: seq<A>)
    requires forall i :: 0 <= i < |s| ==> f(s[i]) == g(s[i])
    ensures FlatMap(f, s) == FlatMap(g, s)
  {
    if s != [] {
      FlatMapAgrees(f, g, s[..|s| - 1]);
    }
  }

  /** Every element of the list comes from some element it was made of. */
  lemma {:induction false} FlatMapOrigin<A, B>(f: A -> seq<B>, s: seq<A>, y: B)
    requires y in FlatMap(f, s)
    ensures exists i :: 0 <= i < |s| && y in f(s[i])
  {
    var n := |s| - 1;
    if y !in f(s[n]) {
      FlatMapOrigin(f, s[..n], y);
      var i :| 0 <= i < n && y in f(s[..n][i]);
      assert y in f(s[i]);
    }
  }

  /** Where every element gives exactly one, positions are kept. */
  lemma {:induction false} FlatMapEach<A, B>(f: A -> seq<B>, s: seq<A>)
    requires forall i :: 0 <= i < |s| ==> |f(s[i])| == 1
    ensures |FlatMap(f, s)| == |s|
    ensures forall i :: 0 <= i < |s| ==> FlatMap(f, s)[i] == f(s[i])[0]
  {
    if s != [] {
      FlatMapEach(f, s[..|s| - 1]);
    }
  }
}
