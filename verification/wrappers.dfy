/** The optional value used wherever the modelled code returns `None`, and the list filter built on it. */
module Wrappers {

  datatype Option<+T> = None | Some(value: T)

  /** Applies `f` to each element in order and keeps the values it produces. */
  function FilterMap<A, B>(f: A -> Option<B>, xs: seq<A>): (r: seq<B>)
    ensures |r| <= |xs|
  {
    if xs == [] then []
    else (match f(xs[0]) case Some(y) => [y] case None => []) + FilterMap(f, xs[1..])
  }

  lemma {:induction false} FilterMapAppend<A, B>(f: A -> Option<B>, a: seq<A>, b: seq<A>)
    ensures FilterMap(f, a + b) == FilterMap(f, a) + FilterMap(f, b)
    decreases |a|
  {
    if a == [] {
      assert a + b == b;
    } else {
      assert (a + b)[0] == a[0];
      assert (a + b)[1..] == a[1..] + b;
      FilterMapAppend(f, a[1..], b);
    }
  }

  /** Two filter-maps agree when their functions agree element by element. */
  lemma {:induction false} FilterMapPointwise<A, B, C>(f: A -> Option<C>, xs: seq<A>, g: B -> Option<C>, ys: seq<B>)
    requires |xs| == |ys|
    requires forall i :: 0 <= i < |xs| ==> f(xs[i]) == g(ys[i])
    ensures FilterMap(f, xs) == FilterMap(g, ys)
    decreases |xs|
  {
    if xs != [] {
      assert f(xs[0]) == g(ys[0]);
      FilterMapPointwise(f, xs[1..], g, ys[1..]);
    }
  }

  /** When `f` never drops an element, the filter-map keeps every position. */
  lemma {:induction false} FilterMapAllSome<A, B>(f: A -> Option<B>, xs: seq<A>)
    requires forall i :: 0 <= i < |xs| ==> f(xs[i]).Some?
    ensures |FilterMap(f, xs)| == |xs|
    ensures forall i :: 0 <= i < |xs| ==> FilterMap(f, xs)[i] == f(xs[i]).value
    decreases |xs|
  {
    if xs != [] {
      FilterMapAllSome(f, xs[1..]);
      assert FilterMap(f, xs) == [f(xs[0]).value] + FilterMap(f, xs[1..]);
    }
  }
}
