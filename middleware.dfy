/** Composing handlers with middlewares (internal/shared/httpmux/middleware.go). */
module Middleware {
  /** The handler the middlewares `ms` make of `h`: ms[0](ms[1](... ms[n-1](h))). */
  function Composed<H>(ms: seq<H -> H>, h: H): H
    decreases |ms|
  {
    if ms == [] then h else ms[0](Composed(ms[1..], h))
  }

  /**
   * applyMiddlewares: wraps the handler from the last middleware to the first, so the
   * first one listed ends up outermost.
   */
  method ApplyMiddlewares<H>(handler: H, middlewares: seq<H -> H>) returns (r: H)
    ensures r == Composed(middlewares, handler)
  {
    r := handler;
    var i := |middlewares| - 1;
    while i >= 0
      invariant -1 <= i < |middlewares|
      invariant r == Composed(middlewares[i + 1..], handler)
    {
      assert middlewares[i..][1..] == middlewares[i + 1..];
      r := middlewares[i](r);
      i := i - 1;
    }
    assert middlewares[0..] == middlewares;
  }

  /** No middlewares leave the handler as it is; one middleware wraps it once. */
  lemma ComposedSmall<H>(m: H -> H, h: H)
    ensures Composed([], h) == h
    ensures Composed([m], h) == m(h)
  {
  }

  /** A middleware appended to the list wraps the handler innermost. */
  lemma {:induction false} ComposedAppend<H>(ms: seq<H -> H>, m: H -> H, h: H)
    ensures Composed(ms + [m], h) == Composed(ms, m(h))
    decreases |ms|
  {
    if ms == [] {
      assert ms + [m] == [m];
    } else {
      assert (ms + [m])[1..] == ms[1..] + [m];
      ComposedAppend(ms[1..], m, h);
    }
  }

  /** Applying two lists in turn is applying their concatenation: the earlier list stays outside. */
  lemma {:induction false} ComposedConcat<H>(outer: seq<H -> H>, inner: seq<H -> H>, h: H)
    ensures Composed(outer + inner, h) == Composed(outer, Composed(inner, h))
    decreases |outer|
  {
    if outer == [] {
      assert outer + inner == inner;
    } else {
      assert (outer + inner)[1..] == outer[1..] + inner;
      ComposedConcat(outer[1..], inner, h);
    }
  }
}
