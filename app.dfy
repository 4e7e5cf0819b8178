/** The App of main.go: an ordered middleware list and a route table, plus
 *  the free-standing ApplyMiddleware composer.
 *
 *  The `http.ServeMux` is modelled only as the map from pattern to the
 *  handler that `Handle` stored under it; pattern matching is not modelled.
 */
module Router {
  import opened Handlers

  class App {
    /** The middlewares in registration order. */
    var middlewares: seq<Middleware>
    /** The route table: pattern to composed handler. */
    var mux: map<string, Handler>

    /** NewApp: an empty route table and no middleware. */
    constructor ()
      ensures middlewares == [] && mux == map[]
    {
      middlewares := [];
      mux := map[];
    }

    /** Use appends `mw` to the chain; the route table is untouched, so
     *  handlers already registered keep the middlewares they were built with. */
    method Use(mw: Middleware)
      modifies this`middlewares
      ensures middlewares == old(middlewares) + [mw]
      ensures |middlewares| == |old(middlewares)| + 1
      ensures middlewares[..|old(middlewares)|] == old(middlewares)
      ensures middlewares[|middlewares| - 1] == mw
      ensures mux == old(mux)
    {
      middlewares := middlewares + [mw];
    }

    /** Handle composes the current middlewares around `handler`, the first
     *  registered outermost, and stores the result under `pattern`. */
    method Handle(pattern: string, handler: Handler)
      modifies this`mux
      ensures middlewares == old(middlewares)
      ensures mux == old(mux)[pattern := Compose(middlewares, handler)]
      ensures middlewares == [] ==> mux[pattern] == handler
      ensures Layers(mux[pattern]) == middlewares + Layers(handler)
    {
      var finalHandler := handler;
      var i := |middlewares| - 1;
      while i >= 0
        invariant -1 <= i < |middlewares|
        invariant finalHandler == Compose(middlewares[i + 1..], handler)
        decreases i
      {
        assert middlewares[i..][1..] == middlewares[i + 1..];
        finalHandler := Wrapped(middlewares[i], finalHandler);
        i := i - 1;
      }
      ComposeLayers(middlewares, handler);
      mux := mux[pattern := finalHandler];
    }
  }

  /** ApplyMiddleware wraps `h` with `ms` front to back, so the LAST middleware
   *  of `ms` ends up outermost: the reverse of the nesting `Handle` builds. */
  method ApplyMiddleware(h: Handler, ms: seq<Middleware>) returns (r: Handler)
    ensures r == Compose(Reversed(ms), h)
    ensures Layers(r) == Reversed(ms) + Layers(h)
    ensures Core(r) == Core(h)
  {
    r := h;
    for i := 0 to |ms|
      invariant r == Compose(Reversed(ms[..i]), h)
    {
      assert ms[..i + 1] == ms[..i] + [ms[i]];
      ReversedAppend(ms[..i], ms[i]);
      r := Wrapped(ms[i], r);
    }
    assert ms[..|ms|] == ms;
    ComposeLayers(Reversed(ms), h);
  }

  /** Handle's composition over `ms` is what ApplyMiddleware builds from `ms`
   *  reversed, and the layers of ApplyMiddleware's nesting are `ms` read
   *  from the last element to the first. */
  lemma ComposeOrdersAreReversed(ms: seq<Middleware>, h: Handler)
    ensures Compose(ms, h) == Compose(Reversed(Reversed(ms)), h)
    ensures |Layers(Compose(Reversed(ms), h))| == |ms| + |Layers(h)|
    ensures forall k :: 0 <= k < |ms| ==> Layers(Compose(Reversed(ms), h))[k] == ms[|ms| - 1 - k]
  {
    ReversedInvolutive(ms);
    ComposeLayers(Reversed(ms), h);
    if ms != [] {
      ReversedAt(ms, 0);
    }
    forall k | 0 <= k < |ms|
      ensures Layers(Compose(Reversed(ms), h))[k] == ms[|ms| - 1 - k]
    {
      ReversedAt(ms, k);
    }
  }
}
