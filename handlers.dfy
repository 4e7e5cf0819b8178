/** Handlers and middlewares of main.go, as values.
 *
 *  A Go `http.Handler` is a capability; here a handler is either a terminal
 *  handler that writes a response body, or a handler produced by applying a
 *  middleware to an inner handler.  A `Middleware` (Go: `func(http.Handler)
 *  http.Handler`) is modelled by the shape both middlewares of main.go have:
 *  log a "before" line, delegate to the wrapped handler, log an "after" line.
 *  Applying middleware `m` to handler `next` (Go: `m(next)`) is the value
 *  `Wrapped(m, next)`.
 */
module Handlers {

  /** One observable effect of serving a request. */
  datatype Event =
    | Log(text: string)     // a line written to the log
    | Write(body: string)   // bytes written to the response

  /** A wrapping middleware: what it logs before and after delegating. */
  datatype Middleware = Middleware(name: string, before: string, after: string)

  datatype Handler =
    | Terminal(body: string)
    | Wrapped(mw: Middleware, inner: Handler)

  /** LoggingMiddleware: "Started ..." before, "Completed in ..." after. */
  const Logging: Middleware := Middleware("LoggingMiddleware", "Started", "Completed")

  /** AnotherMiddleware: "Before handling request" / "After handling request". */
  const Another: Middleware :=
    Middleware("AnotherMiddleware", "Before handling request", "After handling request")

  /** The route handler registered for "/" by main. */
  const HelloWorld: Handler := Terminal("Hello, World!")

  /** The trace of events produced when handler `h` serves one request. */
  function Run(h: Handler): seq<Event>
  {
    match h
    case Terminal(body) => [Write(body)]
    case Wrapped(m, inner) => [Log(m.before)] + Run(inner) + [Log(m.after)]
  }

  /** The middlewares wrapped around `h`, outermost first. */
  function Layers(h: Handler): seq<Middleware>
  {
    match h
    case Terminal(_) => []
    case Wrapped(m, inner) => [m] + Layers(inner)
  }

  /** The body written by the terminal handler at the centre of `h`. */
  function Core(h: Handler): string
  {
    match h
    case Terminal(body) => body
    case Wrapped(_, inner) => Core(inner)
  }

  /** ms[0](ms[1](...ms[n-1](h))): the first middleware of `ms` is outermost. */
  function Compose(ms: seq<Middleware>, h: Handler): Handler
  {
    if ms == [] then h else Wrapped(ms[0], Compose(ms[1..], h))
  }

  function Reversed<T>(s: seq<T>): seq<T>
  {
    if s == [] then [] else [s[|s| - 1]] + Reversed(s[..|s| - 1])
  }

  lemma {:induction false} ReversedAt<T>(s: seq<T>, k: nat)
    requires k < |s|
    ensures |Reversed(s)| == |s|
    ensures Reversed(s)[k] == s[|s| - 1 - k]
  {
    if k > 0 {
      ReversedAt(s[..|s| - 1], k - 1);
    } else if |s| > 1 {
      ReversedAt(s[..|s| - 1], 0);
    }
  }

  lemma {:induction false} ReversedAppend<T>(s: seq<T>, x: T)
    ensures Reversed(s + [x]) == [x] + Reversed(s)
  {
  }

  lemma {:induction false} ReversedInvolutive<T>(s: seq<T>)
    ensures Reversed(Reversed(s)) == s
  {
    if s != [] {
      var init, last := s[..|s| - 1], s[|s| - 1];
      calc {
        Reversed(Reversed(s));
        Reversed([last] + Reversed(init));
        { ReversedInvolutive(init);
          ReversedFront(last, Reversed(init)); }
        init + [last];
        { assert s == init + [last]; }
        s;
      }
    }
  }

  lemma {:induction false} ReversedFront<T>(x: T, s: seq<T>)
    ensures Reversed([x] + s) == Reversed(s) + [x]
  {
    if s != [] {
      var init, last := s[..|s| - 1], s[|s| - 1];
      assert ([x] + s)[..|[x] + s| - 1] == [x] + init;
      ReversedFront(x, init);
    } else {
      assert Reversed([x]) == [x] + Reversed([]);
    }
  }

  /** Composition puts exactly `ms` around `h`, in order, and keeps its core. */
  lemma {:induction false} ComposeLayers(ms: seq<Middleware>, h: Handler)
    ensures Layers(Compose(ms, h)) == ms + Layers(h)
    ensures Core(Compose(ms, h)) == Core(h)
  {
    if ms != [] {
      ComposeLayers(ms[1..], h);
      assert ms == [ms[0]] + ms[1..];
    }
  }

  /** Every handler is its layers composed around its terminal handler. */
  lemma {:induction false} ComposeOfLayers(h: Handler)
    ensures Compose(Layers(h), Terminal(Core(h))) == h
  {
    match h
    case Terminal(_) =>
    case Wrapped(m, inner) =>
      ComposeOfLayers(inner);
      assert ([m] + Layers(inner))[1..] == Layers(inner);
  }

  /** Appending a middleware makes it the innermost layer. */
  lemma {:induction false} ComposeAppend(ms: seq<Middleware>, m: Middleware, h: Handler)
    ensures Compose(ms + [m], h) == Compose(ms, Wrapped(m, h))
  {
    if ms != [] {
      assert (ms + [m])[1..] == ms[1..] + [m];
      ComposeAppend(ms[1..], m, h);
    }
  }

  /** Serving through a composed handler is well nested: the before-events
   *  come in list order, then the inner handler's trace, then the
   *  after-events in reverse list order. */
  lemma {:induction false} ComposeTrace(ms: seq<Middleware>, h: Handler)
    ensures |Run(Compose(ms, h))| == 2 * |ms| + |Run(h)|
    ensures forall k :: 0 <= k < |ms| ==> Run(Compose(ms, h))[k] == Log(ms[k].before)
    ensures forall k :: 0 <= k < |ms| ==>
              Run(Compose(ms, h))[|Run(Compose(ms, h))| - 1 - k] == Log(ms[k].after)
    ensures Run(Compose(ms, h))[|ms|..|ms| + |Run(h)|] == Run(h)
  {
    if ms != [] {
      var tail := ms[1..];
      var rest := Run(Compose(tail, h));
      ComposeTrace(tail, h);
      var first := [Log(ms[0].before)];
      var t := first + rest + [Log(ms[0].after)];
      assert Run(Compose(ms, h)) == t;
      var n := |t|;
      forall k | 0 <= k < |ms|
        ensures t[k] == Log(ms[k].before) && t[n - 1 - k] == Log(ms[k].after)
      {
        if k > 0 {
          assert tail[k - 1] == ms[k];
          assert t[k] == rest[k - 1];
          assert t[n - 1 - k] == rest[|rest| - 1 - (k - 1)];
        }
      }
      assert t[|ms|..|ms| + |Run(h)|] == rest[|tail|..|tail| + |Run(h)|];
    }
  }

  /** The effect of LoggingMiddleware on a request. */
  lemma LoggingTrace(next: Handler)
    ensures Run(Wrapped(Logging, next)) == [Log("Started")] + Run(next) + [Log("Completed")]
  {
  }

  /** The effect of AnotherMiddleware on a request. */
  lemma AnotherTrace(next: Handler)
    ensures Run(Wrapped(Another, next))
         == [Log("Before handling request")] + Run(next) + [Log("After handling request")]
  {
  }
}
