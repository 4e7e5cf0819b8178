/** The set-up performed by main in main.go, without starting the server. */
module Program {
  import opened Handlers
  import opened Router

  /** The events of one request to "/" after main's registrations. */
  const MainTrace: seq<Event> := [
    Log("Started"),
    Log("Before handling request"),
    Write("Hello, World!"),
    Log("After handling request"),
    Log("Completed")
  ]

  lemma ComposeTwo(ms: seq<Middleware>, h: Handler)
    requires ms == [Logging, Another]
    ensures Compose(ms, h) == Wrapped(Logging, Wrapped(Another, h))
  {
    assert ms[1..] == [Another] && ms[1..][1..] == [];
    assert Compose(ms[1..], h) == Wrapped(Another, Compose([], h));
  }

  /** Registers LoggingMiddleware, then AnotherMiddleware, then the "/"
   *  route, and serves one request to "/". */
  method MainScenario() returns (trace: seq<Event>)
    ensures trace == MainTrace
  {
    var app := new App();
    app.Use(Logging);
    app.Use(Another);
    app.Handle("/", HelloWorld);
    ComposeTwo(app.middlewares, HelloWorld);
    assert app.mux["/"] == Wrapped(Logging, Wrapped(Another, HelloWorld));
    trace := Run(app.mux["/"]);
  }

  /** A middleware registered after "/" does not wrap the "/" handler:
   *  composition happens when the route is registered. */
  method LateUseScenario(late: Middleware) returns (trace: seq<Event>)
    ensures trace == MainTrace
  {
    var app := new App();
    app.Use(Logging);
    app.Use(Another);
    app.Handle("/", HelloWorld);
    ComposeTwo(app.middlewares, HelloWorld);
    assert app.mux["/"] == Wrapped(Logging, Wrapped(Another, HelloWorld));
    app.Use(late);
    trace := Run(app.mux["/"]);
  }
}
