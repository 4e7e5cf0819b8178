# Middleware composition of a minimal Go HTTP router

This project models the core of `main.go`: an `App` that keeps an ordered list
of middlewares and a route table, and composes the whole middleware chain
around each route's handler at the moment the route is registered.

- `handlers.dfy` (module `Handlers`): handlers and middlewares as values.
  A handler is either `Terminal(body)` or `Wrapped(mw, inner)`. `Wrapped(m, h)`
  stands for the Go call `m(h)`. A middleware is a name with a "before" and an
  "after" log line, which is the shape both `LoggingMiddleware` and
  `AnotherMiddleware` have. `Run(h)` gives the events one request produces.
  `Compose(ms, h)` is `ms[0](ms[1](...ms[n-1](h)))`.
  `Layers` and `Core` take a handler apart again. Together they give an
  independent view of what a composition contains.
- `app.dfy` (module `Router`): the `App` class. Its `middlewares` field is a
  `seq` and its `mux` field is a `map` from pattern to handler. It has the
  constructor (`NewApp`) and the methods `Use` and `Handle`. `Handle` keeps the
  source's downward loop. The module also has `ApplyMiddleware` with its
  forward loop.
- `program.dfy` (module `Program`): the registrations that `main` performs,
  and the trace of one request to "/".

## Model

| member | source | states |
|---|---|---|
| Router.App.constructor | main.go:18-24 | a new app has no middlewares and an empty route table |
| Router.App.Use | main.go:26-29 | the middleware list grows by one; earlier entries are unchanged; the last entry is the new middleware; the route table is unchanged, so routes already registered keep their handlers |
| Router.App.Handle | main.go:31-38 | the middleware list is unchanged; the pattern maps to the current middlewares composed around the handler, first registered outermost; with no middlewares the handler itself is stored; the stored handler's layers are the middleware list followed by the handler's own layers |
| Router.ApplyMiddleware | main.go:82-88 | the result is the handler composed with the reversed list, which is Handle's composition over the reversed list; the layers are the reversed list followed by the handler's layers; the terminal handler is kept |
| Router.ComposeOrdersAreReversed | main.go:33-36 | Handle's composition over a list equals the composition over the list reversed twice, which is what ApplyMiddleware builds from the reversed list; in ApplyMiddleware's nesting, layer `k` from the outside is element `n-1-k` of the list, so the last listed middleware is outermost |
| Handlers.ComposeLayers | main.go:33-36 | composing `ms` around `h` adds exactly `ms` as outer layers, in list order, and keeps `h`'s terminal handler |
| Handlers.ComposeOfLayers | main.go:33-36 | every handler equals its layers composed around its terminal handler (the inverse of ComposeLayers) |
| Handlers.ComposeAppend | main.go:27-28 | a middleware appended to the list becomes the innermost layer of later compositions |
| Handlers.ComposeTrace | main.go:33-36 | a request through a composed handler is well nested: the before-events in list order, then the inner handler's events, then the after-events in reverse list order |
| Handlers.LoggingTrace | main.go:61-69 | LoggingMiddleware logs "Started", delegates, then logs "Completed" |
| Handlers.AnotherTrace | main.go:71-80 | AnotherMiddleware logs "Before handling request", delegates, then logs "After handling request" |
| Handlers.ReversedAt | main.go:84-86 | the reversed list has the same length and holds element `n-1-k` at position `k` |
| Handlers.ReversedInvolutive | main.go:84-86 | reversing a list twice gives the list back |
| Program.MainScenario | main.go:45-55 | after main's registrations, a request to "/" produces "Started", "Before handling request", the body "Hello, World!", "After handling request", "Completed" |
| Program.LateUseScenario | main.go:27-29 | a middleware registered after "/" does not change the events of a request to "/" |

## Left out

- `ListenAndServe` and the `log.Fatal` in `main` (main.go:41-43, 58): network I/O and process exit.
- The matching rules of `http.ServeMux`: precedence between patterns, "not found" responses, and the handling of repeated, empty or malformed patterns. The route table is a plain map, and `Handle` writes one entry into it. What the real multiplexer does when a pattern is registered twice is not part of this model.
- Middlewares of any other shape. The model only covers middlewares that log before, delegate once, and log after. A middleware that short-circuits or delegates more than once is not represented.
- The timing in `LoggingMiddleware` (`time.Now`, `time.Since`) and the exact log formatting, which includes the request method, the path and the elapsed time. Each log line is a fixed event text such as "Started".
- Requests and responses. A request is not a parameter of `Run`, and a response is only the body that the terminal handler writes.
- Concurrent serving of requests, which the net/http server does.
- route/route.go: it only registers one constant handler on a multiplexer field that is never initialised. It has no logic to model.
