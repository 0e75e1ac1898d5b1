# go-http-middleware: the middleware builder, in Dafny

This project models the middleware composer of the Go package `middleware`.
A `Builder` holds an append-only list of middleware and an injected `Mux`.
`With` appends middleware. `Handle` and `HandleFunc` wrap an endpoint handler
in the current list and register the result with the mux. A package-level
default builder, with an empty list around the process-wide default mux, gets
the same three operations as plain functions.

Wrapping is done once, at registration time, by a backward loop. It starts
from the handler and applies the middleware from the last one to the first.
So the first middleware appended is the outermost layer.

Files and modules:

- `handlers.dfy`, module `Handlers`: middleware and handlers as values. A
  `Handler` is either a `Terminal` endpoint or `Wrapped(m, inner)`, which is
  what applying middleware `m` to `inner` produces. `Compose(ms, h)` is the
  composition as a right fold. `Layers` and `Core` take a handler apart again.
  The lemmas give the algebra of composition.
- `semantics.dfy`, module `Semantics`: what a request through a composed
  handler does, as an ordered event log. `Run` covers three shapes of
  middleware. An `Around` middleware has the shape of the logging middleware in
  `main.go`: it runs its "before" logic, calls the next handler, then runs its
  "after" logic. A `ShortCircuit` middleware never calls the next handler. A
  `Recover` middleware has the shape of the recovering middleware in `main.go`:
  it catches a panic of the next handler. A terminal handler may panic. The
  lemmas state the request order that composition produces.
- `middleware.dfy`, module `Middleware`: the imperative part. `Mux` is a class
  whose registration table is an append-only log. `CompileHandlerWithMiddleware`
  is the backward `while` loop, proved to compute `Compose`. `Builder` is a
  class with the `mux` reference and the `middlewares` field that `With`
  reassigns. `Package` holds the default builder and its forwarders.

## Model

| member | source | states |
|---|---|---|
| Handlers.Apply | middleware/middleware.go:37 | applying a middleware adds exactly one layer, outside all existing ones, and leaves the endpoint at the centre alone |
| Handlers.Compose | middleware/middleware.go:35-40 | composing `ms` around `h` puts exactly the layers `ms`, in list order from the outside in, around the layers of `h`, and keeps the endpoint of `h` |
| Handlers.ComposeLayersCore | middleware/middleware.go:35-40 | every handler is the composition of its own layers around its endpoint, so `Compose` and (`Layers`, `Core`) are inverse |
| Handlers.ComposeAppend | middleware/middleware.go:36-38 | composition distributes over concatenation: `Compose(a + b, h) == Compose(a, Compose(b, h))` |
| Handlers.ComposeSnoc | middleware/middleware.go:36-38 | the last middleware of the list is the innermost layer, applied directly to the handler |
| Handlers.ComposeInjective | middleware/middleware.go:35-40 | as handler values, two lists give the same composition around a handler if and only if the lists are equal; this is about the composed values, not their behaviour (see `ShortCircuitHidesLater`) |
| Semantics.Run | main.go:14-55 | a request through a handler: an Around layer (the shape of `LogMiddleware1`) logs Before, runs the inner handler, and logs After only if the inner handler returned normally, so a panic skips its "after" logic; a ShortCircuit layer logs Before and never calls the inner handler; a Recover layer (the shape of `RecoverMiddleware`) catches a panic of the inner handler and logs Recovered instead of After; an endpoint (the shape of `HttpHandleHello`, `HttpHandlePanic`) logs its invocation and may panic. The contract states that the first event is the outermost layer's entry and that a panic can only come from the endpoint |
| Semantics.AroundLayers | middleware/middleware.go:35-40 | through any number of Around layers a request logs their "before" events in list order, then what the inner handler logs, then, unless it panicked, their "after" events in reverse order; a panic escapes all of them |
| Semantics.AroundOrder | middleware/middleware.go:35-40 | with all layers Around and an endpoint that returns, the log is Before(m0) … Before(m(n-1)), the endpoint, After(m(n-1)) … After(m0), and nothing else |
| Semantics.ShortCircuitOrder | middleware/middleware.go:35-40 | when every layer outside the first short-circuiting layer is Around, the exact log is the outer "before" events, the short-circuiting layer's entry, then the outer "after" events in reverse: neither inner layers nor the endpoint run |
| Semantics.ShortCircuitAnyOuter | middleware/middleware.go:35-40 | whatever the layers outside it, a short-circuiting layer hides everything inside it: the whole composition runs exactly as the list cut after that layer, around any other endpoint |
| Semantics.ShortCircuitHidesLater | middleware/middleware.go:35-40 | middleware appended after a short-circuiting layer does not change what a request does, although the composed value differs |
| Semantics.RecoverOrder | main.go:44-55 | a recovering layer under Around layers logs Recovered instead of After when the inner chain panics, stops the panic, and the outer "after" events still run |
| Semantics.PanicPropagates | middleware/middleware.go:35-40 | a panic reaches the caller of the composed handler if and only if the endpoint panics and every layer is Around |
| Semantics.RunIsolated | middleware/middleware.go:35-40 | every event of a request belongs to one of the handler's own layers or to its endpoint |
| Semantics.ComposedIsolated | middleware/middleware.go:25-33 | a request through an endpoint registered with a middleware list runs only middleware of that list and that endpoint, so registrations with different lists never run each other's middleware |
| Semantics.DemoStackRun | main.go:74 | any five-layer stack shaped like the demo's (Around, Recover, Around, Around, Around) around any endpoint logs every entry and the endpoint, then every exit in reverse, or, when the endpoint panics, the recovery and only the outermost exit; nothing escapes |
| Semantics.DemoStackScenario | main.go:74 | the five-layer stack Timer, Recover, Log, Log1, Log2 around a normal endpoint and around a panicking endpoint gives exactly the two expected logs |
| Middleware.Mux.Handle | middleware/middleware.go:10 | a registration through the mux's `Handle` entry point appends exactly one entry to its table |
| Middleware.Mux.HandleFunc | middleware/middleware.go:11 | a registration through the mux's `HandleFunc` entry point appends exactly one entry to its table |
| Middleware.CompileHandlerWithMiddleware | middleware/middleware.go:35-40 | the backward loop computes `Compose(middlewares, f)`; with an empty list it returns `f` unchanged |
| Middleware.Builder.constructor | middleware/middleware.go:15-18 | a builder holds the given mux and starts with no middleware |
| Middleware.Builder.With | middleware/middleware.go:20-23 | the list becomes the old list followed by the arguments in argument order; the mux table is unchanged; the same builder is returned |
| Middleware.Builder.Handle | middleware/middleware.go:25-28 | the list is unchanged and the mux gets exactly one new registration: the pattern with the composition of the current list around the handler; the same builder is returned |
| Middleware.Builder.HandleFunc | middleware/middleware.go:30-33 | as `Handle`, through the mux's `HandleFunc` entry point |
| Middleware.RegisterThenExtend | middleware/middleware.go:20-33 | a client of the builder that illustrates the frame of `With`: after a registration and a later `With`, the registration still holds the composition of the earlier list, which, as a handler value, differs from the composition of the extended list whenever something was appended (its behaviour may not differ: layers after a short-circuiting layer change nothing a request does) |
| Middleware.Package.constructor | middleware/middleware.go:42 | the default builder is new, holds the default mux and has an empty middleware list |
| Middleware.Package.Add | middleware/middleware.go:44-46 | behaves as `With` on the default builder |
| Middleware.Package.Handle | middleware/middleware.go:48-50 | behaves as `Builder.Handle` on the default builder |
| Middleware.Package.HandleFunc | middleware/middleware.go:52-54 | behaves as `Builder.HandleFunc` on the default builder |

## Left out

- The `net/http` types (`ResponseWriter`, `*http.Request`, `http.Handler`) are not modelled. Handlers and middleware are the values of module `Handlers`. `Handle` takes the same handler value as `HandleFunc`, because `handler.ServeHTTP` is just that handler's behaviour.
- The mux's own behaviour is not modelled: pattern matching, dispatch through `ServeHTTP`, and the panic of `http.DefaultServeMux` on a duplicate pattern. Only its registration table is modelled, as an append-only log.
- Requests are not dispatched through the mux. `Run` gives the behaviour of a composed handler directly.
- Middleware behaviour is reduced to three shapes (Around, ShortCircuit, Recover). The logging, timing and response writes of the middleware in `main.go` are events in a log, not I/O.
- The demo program in `main.go` is not modelled, apart from the shapes of its middleware and its five-layer middleware stack. An After event marks that a layer's code after the inner call runs, even where that code does nothing, as in `LogMiddleware`. It calls `DefaultHTTPBuilder` and `ListenAndServe`, which are not defined in `middleware/middleware.go`. Those functions are not part of this model, so there is no serve operation.
- The commented-out earlier version at the end of `middleware/middleware.go` is not modelled.
- Semantics.PanicPropagates: in the model only an endpoint can panic; a middleware's own "before" or "after" logic never raises, so the "only if" half does not cover a middleware that panics by itself.
- Concurrency is not modelled: per-request goroutines, and changes to the list while requests are served.
- Go's nil values are not modelled: a nil middleware, a nil mux, a zero-value `Builder`.
- Slices are modelled as immutable sequences. The backing array that Go's `append` may share is not modelled; nothing in the package keeps a second reference to the list.
