/**
  Middleware and handlers as values.

  A Go `Middleware` is a function from handler to handler; here a middleware is
  a named value and applying it to a handler builds the wrapped handler, so that
  composed handlers can be compared and inspected in specifications.
 */
module Handlers {

  /** How a middleware treats the handler it wraps (see the Semantics module). */
  datatype Kind =
    | Around        // runs its "before" logic, calls the inner handler, then its "after" logic
    | ShortCircuit  // runs its "before" logic and never calls the inner handler
    | Recover       // like Around, but a panic of the inner handler is caught here

  datatype Mw = Mw(name: string, kind: Kind)

  /** A terminal endpoint handler, or a handler wrapped by one middleware. */
  datatype Handler =
    | Terminal(name: string, panics: bool)
    | Wrapped(m: Mw, inner: Handler)

  /** `m(f)`: applying a middleware to a handler. */
  function Apply(m: Mw, f: Handler): (r: Handler)
    ensures Layers(r) == [m] + Layers(f) && Core(r) == Core(f)
  {
    Wrapped(m, f)
  }

  /** The wrapping layers of a handler, outermost first. */
  function Layers(h: Handler): (r: seq<Mw>)
  {
    match h
    case Terminal(_, _) => []
    case Wrapped(m, inner) => [m] + Layers(inner)
  }

  /** The terminal handler at the centre of all layers. */
  function Core(h: Handler): (r: Handler)
    ensures r.Terminal?
  {
    match h
    case Terminal(_, _) => h
    case Wrapped(_, inner) => Core(inner)
  }

  /**
    The composition of `ms` around `h` as a right fold: the first middleware
    of the list is the outermost layer and the last one wraps `h` directly.
   */
  function Compose(ms: seq<Mw>, h: Handler): (r: Handler)
    ensures Layers(r) == ms + Layers(h)
    ensures Core(r) == Core(h)
  {
    if ms == [] then h else Apply(ms[0], Compose(ms[1..], h))
  }

  /** A handler is rebuilt from its layers and its core: Compose inverts (Layers, Core). */
  lemma {:induction false} ComposeLayersCore(h: Handler)
    ensures Compose(Layers(h), Core(h)) == h
  {
    match h
    case Terminal(_, _) =>
    case Wrapped(m, inner) =>
      ComposeLayersCore(inner);
      assert Layers(h)[1..] == Layers(inner);
  }

  /** Composition distributes over concatenation of middleware lists. */
  lemma {:induction false} ComposeAppend(a: seq<Mw>, b: seq<Mw>, h: Handler)
    ensures Compose(a + b, h) == Compose(a, Compose(b, h))
  {
    if a == [] {
      assert a + b == b;
    } else {
      ComposeAppend(a[1..], b, h);
      assert (a + b)[1..] == a[1..] + b;
    }
  }

  /** The last middleware of the list is the innermost layer, directly around `h`. */
  lemma ComposeSnoc(ms: seq<Mw>, m: Mw, h: Handler)
    ensures Compose(ms + [m], h) == Compose(ms, Apply(m, h))
  {
    ComposeAppend(ms, [m], h);
  }

  /**
    As values, different middleware lists give different compositions around
    the same handler: a composition computed from a longer list is never the
    one computed from its prefix. This is about the composed values only; two
    different compositions may still behave alike (see
    Semantics.ShortCircuitHidesLater).
   */
  lemma ComposeInjective(a: seq<Mw>, b: seq<Mw>, h: Handler)
    ensures Compose(a, h) == Compose(b, h) <==> a == b
  {
  }
}
