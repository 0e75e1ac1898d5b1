/**
  The middleware builder: an append-only list of middleware and an injected
  mux. Registering a handler composes it with the list as it is at that moment
  and hands the result to the mux.
 */
module Middleware {
  import opened Handlers

  /** Which of the mux's two registration entry points was called. */
  datatype Entry = ViaHandle | ViaHandleFunc

  datatype Registration = Registration(entry: Entry, pattern: string, handler: Handler)

  /**
    The router the builder registers with. Only its registration table is
    modelled, as the log of every registration in the order it was made.
   */
  class Mux {
    var registrations: seq<Registration>

    constructor()
      ensures registrations == []
    {
      registrations := [];
    }

    method Handle(pattern: string, handler: Handler)
      modifies this
      ensures registrations == old(registrations) + [Registration(ViaHandle, pattern, handler)]
    {
      registrations := registrations + [Registration(ViaHandle, pattern, handler)];
    }

    method HandleFunc(pattern: string, handler: Handler)
      modifies this
      ensures registrations == old(registrations) + [Registration(ViaHandleFunc, pattern, handler)]
    {
      registrations := registrations + [Registration(ViaHandleFunc, pattern, handler)];
    }
  }

  /**
    Wraps `f` in `middlewares` by the backward loop: from the last middleware to
    the first, each wraps the result so far, which leaves the first one outermost.
   */
  method CompileHandlerWithMiddleware(middlewares: seq<Mw>, f: Handler) returns (r: Handler)
    ensures r == Compose(middlewares, f)
    ensures middlewares == [] ==> r == f
  {
    r := f;
    var i := |middlewares| - 1;
    while i >= 0
      invariant -1 <= i < |middlewares|
      invariant r == Compose(middlewares[i + 1..], f)
      decreases i
    {
      assert middlewares[i..][1..] == middlewares[i + 1..];
      r := Apply(middlewares[i], r);
      i := i - 1;
    }
    assert middlewares[0..] == middlewares;
  }

  class Builder {
    const mux: Mux
    var middlewares: seq<Mw>

    constructor(mux: Mux)
      ensures this.mux == mux && middlewares == []
    {
      this.mux := mux;
      middlewares := [];
    }

    /** Appends `m` to the middleware list, in argument order. */
    method With(m: seq<Mw>) returns (b: Builder)
      modifies this
      ensures b == this
      ensures middlewares == old(middlewares) + m
      ensures mux.registrations == old(mux.registrations)
    {
      middlewares := middlewares + m;
      b := this;
    }

    /** Registers `handler` under `pattern`, wrapped in the current middleware list. */
    method Handle(pattern: string, handler: Handler) returns (b: Builder)
      modifies mux
      ensures b == this
      ensures middlewares == old(middlewares)
      ensures mux.registrations ==
                old(mux.registrations) + [Registration(ViaHandle, pattern, Compose(middlewares, handler))]
    {
      var f := CompileHandlerWithMiddleware(middlewares, handler);
      mux.Handle(pattern, f);
      b := this;
    }

    /** As Handle, through the mux's HandleFunc entry point. */
    method HandleFunc(pattern: string, handler: Handler) returns (b: Builder)
      modifies mux
      ensures b == this
      ensures middlewares == old(middlewares)
      ensures mux.registrations ==
                old(mux.registrations) + [Registration(ViaHandleFunc, pattern, Compose(middlewares, handler))]
    {
      var f := CompileHandlerWithMiddleware(middlewares, handler);
      mux.HandleFunc(pattern, f);
      b := this;
    }
  }

  /**
    A client of Builder, not an operation of the package: it illustrates the
    frame of With. A registration made before a later With keeps the
    composition of the list as it was when it was made, because With appends to
    the list and leaves every registration as it is. The registered value
    differs from the composition of the extended list; what a request through it
    does need not differ, for instance when the list has a short-circuiting layer.
   */
  method RegisterThenExtend(b: Builder, pattern: string, handler: Handler, more: seq<Mw>)
    modifies b, b.mux
    ensures b.middlewares == old(b.middlewares) + more
    ensures b.mux.registrations ==
              old(b.mux.registrations) + [Registration(ViaHandleFunc, pattern, Compose(old(b.middlewares), handler))]
    ensures more != [] ==> b.mux.registrations[|b.mux.registrations| - 1].handler != Compose(b.middlewares, handler)
  {
    var _ := b.HandleFunc(pattern, handler);
    var _ := b.With(more);
    ComposeInjective(old(b.middlewares), b.middlewares, handler);
  }

  /**
    The package-level default builder, created with an empty middleware list
    around the process-wide default mux, and its forwarding functions.
   */
  class Package {
    const defaultBuilder: Builder

    constructor(defaultServeMux: Mux)
      ensures fresh(defaultBuilder)
      ensures defaultBuilder.mux == defaultServeMux && defaultBuilder.middlewares == []
    {
      defaultBuilder := new Builder(defaultServeMux);
    }

    method Add(m: seq<Mw>)
      modifies defaultBuilder
      ensures defaultBuilder.middlewares == old(defaultBuilder.middlewares) + m
      ensures defaultBuilder.mux.registrations == old(defaultBuilder.mux.registrations)
    {
      var _ := defaultBuilder.With(m);
    }

    method Handle(pattern: string, handler: Handler)
      modifies defaultBuilder.mux
      ensures defaultBuilder.middlewares == old(defaultBuilder.middlewares)
      ensures defaultBuilder.mux.registrations ==
                old(defaultBuilder.mux.registrations)
                + [Registration(ViaHandle, pattern, Compose(defaultBuilder.middlewares, handler))]
    {
      var _ := defaultBuilder.Handle(pattern, handler);
    }

    method HandleFunc(pattern: string, handler: Handler)
      modifies defaultBuilder.mux
      ensures defaultBuilder.middlewares == old(defaultBuilder.middlewares)
      ensures defaultBuilder.mux.registrations ==
                old(defaultBuilder.mux.registrations)
                + [Registration(ViaHandleFunc, pattern, Compose(defaultBuilder.middlewares, handler))]
    {
      var _ := defaultBuilder.HandleFunc(pattern, handler);
    }
  }
}
