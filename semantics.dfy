/**
  What running a handler does, as the ordered log of what each layer observes.

  A middleware of kind Around has the shape of a logging middleware: it records
  Before, calls the wrapped handler, and records After once that call returns
  normally; a panic of the wrapped handler unwinds past its "after" logic. A
  ShortCircuit middleware records Before and returns without calling the wrapped
  handler. A Recover middleware calls the wrapped handler under a deferred
  recover: a panic inside is caught and recorded as Recovered, so the panic does
  not travel further out.
 */
module Semantics {
  import opened Handlers

  datatype Event =
    | Before(m: Mw)
    | After(m: Mw)
    | Recovered(m: Mw)
    | Invoked(name: string)

  /** The events of one request, and whether a panic escaped the handler. */
  datatype Outcome = Outcome(events: seq<Event>, panicked: bool)

  /**
    Running a handler: the first event is the entry of the outermost layer (or
    the endpoint itself), and a panic can only come from the endpoint, because
    no modelled middleware raises one of its own.
   */
  function Run(h: Handler): (r: Outcome)
    ensures r.events != [] && r.events[0] == (if h.Terminal? then Invoked(h.name) else Before(h.m))
    ensures r.panicked ==> Core(h).panics
  {
    match h
    case Terminal(name, panics) => Outcome([Invoked(name)], panics)
    case Wrapped(m, inner) =>
      match m.kind
      case ShortCircuit => Outcome([Before(m)], false)
      case Around =>
        var o := Run(inner);
        Outcome([Before(m)] + o.events + (if o.panicked then [] else [After(m)]), o.panicked)
      case Recover =>
        var o := Run(inner);
        Outcome([Before(m)] + o.events + [if o.panicked then Recovered(m) else After(m)], false)
  }

  predicate AllAround(ms: seq<Mw>)
  {
    forall i :: 0 <= i < |ms| ==> ms[i].kind == Around
  }

  /** Before(m0), ..., Before(m(n-1)). */
  function Befores(ms: seq<Mw>): (r: seq<Event>)
    ensures |r| == |ms|
  {
    if ms == [] then [] else [Before(ms[0])] + Befores(ms[1..])
  }

  /** After(m(n-1)), ..., After(m0): the "after" logic in reverse order. */
  function Afters(ms: seq<Mw>): (r: seq<Event>)
    ensures |r| == |ms|
  {
    if ms == [] then [] else Afters(ms[1..]) + [After(ms[0])]
  }

  lemma {:induction false} BeforesAt(ms: seq<Mw>, i: nat)
    requires i < |ms|
    ensures Befores(ms)[i] == Before(ms[i])
  {
    if i > 0 {
      BeforesAt(ms[1..], i - 1);
    }
  }

  lemma {:induction false} AftersAt(ms: seq<Mw>, j: nat)
    requires j < |ms|
    ensures Afters(ms)[j] == After(ms[|ms| - 1 - j])
  {
    if j < |ms| - 1 {
      AftersAt(ms[1..], j);
    }
  }

  /**
    Running the composition of Around layers around any handler `g`: the layers'
    "before" logic in list order, then whatever `g` does, then, unless `g`
    panicked, the layers' "after" logic in reverse list order. A panic of `g`
    escapes all of them.
   */
  lemma {:induction false} AroundLayers(ms: seq<Mw>, g: Handler)
    requires AllAround(ms)
    ensures Run(Compose(ms, g)) ==
              Outcome(Befores(ms) + Run(g).events + (if Run(g).panicked then [] else Afters(ms)),
                      Run(g).panicked)
  {
    if ms != [] {
      var m, tail := ms[0], ms[1..];
      assert AllAround(tail) by {
        forall i | 0 <= i < |tail| ensures tail[i].kind == Around {
          assert tail[i] == ms[i + 1];
        }
      }
      AroundLayers(tail, g);
      RunAround(m, Compose(tail, g));
      assert ms == [m] + tail;
      WrapAround(m, tail, Run(g).events, Run(g).panicked, Run(Compose(tail, g)).events);
    }
  }

  /** One Around layer: its entry, the inner run, and its exit unless the inner run panicked. */
  lemma RunAround(m: Mw, x: Handler)
    requires m.kind == Around
    ensures Compose([m], x) == Wrapped(m, x)
    ensures Run(Wrapped(m, x)) ==
              Outcome([Before(m)] + Run(x).events + (if Run(x).panicked then [] else [After(m)]), Run(x).panicked)
  {
    assert [m][1..] == [];
  }

  /** The log of one more Around layer around the log of the layers `tail`. */
  lemma WrapAround(m: Mw, tail: seq<Mw>, e: seq<Event>, p: bool, inner: seq<Event>)
    requires inner == Befores(tail) + e + (if p then [] else Afters(tail))
    ensures [Before(m)] + inner + (if p then [] else [After(m)]) ==
              Befores([m] + tail) + e + (if p then [] else Afters([m] + tail))
  {
    assert ([m] + tail)[1..] == tail;
  }

  /**
    With every middleware Around and a handler that returns normally, a request
    logs Before(m0) ... Before(m(n-1)), the handler, then After(m(n-1)) ... After(m0).
   */
  lemma {:induction false} AroundOrder(ms: seq<Mw>, name: string)
    requires AllAround(ms)
    ensures var o := Run(Compose(ms, Terminal(name, false)));
      && !o.panicked
      && |o.events| == 2 * |ms| + 1
      && (forall i :: 0 <= i < |ms| ==> o.events[i] == Before(ms[i]))
      && o.events[|ms|] == Invoked(name)
      && (forall j :: |ms| < j <= 2 * |ms| ==> o.events[j] == After(ms[2 * |ms| - j]))
  {
    AroundLayers(ms, Terminal(name, false));
    var o := Run(Compose(ms, Terminal(name, false)));
    assert o.events == Befores(ms) + [Invoked(name)] + Afters(ms);
    forall i | 0 <= i < |ms|
      ensures o.events[i] == Before(ms[i])
    {
      BeforesAt(ms, i);
    }
    forall j | |ms| < j <= 2 * |ms|
      ensures o.events[j] == After(ms[2 * |ms| - j])
    {
      AftersAt(ms, j - |ms| - 1);
      assert o.events[j] == Afters(ms)[j - |ms| - 1];
    }
  }

  /**
    The first ShortCircuit layer ends the request: only the layers outside it
    and itself log Before, only the layers outside it log After, and no inner
    layer and not the handler runs at all.
   */
  lemma {:induction false} ShortCircuitOrder(ms: seq<Mw>, k: nat, h: Handler)
    requires k < |ms| && AllAround(ms[..k]) && ms[k].kind == ShortCircuit
    ensures Run(Compose(ms, h)) ==
              Outcome(Befores(ms[..k]) + [Before(ms[k])] + Afters(ms[..k]), false)
  {
    SplitAt(ms, k, h);
    var g := Wrapped(ms[k], Compose(ms[k + 1..], h));
    assert Run(g) == Outcome([Before(ms[k])], false);
    AroundLayers(ms[..k], g);
  }

  /** The composition of a list seen from its k-th layer. */
  lemma SplitAt(ms: seq<Mw>, k: nat, h: Handler)
    requires k < |ms|
    ensures Compose(ms, h) == Compose(ms[..k], Wrapped(ms[k], Compose(ms[k + 1..], h)))
  {
    var rest := [ms[k]] + ms[k + 1..];
    assert ms == ms[..k] + rest;
    ComposeAppend(ms[..k], rest, h);
    assert rest[1..] == ms[k + 1..];
  }

  /**
    A ShortCircuit layer hides everything inside it, whatever sits outside it:
    the composition of the whole list runs exactly as the composition of the
    list up to and including that layer around any other handler.
   */
  lemma {:induction false} ShortCircuitAnyOuter(ms: seq<Mw>, k: nat, h: Handler, h': Handler)
    requires k < |ms| && ms[k].kind == ShortCircuit
    ensures Run(Compose(ms, h)) == Run(Compose(ms[..k + 1], h'))
  {
    if k > 0 {
      ShortCircuitAnyOuter(ms[1..], k - 1, h, h');
      assert ms[1..][..k] == ms[..k + 1][1..];
    }
  }

  /**
    Middleware appended after a ShortCircuit layer never changes what a request
    does, although the composed handler value is a different one.
   */
  lemma ShortCircuitHidesLater(sc: Mw, more: seq<Mw>, h: Handler)
    requires sc.kind == ShortCircuit
    ensures Run(Compose([sc] + more, h)) == Run(Compose([sc], h))
    ensures more != [] ==> Compose([sc] + more, h) != Compose([sc], h)
  {
    ShortCircuitAnyOuter([sc] + more, 0, h, h);
    assert ([sc] + more)[..1] == [sc];
    ComposeInjective([sc] + more, [sc], h);
  }

  /**
    A Recover layer under Around layers: the outer "before" logic, the Recover
    layer's own entry, whatever the inner composition does, then Recovered if it
    panicked and After otherwise, then the outer "after" logic, which runs even
    when the handler panicked. The panic goes no further.
   */
  lemma {:induction false} RecoverOrder(ms: seq<Mw>, k: nat, h: Handler)
    requires k < |ms| && AllAround(ms[..k]) && ms[k].kind == Recover
    ensures var inner := Run(Compose(ms[k + 1..], h));
      Run(Compose(ms, h)) ==
        Outcome(Befores(ms[..k]) + [Before(ms[k])] + inner.events
                  + [if inner.panicked then Recovered(ms[k]) else After(ms[k])]
                  + Afters(ms[..k]),
                false)
  {
    SplitAt(ms, k, h);
    var inner := Run(Compose(ms[k + 1..], h));
    var g := Wrapped(ms[k], Compose(ms[k + 1..], h));
    assert Run(g) ==
             Outcome([Before(ms[k])] + inner.events + [if inner.panicked then Recovered(ms[k]) else After(ms[k])], false);
    AroundLayers(ms[..k], g);
  }

  /**
    A panic of the handler reaches the caller of the composed handler exactly
    when the handler panics and no layer stops it, that is, every layer is Around.
   */
  lemma {:induction false} PanicPropagates(ms: seq<Mw>, h: Handler)
    ensures Run(Compose(ms, h)).panicked <==> Run(h).panicked && AllAround(ms)
  {
    if ms != [] {
      PanicPropagates(ms[1..], h);
      assert AllAround(ms) <==> ms[0].kind == Around && AllAround(ms[1..]);
    }
  }

  /** Whether an event belongs to a layer or to the endpoint of `h`. */
  predicate Mentions(e: Event, h: Handler)
  {
    match e
    case Invoked(name) => name == Core(h).name
    case Before(m) => m in Layers(h)
    case After(m) => m in Layers(h)
    case Recovered(m) => m in Layers(h)
  }

  /** Every event of a request comes from one of the handler's own layers or its endpoint. */
  lemma {:induction false} RunIsolated(h: Handler)
    ensures forall e :: e in Run(h).events ==> Mentions(e, h)
  {
    match h
    case Terminal(_, _) =>
    case Wrapped(m, inner) =>
      RunIsolated(inner);
  }

  /**
    Endpoints registered with different middleware lists are isolated: a
    request through the composition of `ms` around an endpoint only ever runs
    middleware of `ms` and that endpoint.
   */
  lemma {:induction false} ComposedIsolated(ms: seq<Mw>, name: string, panics: bool)
    ensures forall e :: e in Run(Compose(ms, Terminal(name, panics))).events ==>
              if e.Invoked? then e.name == name else e.m in ms
  {
    RunIsolated(Compose(ms, Terminal(name, panics)));
  }

  /** The logs of three Around layers, outermost first. */
  lemma ThreeAround(l: Mw, l1: Mw, l2: Mw)
    ensures Befores([l, l1, l2]) == [Before(l), Before(l1), Before(l2)]
    ensures Afters([l, l1, l2]) == [After(l2), After(l1), After(l)]
  {
    assert [l2][1..] == [];
    assert Befores([l2]) == [Before(l2)] && Afters([l2]) == [After(l2)];
    assert [l1, l2][1..] == [l2];
    assert Befores([l1, l2]) == [Before(l1), Before(l2)] && Afters([l1, l2]) == [After(l2), After(l1)];
    assert [l, l1, l2][1..] == [l1, l2];
  }

  /**
    A five-layer stack shaped like Timer, Recover, Log, Log1, Log2 (outermost
    first) around any endpoint: every layer's entry, the endpoint, then either
    every exit or, on a panic, the recovery and the exit of the outermost layer only.
   */
  lemma DemoStackRun(t: Mw, r: Mw, l: Mw, l1: Mw, l2: Mw, name: string, panics: bool)
    requires t.kind == Around && r.kind == Recover && l.kind == Around && l1.kind == Around && l2.kind == Around
    ensures Run(Compose([t, r, l, l1, l2], Terminal(name, panics))) ==
              Outcome([Before(t), Before(r), Before(l), Before(l1), Before(l2), Invoked(name)]
                      + (if panics then [Recovered(r)] else [After(l2), After(l1), After(l), After(r)])
                      + [After(t)], false)
  {
    var h := Terminal(name, panics);
    var x := Compose([l, l1, l2], h);
    ThreeAround(l, l1, l2);
    AroundLayers([l, l1, l2], h);
    assert Run(x) == Outcome([Before(l), Before(l1), Before(l2), Invoked(name)]
                             + (if panics then [] else [After(l2), After(l1), After(l)]), panics);
    assert [t, r, l, l1, l2] == [t, r] + [l, l1, l2];
    PeelTwo(t, r, [l, l1, l2], h);
    RunRecover(r, x);
    RunAround(t, Wrapped(r, x));
  }

  /** The two outermost layers of a composition. */
  lemma PeelTwo(t: Mw, r: Mw, rest: seq<Mw>, h: Handler)
    ensures Compose([t, r] + rest, h) == Wrapped(t, Wrapped(r, Compose(rest, h)))
  {
    assert ([t, r] + rest)[1..] == [r] + rest;
    assert ([r] + rest)[1..] == rest;
  }

  /** One Recover layer: its entry, the inner run, then Recovered or its exit; no panic escapes. */
  lemma RunRecover(m: Mw, x: Handler)
    requires m.kind == Recover
    ensures Run(Wrapped(m, x)) ==
              Outcome([Before(m)] + Run(x).events + [if Run(x).panicked then Recovered(m) else After(m)], false)
  {
  }

  /** The stack Timer, Recover, Log, Log1, Log2 around an endpoint that returns and around one that panics. */
  lemma DemoStackScenario()
    ensures var t, r, l, l1, l2 := Mw("Timer", Around), Mw("Recover", Recover), Mw("Log", Around),
                                   Mw("Log1", Around), Mw("Log2", Around);
      && Run(Compose([t, r, l, l1, l2], Terminal("Hello", false))) ==
           Outcome([Before(t), Before(r), Before(l), Before(l1), Before(l2), Invoked("Hello"),
                    After(l2), After(l1), After(l), After(r), After(t)], false)
      && Run(Compose([t, r, l, l1, l2], Terminal("Panic", true))) ==
           Outcome([Before(t), Before(r), Before(l), Before(l1), Before(l2), Invoked("Panic"),
                    Recovered(r), After(t)], false)
  {
    var t, r, l, l1, l2 := Mw("Timer", Around), Mw("Recover", Recover), Mw("Log", Around),
                           Mw("Log1", Around), Mw("Log2", Around);
    DemoStackRun(t, r, l, l1, l2, "Hello", false);
    DemoStackRun(t, r, l, l1, l2, "Panic", true);
  }
}
