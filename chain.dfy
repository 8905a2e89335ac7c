/** The chain itself: an ordered list of middleware constructors that is
    folded around a terminal handler, and extended without being changed. */
module Alice {
  import opened Handlers

  /** The outcome of an operation that may panic. */
  datatype Result<+T> = Ok(value: T) | Panic(message: string)

  /** The message Then and ThenContext panic with on a nil handler. */
  const NilNotAllowed := "nil is not allowed"

  /** The nesting the chain stands for: m1(ctx, m2(ctx, ... mn(ctx, h))),
      with the first constructor outermost and `h` innermost. */
  function Nest(cs: seq<Constructor>, ctx: Context, h: Handler): Handler
  {
    if cs == [] then h else Invoke(cs[0], ctx, Nest(cs[1..], ctx, h))
  }

  /** Each constructor of `cs`, in order, paired with the one context `ctx`. */
  function Stamp(cs: seq<Constructor>, ctx: Context): (r: seq<Layer>)
    ensures |r| == |cs|
    ensures forall i :: 0 <= i < |cs| ==> r[i] == Layer(cs[i], ctx)
  {
    if cs == [] then [] else [Layer(cs[0], ctx)] + Stamp(cs[1..], ctx)
  }

  /** All constructors of `cs` build handlers that call the next one. */
  predicate PassesAll(cs: seq<Constructor>)
  {
    forall i :: 0 <= i < |cs| ==> cs[i].passesOn
  }

  /** The steps a request takes through the layers built from `cs`: each
      constructor's handler runs in order, up to and including the first one
      that does not pass the request on. */
  function Visits(cs: seq<Constructor>, s: Context): (r: seq<Event>)
    ensures |r| <= |cs|
    ensures forall i :: 0 <= i < |r| ==> r[i] == Event(cs[i].name, s)
    ensures PassesAll(cs) ==> |r| == |cs|
  {
    if cs == [] then []
    else [Event(cs[0].name, s)] + (if cs[0].passesOn then Visits(cs[1..], s) else [])
  }

  /** Nesting distributes over concatenation: wrapping with `a + b` is
      wrapping with `b` and then with `a`. */
  lemma {:induction false} NestAppend(a: seq<Constructor>, b: seq<Constructor>, ctx: Context, h: Handler)
    ensures Nest(a + b, ctx, h) == Nest(a, ctx, Nest(b, ctx, h))
  {
    if a != [] {
      assert (a + b)[1..] == a[1..] + b;
      NestAppend(a[1..], b, ctx, h);
    } else {
      assert a + b == b;
    }
  }

  /** The nesting invokes every constructor exactly once, in the chain's
      order, all with the one context, and keeps `h` as the innermost
      handler. */
  lemma {:induction false} NestLayers(cs: seq<Constructor>, ctx: Context, h: Handler)
    ensures Layers(Nest(cs, ctx, h)) == Stamp(cs, ctx) + Layers(h)
    ensures Core(Nest(cs, ctx, h)) == Core(h)
  {
    if cs != [] {
      NestLayers(cs[1..], ctx, h);
    }
  }

  /** Different handlers give different nestings: composing the same
      constructors around two handlers gives two distinct results. */
  lemma {:induction false} NestInjective(cs: seq<Constructor>, ctx: Context, h1: Handler, h2: Handler)
    ensures Nest(cs, ctx, h1) == Nest(cs, ctx, h2) <==> h1 == h2
  {
    if cs != [] {
      NestInjective(cs[1..], ctx, h1, h2);
    }
  }

  /** Serving a nesting: the request visits the constructors' handlers in
      the chain's order and reaches `h` exactly when every one of them passes
      it on. */
  lemma {:induction false} ServeNest(cs: seq<Constructor>, ctx: Context, h: Handler, s: Context)
    ensures Serve(Nest(cs, ctx, h), s) == Visits(cs, s) + (if PassesAll(cs) then Serve(h, s) else [])
  {
    if cs != [] {
      ServeNest(cs[1..], ctx, h, s);
      if cs[0].passesOn {
        assert PassesAll(cs) <==> PassesAll(cs[1..]) by {
          if PassesAll(cs[1..]) {
            forall i | 0 <= i < |cs| ensures cs[i].passesOn {
              if i > 0 { assert cs[i] == cs[1..][i - 1]; }
            }
          }
        }
      } else {
        assert !PassesAll(cs) by { assert !cs[0].passesOn; }
      }
    }
  }

  /** A composed handler only ever runs the chain's constructors and its own
      terminal: whatever it serves is one of those, so a handler composed
      around `h1` never reaches any other terminal. */
  lemma {:induction false} RoutesOnlyToOwnHandler(cs: seq<Constructor>, ctx: Context, h: Handler, s: Context, e: Event)
    requires e in Serve(Nest(cs, ctx, h), s)
    ensures (exists i :: 0 <= i < |cs| && e == Event(cs[i].name, s)) || e in Serve(h, s)
  {
    ServeNest(cs, ctx, h, s);
    var v := Visits(cs, s);
    if e in v {
      var k :| 0 <= k < |v| && v[k] == e;
      assert e == Event(cs[k].name, s);
    }
  }

  /** The chain of constructors. In Go the slice is an unexported field, so
      nothing outside the package can write to it; here the field is an
      immutable sequence, so nothing can. New and Append build that sequence
      by copying through slices, as the source does. */
  class Chain {
    const constructors: seq<Constructor>

    constructor Of(constructors: seq<Constructor>)
      ensures this.constructors == constructors
    {
      this.constructors := constructors;
    }

    /** Folds the chain around `h` and adapts the result to a plain handler
        over the same context. A nil `h` panics, whatever the chain holds. */
    method Then(h: Option<Handler>) returns (r: Result<HttpHandler>)
      ensures r.Panic? <==> h.None?
      ensures r.Panic? ==> r.message == NilNotAllowed
      ensures h.Some? ==> r == Ok(HttpHandler(Todo(), Nest(constructors, Todo(), h.value)))
      ensures h.Some? && |constructors| == 0 ==> r == Ok(HttpHandler(Todo(), h.value))
    {
      var ctx := Todo();
      var final: Handler;
      if h.Some? {
        final := h.value;
      } else {
        return Panic(NilNotAllowed);
      }
      var i := |constructors|;
      while i > 0
        invariant 0 <= i <= |constructors|
        invariant final == Nest(constructors[i..], ctx, h.value)
      {
        i := i - 1;
        assert constructors[i..][1..] == constructors[i + 1..];
        final := Invoke(constructors[i], ctx, final);
      }
      assert constructors[0..] == constructors;
      r := Ok(CtxHandlerToHandlerFunc(ctx, final));
    }

    /** Same as Then, but returns the composed CtxHandler itself. */
    method ThenContext(h: Option<Handler>) returns (r: Result<Handler>)
      ensures r.Panic? <==> h.None?
      ensures r.Panic? ==> r.message == NilNotAllowed
      ensures h.Some? ==> r == Ok(Nest(constructors, Todo(), h.value))
      ensures h.Some? && |constructors| == 0 ==> r == Ok(h.value)
    {
      var ctx := Todo();
      var final: Handler;
      if h.Some? {
        final := h.value;
      } else {
        return Panic(NilNotAllowed);
      }
      var i := |constructors|;
      while i > 0
        invariant 0 <= i <= |constructors|
        invariant final == Nest(constructors[i..], ctx, h.value)
      {
        i := i - 1;
        assert constructors[i..][1..] == constructors[i + 1..];
        final := Invoke(constructors[i], ctx, final);
      }
      assert constructors[0..] == constructors;
      r := Ok(final);
    }

    /** Same as ThenContext, but takes a CtxHandlerFunc. A nil function is
        sent to Then(nil), which panics. */
    method ThenFuncContext(fn: Option<HandlerFunc>) returns (r: Result<Handler>)
      ensures r.Panic? <==> fn.None?
      ensures r.Panic? ==> r.message == NilNotAllowed
      ensures fn.Some? ==> r == Ok(Nest(constructors, Todo(), FromFunc(fn.value)))
    {
      if fn.None? {
        var p := Then(None);
        return Panic(p.message);
      }
      r := ThenContext(Some(FromFunc(fn.value)));
    }

    /** Works as Then on the function adapted by CtxHandlerFunc: ThenFunc(fn)
        and Then(CtxHandlerFunc(fn)) give the same handler, and a nil
        function panics as Then(nil) does. */
    method ThenFunc(fn: Option<HandlerFunc>) returns (r: Result<HttpHandler>)
      ensures r.Panic? <==> fn.None?
      ensures r.Panic? ==> r.message == NilNotAllowed
      ensures fn.Some? ==> r == Ok(HttpHandler(Todo(), Nest(constructors, Todo(), FromFunc(fn.value))))
    {
      if fn.None? {
        r := Then(None);
        return;
      }
      r := Then(Some(FromFunc(fn.value)));
    }

    /** A new chain holding this chain's constructors followed by `more`.
        This chain is left as it was (the method modifies nothing). */
    method Append(more: array<Constructor>) returns (c: Chain)
      ensures c.constructors == constructors + more[..]
    {
      var newCons := new Constructor[|constructors|];
      var i := 0;
      while i < |constructors|
        invariant 0 <= i <= |constructors|
        invariant forall k :: 0 <= k < i ==> newCons[k] == constructors[k]
      {
        newCons[i] := constructors[i];
        i := i + 1;
      }
      assert newCons[..] == constructors;
      newCons := AppendSlice(newCons, more);
      c := New(newCons);
    }
  }

  /** Go's append on a slice that has no spare capacity, the only kind this
      package appends to: the slice itself when nothing is added, otherwise
      a fresh array holding both. */
  method AppendSlice(s: array<Constructor>, more: array<Constructor>) returns (r: array<Constructor>)
    ensures r[..] == s[..] + more[..]
    ensures more.Length == 0 ==> r == s
    ensures more.Length > 0 ==> fresh(r)
  {
    if more.Length == 0 {
      assert more[..] == [];
      return s;
    }
    r := new Constructor[s.Length + more.Length];
    var i := 0;
    while i < s.Length
      invariant 0 <= i <= s.Length
      invariant forall k :: 0 <= k < i ==> r[k] == s[k]
    {
      r[i] := s[i];
      i := i + 1;
    }
    var j := 0;
    while j < more.Length
      invariant 0 <= j <= more.Length
      invariant forall k :: 0 <= k < s.Length ==> r[k] == s[k]
      invariant forall k :: 0 <= k < j ==> r[s.Length + k] == more[k]
    {
      r[s.Length + j] := more[j];
      j := j + 1;
    }
    assert r[..] == s[..] + more[..];
  }

  /** Creates a chain holding the given constructors in the given order. It
      invokes none of them, and it copies them: later writes to the caller's
      slice do not reach the chain. */
  method New(cs: array<Constructor>) returns (c: Chain)
    ensures c.constructors == cs[..]
  {
    var empty := new Constructor[0];
    assert empty[..] == [];
    var stored := AppendSlice(empty, cs);
    c := new Chain.Of(stored[..]);
  }
}
