/** The handler side of the chain package: contexts, middleware constructors,
    CtxHandler values as symbolic terms, the CtxHandlerFunc adapter and the
    adapter into a plain http.Handler, together with the order in which a
    request visits the layers of a handler. */
module Handlers {

  /** A Go interface or function value that may be nil. */
  datatype Option<+T> = None | Some(value: T)

  /** An opaque context value: the chain only passes it along, so all that
      matters is which value it is. */
  datatype Context = Context(tag: string)

  /** The root context that context.TODO() returns. */
  function Todo(): Context { Context("TODO") }

  /** A middleware constructor, identified by its name. `passesOn` says
      whether the handler it builds calls the next handler when it serves a
      request (auth or rate-limiting middleware may stop a request). */
  datatype Constructor = Constructor(name: string, passesOn: bool)

  /** A function value with the CtxHandlerFunc call shape. */
  datatype HandlerFunc = HandlerFunc(name: string)

  /** A CtxHandler value. */
  datatype Handler =
    | Endpoint(name: string)                                  // a handler the caller supplies
    | FromFunc(fn: HandlerFunc)                               // CtxHandlerFunc(fn) used as a CtxHandler
    | Wrapped(ctor: Constructor, ctx: Context, next: Handler)   // what invoking a constructor returns

  /** The http.Handler that http.HandlerFunc(CtxHandlerToHandlerFunc(ctx, fn))
      is: a closure over a fixed context and a CtxHandler. */
  datatype HttpHandler = HttpHandler(ctx: Context, fn: Handler)

  /** One step of serving a request: the named layer ran, seeing `ctx`. */
  datatype Event = Event(name: string, ctx: Context)

  /** One layer of a composed handler: the constructor that built it and the
      context it was given. */
  datatype Layer = Layer(ctor: Constructor, ctx: Context)

  /** Invoking constructor `c` on a context and the next handler. */
  function Invoke(c: Constructor, ctx: Context, next: Handler): Handler
  {
    Wrapped(c, ctx, next)
  }

  /** Calling a CtxHandlerFunc value directly: f(ctx, w, r). */
  function CallFunc(f: HandlerFunc, ctx: Context): seq<Event>
  {
    [Event(f.name, ctx)]
  }

  /** h.ServeHTTP(ctx, w, r): the layers a request visits, outermost first.
      A wrapping layer runs and then, if its middleware passes the request
      on, serves the next handler with the context it received; the
      CtxHandlerFunc adapter calls its function with that context. */
  function Serve(h: Handler, ctx: Context): seq<Event>
  {
    match h
    case Endpoint(name) => [Event(name, ctx)]
    case FromFunc(f) => CallFunc(f, ctx)
    case Wrapped(c, _, next) =>
      [Event(c.name, ctx)] + (if c.passesOn then Serve(next, ctx) else [])
  }

  /** The adapter of CtxHandlerToHandlerFunc: a plain handler that serves `fn`
      with the fixed context `ctx`. */
  function CtxHandlerToHandlerFunc(ctx: Context, fn: Handler): (r: HttpHandler)
    ensures ServeHttp(r) == Serve(fn, ctx)
    ensures forall e :: e in ServeHttp(r) ==> e.ctx == ctx
  {
    ServeKeepsContext(fn, ctx);
    HttpHandler(ctx, fn)
  }

  /** hh.ServeHTTP(w, r) of a plain handler built by the adapter. */
  function ServeHttp(hh: HttpHandler): seq<Event>
  {
    Serve(hh.fn, hh.ctx)
  }

  /** The constructors wrapped around a handler, outermost first, with the
      context each of them was invoked with. */
  function Layers(h: Handler): seq<Layer>
  {
    match h
    case Wrapped(c, x, next) => [Layer(c, x)] + Layers(next)
    case _ => []
  }

  /** The innermost handler, the one all the layers of `h` wrap. */
  function Core(h: Handler): (r: Handler)
    ensures !r.Wrapped?
  {
    match h
    case Wrapped(_, _, next) => Core(next)
    case _ => h
  }

  /** The names of a trace, in order. */
  function Names(es: seq<Event>): (r: seq<string>)
    ensures |r| == |es|
    ensures forall i :: 0 <= i < |es| ==> r[i] == es[i].name
  {
    if es == [] then [] else [es[0].name] + Names(es[1..])
  }

  /** Serving a handler never changes the context: every layer, and the
      function behind a CtxHandlerFunc, sees exactly the context the request
      was served with. */
  lemma {:induction false} ServeKeepsContext(h: Handler, ctx: Context)
    ensures |Serve(h, ctx)| >= 1
    ensures forall i :: 0 <= i < |Serve(h, ctx)| ==> Serve(h, ctx)[i].ctx == ctx
  {
    match h
    case Endpoint(_) =>
    case FromFunc(_) =>
    case Wrapped(c, _, next) =>
      ServeKeepsContext(next, ctx);
  }

  /** CtxHandlerFunc(f).ServeHTTP(ctx, w, r) calls f(ctx, w, r), once. */
  lemma FuncHandlerCallsFunc(f: HandlerFunc, ctx: Context)
    ensures Names(Serve(FromFunc(f), ctx)) == [f.name]
    ensures forall e :: e in Serve(FromFunc(f), ctx) ==> e.ctx == ctx
  {
  }
}
