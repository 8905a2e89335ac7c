/** The uses of a chain that the package's documentation describes, driven
    through New, Then and Append: the request order of a composed handler,
    reusing one chain for several handlers, and extending a chain while the
    original keeps working as before. */
module Scenarios {
  import opened Handlers
  import opened Alice

  /** A chain reused for two handlers gives two different composed handlers,
      and each of them only ever runs the chain's constructors and its own
      handler. */
  method ThenTwice(c: Chain, h1: Handler, h2: Handler) returns (p1: HttpHandler, p2: HttpHandler)
    ensures p1 == p2 <==> h1 == h2
    ensures forall e :: e in ServeHttp(p1) ==>
      (exists i :: 0 <= i < |c.constructors| && e == Event(c.constructors[i].name, Todo())) || e in Serve(h1, Todo())
    ensures forall e :: e in ServeHttp(p2) ==>
      (exists i :: 0 <= i < |c.constructors| && e == Event(c.constructors[i].name, Todo())) || e in Serve(h2, Todo())
  {
    var r1 := c.Then(Some(h1));
    var r2 := c.Then(Some(h2));
    p1, p2 := r1.value, r2.value;
    NestInjective(c.constructors, Todo(), h1, h2);
    forall e | e in ServeHttp(p1)
      ensures (exists i :: 0 <= i < |c.constructors| && e == Event(c.constructors[i].name, Todo())) || e in Serve(h1, Todo())
    {
      RoutesOnlyToOwnHandler(c.constructors, Todo(), h1, Todo(), e);
    }
    forall e | e in ServeHttp(p2)
      ensures (exists i :: 0 <= i < |c.constructors| && e == Event(c.constructors[i].name, Todo())) || e in Serve(h2, Todo())
    {
      RoutesOnlyToOwnHandler(c.constructors, Todo(), h2, Todo(), e);
    }
  }

  /** Appending to a chain leaves the chain's own composition as it was, and
      the extended chain wraps the appended constructors inside the
      original ones. */
  method AppendKeepsBase(base: Chain, more: array<Constructor>, h: Handler)
    returns (before: HttpHandler, after: HttpHandler, extended: HttpHandler)
    ensures before == after
    ensures extended == HttpHandler(Todo(), Nest(base.constructors, Todo(), Nest(more[..], Todo(), h)))
  {
    var r := base.Then(Some(h));
    before := r.value;
    var ext := base.Append(more);
    r := base.Then(Some(h));
    after := r.value;
    r := ext.Then(Some(h));
    extended := r.value;
    NestAppend(base.constructors, more[..], Todo(), h);
  }

  /** New keeps its own copy: writing to the caller's slice afterwards does
      not change the chain. */
  method NewDoesNotAlias(cs: array<Constructor>, x: Constructor) returns (c: Chain)
    requires cs.Length > 0
    modifies cs
    ensures c.constructors == old(cs[..])
    ensures cs[..] == old(cs[..])[0 := x]
  {
    c := New(cs);
    cs[0] := x;
  }

  /** New(Logger, Auth).Then(index): a request visits Logger, then Auth, then
      index, all with the one context of the fold. */
  method LoggerAuthIndex() returns (trace: seq<string>, contexts: set<Context>)
    ensures trace == ["Logger", "Auth", "index"]
    ensures contexts == {Todo()}
  {
    var ms := new Constructor[2];
    ms[0], ms[1] := Constructor("Logger", true), Constructor("Auth", true);
    var chain := New(ms);
    var r := chain.Then(Some(Endpoint("index")));
    var served := ServeHttp(r.value);
    assert chain.constructors == [Constructor("Logger", true), Constructor("Auth", true)];
    ServeNest(chain.constructors, Todo(), Endpoint("index"), Todo());
    trace := Names(served);
    contexts := set e | e in served :: e.ctx;
  }

  /** base := New(A); ext := base.Append(B): base runs only A before the
      handler, ext runs A then B, and base still does after the Append. */
  method AppendOneToOne() returns (baseTrace: seq<string>, extTrace: seq<string>, baseAfter: seq<string>)
    ensures baseTrace == ["A", "term"]
    ensures extTrace == ["A", "B", "term"]
    ensures baseAfter == baseTrace
  {
    var a := new Constructor[1];
    a[0] := Constructor("A", true);
    var b := new Constructor[1];
    b[0] := Constructor("B", true);
    var base := New(a);
    var r := base.Then(Some(Endpoint("term")));
    assert base.constructors == [Constructor("A", true)];
    ServeNest(base.constructors, Todo(), Endpoint("term"), Todo());
    baseTrace := Names(ServeHttp(r.value));
    var ext := base.Append(b);
    assert ext.constructors == [Constructor("A", true), Constructor("B", true)];
    r := ext.Then(Some(Endpoint("term")));
    ServeNest(ext.constructors, Todo(), Endpoint("term"), Todo());
    extTrace := Names(ServeHttp(r.value));
    r := base.Then(Some(Endpoint("term")));
    baseAfter := Names(ServeHttp(r.value));
  }

  /** stdStack := New(ratelimit, csrf); indexPipe := stdStack.Then(index);
      authPipe := stdStack.Then(auth): each pipe runs the shared middleware
      and then only its own handler. A rate limiter that stops the request
      keeps it from every handler. */
  method StdStackPipes() returns (indexTrace: seq<string>, authTrace: seq<string>, limitedTrace: seq<string>)
    ensures indexTrace == ["ratelimit", "csrf", "index"]
    ensures authTrace == ["ratelimit", "csrf", "auth"]
    ensures limitedTrace == ["ratelimit"]
  {
    var ms := new Constructor[2];
    ms[0], ms[1] := Constructor("ratelimit", true), Constructor("csrf", true);
    var stdStack := New(ms);
    assert stdStack.constructors == [Constructor("ratelimit", true), Constructor("csrf", true)];
    var indexPipe := stdStack.Then(Some(Endpoint("index")));
    var authPipe := stdStack.ThenFunc(Some(HandlerFunc("auth")));
    ServeNest(stdStack.constructors, Todo(), Endpoint("index"), Todo());
    ServeNest(stdStack.constructors, Todo(), FromFunc(HandlerFunc("auth")), Todo());
    indexTrace := Names(ServeHttp(indexPipe.value));
    authTrace := Names(ServeHttp(authPipe.value));

    var limited := new Constructor[2];
    limited[0], limited[1] := Constructor("ratelimit", false), Constructor("csrf", true);
    var limitedStack := New(limited);
    assert limitedStack.constructors == [Constructor("ratelimit", false), Constructor("csrf", true)];
    var limitedPipe := limitedStack.Then(Some(Endpoint("index")));
    ServeNest(limitedStack.constructors, Todo(), Endpoint("index"), Todo());
    limitedTrace := Names(ServeHttp(limitedPipe.value));
  }
}
