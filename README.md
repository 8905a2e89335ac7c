# alice: a verified model of the middleware chain

The Go package `alice` chains HTTP middleware and passes a context through
every layer. A `Chain` holds an ordered list of middleware constructors. Each
constructor has type `func(context.Context, CtxHandler) CtxHandler`.
`Then(h)` folds the list around a final handler `h`, from the last constructor
to the first, so that `New(m1, m2, m3).Then(h)` is `m1(m2(m3(h)))`. `Append`
builds an extended copy of a chain. A nil handler makes the fold panic.

This project models that package in Dafny:

- `handlers.dfy` (module `Handlers`) holds the values the chain works on.
  Contexts are opaque values, and `context.TODO()` is the fixed value `Todo()`.
  A constructor is identified by its name. Invoking it gives the handler term
  `Wrapped(c, ctx, next)`. A `CtxHandlerFunc` used as a handler is
  `FromFunc(f)`. The `http.Handler` made by `CtxHandlerToHandlerFunc` is
  `HttpHandler(ctx, fn)`. `Serve` gives the order in which a request visits the
  layers of a handler, and the context each layer sees.
- `chain.dfy` (module `Alice`) holds the chain. `Nest` is the reference
  nesting `m1(ctx, m2(ctx, … mn(ctx, h)))`. `Chain` is a class whose
  constructors are an immutable sequence. `Then` and `ThenContext` are the
  down-counting loops of the source, proved equal to `Nest`. `ThenFunc` and `ThenFuncContext` delegate to
  them. `New` and `Append` copy slices the way Go's `append` and `copy` do. A
  nil handler or function is `None`, and a panic is the result
  `Panic("nil is not allowed")`.
- `scenarios.dfy` (module `Scenarios`) states the uses that the package's doc
  comments describe, as verified methods over `New`, `Then` and `Append`.
  They are: the request order `Logger, Auth, index`; one chain reused for two
  handlers; and a chain extended while the original keeps its behaviour.

A middleware calls the next handler only if it chooses to. The source's
promise about request order assumes that every middleware does. Each
`Constructor` therefore carries `passesOn`, and `ServeNest` states the order in
general: the request visits the layers in chain order, up to the first one
that stops it. It reaches the final handler exactly when every layer passes
it on.

In Go the chain's slice is an unexported field, which is what makes a chain
"effectively immutable". Here the field is a `const` of sequence type, so no
method and no client can change a chain's constructors after it is built.
`New` and `Append` build that sequence by copying through slices as the
source does, so a later write to the caller's slice does not reach the
chain.

On the source: in `ThenFuncContext`, the nil branch (chain.go:94-96) returns
the `http.Handler` that `Then` returns, from a function declared to return a
`CtxHandler`. The two interfaces have different `ServeHTTP` signatures, so
Go's type rules reject that return as written. The model follows the evident
intent: a nil function reaches `Then(nil)` and panics with its message.

## Model

| member | source | states |
|---|---|---|
| `Alice.New` | chain.go:27-36 | the new chain holds exactly the given constructors in the given order, copied out of the caller's slice; no handler is built |
| `Alice.AppendSlice` | chain.go:130-135 | Go's `append` on a full slice: the result holds the old elements followed by the new ones; it is the same slice when nothing is added and a fresh array otherwise |
| `Alice.Chain.Then` | chain.go:38-72 | a nil handler panics with "nil is not allowed", whatever the chain holds; otherwise the result is the adapter over the context `Todo()` around `Nest(constructors, Todo(), h)`; an empty chain gives the adapter around `h` itself |
| `Alice.Chain.ThenContext` | chain.go:74-89 | a nil handler panics; otherwise the result is `Nest(constructors, Todo(), h)`; an empty chain returns `h` itself |
| `Alice.Chain.ThenFuncContext` | chain.go:91-99 | a nil function panics through `Then(nil)` with the same message; otherwise the result is `ThenContext` applied to the function adapted as a handler |
| `Alice.Chain.ThenFunc` | chain.go:105-119 | `ThenFunc(fn)` equals `Then(CtxHandlerFunc(fn))`; a nil function panics as `Then(nil)` does |
| `Alice.Chain.Append` | chain.go:121-137 | the new chain holds the receiver's constructors followed by `more`; the receiver is not modified |
| `Alice.NestLayers` | chain.go:46-53 | one fold invokes every constructor exactly once, in chain order, each with the same context, and keeps `h` as the innermost handler |
| `Alice.NestAppend` | chain.go:121-129 | folding `a + b` around `h` is folding `a` around the fold of `b` around `h`, so an extended chain runs the original constructors first and the appended ones next |
| `Alice.NestInjective` | chain.go:46-49 | folding one chain around two handlers gives equal results if and only if the handlers are equal |
| `Alice.ServeNest` | chain.go:38-44 | a request served by the fold visits the constructors' handlers in chain order, up to and including the first one that does not pass it on; it reaches `h` exactly when all of them pass it on |
| `Alice.RoutesOnlyToOwnHandler` | chain.go:46-53 | everything a folded handler runs is one of the chain's constructors or a step of its own handler |
| `Handlers.CtxHandlerToHandlerFunc` | chain.go:101-103 | serving the adapter is serving the wrapped handler with the adapter's fixed context, and every step sees that context |
| `Handlers.FuncHandlerCallsFunc` | chain.go:139-142 | serving `CtxHandlerFunc(f)` runs `f` and nothing else, once, with the context it was served with |
| `Handlers.ServeKeepsContext` | chain.go:13-17 | serving any handler runs at least one step, and every step sees the context the request was served with |
| `Scenarios.ThenTwice` | chain.go:46-53 | a chain reused for two handlers gives composed handlers that are equal only if the handlers are; each runs only the chain's constructors and its own handler |
| `Scenarios.AppendKeepsBase` | chain.go:121-137 | folding the receiver gives the same handler before and after `Append`; the extended chain folds to the receiver's nesting around the appended nesting |
| `Scenarios.NewDoesNotAlias` | chain.go:19-36 | writing to the caller's slice after `New` does not change the chain |
| `Scenarios.LoggerAuthIndex` | chain.go:38-44 | `New(Logger, Auth).Then(index)` serves a request as `Logger`, `Auth`, `index`, all with the fold's one context |
| `Scenarios.AppendOneToOne` | chain.go:121-129 | with `base = New(A)` and `ext = base.Append(B)`: `base` runs `A` then the handler, `ext` runs `A`, `B`, then the handler, and `base` still runs `A` then the handler after the `Append` |
| `Scenarios.StdStackPipes` | chain.go:46-53 | two pipes built from one stack run the shared middleware and then only their own handler; a stack whose first layer stops the request reaches no handler |

## Left out

- `http.ResponseWriter` and `*http.Request` are dropped. The chain only passes them along, and the model records which layers run and with which context.
- The `go.net/context` package is not part of this model. A context is an opaque value, and `context.TODO()` is one fixed value.
- What a middleware or a handler does when serving, other than whether it passes the request on and the context it passes, is left out. Middleware is assumed to pass the context it received to the next handler.
- Concurrent use of one chain from several goroutines is left out. Nothing in the package synchronises, and the model only shows that folds and `Append` write nothing they share.
- Constructors are assumed non-nil, and each is assumed to return a handler that wraps the `next` it is given. In Go, `New` and `Append` accept a nil constructor, and `Then` and `ThenContext` then fail with a runtime error when they call it (chain.go:68, chain.go:86); a constructor that returns nil makes the composed handler fail when served. The model has neither case, and the routing results (`ServeNest`, `RoutesOnlyToOwnHandler`, `ThenTwice`) rest on this assumption.
- A Go panic aborts the caller. The model returns it as the result `Panic(message)`, which carries no handler.
- Go's typed nil inside an interface is left out. The explicit `fn == nil` checks of `ThenFunc` and `ThenFuncContext` are what send a nil function to the panic, and that is what the model does.
- `AppendSlice` models Go's `append` only for a slice with no spare capacity. That is the only kind this package appends to: a nil slice in `New`, and a slice from `make` in `Append`.
