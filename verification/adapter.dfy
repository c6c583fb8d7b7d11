/** `FunctionAdapter<Result>`: a visitor closed over Circle, Square and Blob.
    It holds one handler per shape and one result slot; `visit` overwrites
    the slot, `get` reads it and the call operator does both.

    The adapter is an immutable record: a `visit` returns the updated
    adapter instead of assigning to `_res`. */
module Adapters {
  import opened Shapes
  import Chain

  datatype FunctionAdapter<R> = FunctionAdapter(
    res: R,
    fnCircle: CircleShape -> R,
    fnSquare: SquareShape -> R,
    fnBlob: BlobShape -> R)

  /** `b` holds the same three handlers as `a`; only the result slot may differ. */
  ghost predicate SameHandlers<R>(a: FunctionAdapter<R>, b: FunctionAdapter<R>)
  {
    a.fnCircle == b.fnCircle && a.fnSquare == b.fnSquare && a.fnBlob == b.fnBlob
  }

  /** The constructor. `init` is the value-initialised `Result{}` the C++
      constructor stores in the slot (`""` for a string, `0.0` for a double). */
  function Make<R>(init: R, fnCircle: CircleShape -> R, fnSquare: SquareShape -> R, fnBlob: BlobShape -> R)
    : (a: FunctionAdapter<R>)
    ensures Get(a) == init
    ensures a.fnCircle == fnCircle && a.fnSquare == fnSquare && a.fnBlob == fnBlob
  {
    FunctionAdapter(init, fnCircle, fnSquare, fnBlob)
  }

  /** `get()`: the stored result. The adapter is exactly what its handlers
      and the value read rebuild, so nothing is lost or changed by reading,
      and being a function of the adapter value, two reads agree. */
  function Get<R>(a: FunctionAdapter<R>): (r: R)
    ensures a == FunctionAdapter(r, a.fnCircle, a.fnSquare, a.fnBlob)
  {
    a.res
  }

  /** `visit(x)`: the handler for x's shape runs on x and its result replaces
      the slot; the handlers are kept. */
  function Visit<R>(a: FunctionAdapter<R>, x: Shape): (a': FunctionAdapter<R>)
    ensures SameHandlers(a, a')
    ensures x.Circle? ==> Get(a') == a.fnCircle(x)
    ensures x.Square? ==> Get(a') == a.fnSquare(x)
    ensures x.Blob? ==> Get(a') == a.fnBlob(x)
  {
    match x
    case Circle(_) => a.(res := a.fnCircle(x))
    case Square(_) => a.(res := a.fnSquare(x))
    case Blob => a.(res := a.fnBlob(x))
  }

  /** `operator()(x)`: the adapter after `visit(x)`, paired with the value
      returned, which is the handler's result for x. */
  function Apply<R>(a: FunctionAdapter<R>, x: Shape): (out: (FunctionAdapter<R>, R))
    ensures out.0 == Visit(a, x)
    ensures x.Circle? ==> out.1 == a.fnCircle(x)
    ensures x.Square? ==> out.1 == a.fnSquare(x)
    ensures x.Blob? ==> out.1 == a.fnBlob(x)
  {
    var a' := Visit(a, x);
    (a', Get(a'))
  }

  /** The call operator returns what a `get()` right after `visit` returns. */
  lemma ApplyIsVisitThenGet<R>(a: FunctionAdapter<R>, x: Shape)
    ensures Apply(a, x).1 == Get(Visit(a, x))
    ensures Get(Apply(a, x).0) == Apply(a, x).1
  {
  }

  /** The slot has no history: visiting x and then y leaves the adapter
      exactly as visiting y alone does. */
  lemma NoHistory<R>(a: FunctionAdapter<R>, x: Shape, y: Shape)
    ensures Visit(Visit(a, x), y) == Visit(a, y)
  {
  }

  /** A handler of the adapter widened to every shape. Applied to a shape of
      its own kind, as `Visitable.Accept` and `VisitAgreesWithChain` do, the
      `a.res` branch is never taken. */
  function Widen<R>(k: Kind, a: FunctionAdapter<R>): Shape -> R
  {
    match k
    case CircleType => (s: Shape) => if s.Circle? then a.fnCircle(s) else a.res
    case SquareType => (s: Shape) => if s.Square? then a.fnSquare(s) else a.res
    case BlobType => (s: Shape) => if s.Blob? then a.fnBlob(s) else a.res
  }

  /** The adapter as the chained visitor `Visitor<Circle, Square, Blob>` with
      the same handlers. */
  function AsVisitor<R>(a: FunctionAdapter<R>): (v: Chain.Visitor<Kind, Shape, R>)
    ensures Chain.Types(v) == [CircleType, SquareType, BlobType]
  {
    Chain.Build([CircleType, SquareType, BlobType],
                [Widen(CircleType, a), Widen(SquareType, a), Widen(BlobType, a)])
  }

  /** The closed adapter and the variadic visitor select the same handler:
      the value stored by `visit(x)` is what the chained visitor's handler for
      x's kind produces. */
  lemma VisitAgreesWithChain<R>(a: FunctionAdapter<R>, x: Shape)
    ensures KindOf(x) in Chain.Types(AsVisitor(a))
    ensures Get(Visit(a, x)) == Chain.Visit(AsVisitor(a), KindOf(x), x)[0].out
  {
  }
}
