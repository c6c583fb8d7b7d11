/** `Visitable<Implementation>::accept`: a shape hands itself, viewed as its
    own concrete class, to the visitor's `visit` overload for that class.
    The template accepts any visitor; the model has one `accept` per visitor
    form. */
module Visitable {
  import opened Shapes
  import Chain
  import Adapters

  /** `x.accept(v)` for a chained visitor. The requirement is what the C++
      compiler checks: `v` has a `visit` overload for x's class. Exactly one
      handler runs, on a value equal to x, and it is the one supplied for the first
      declaration of x's class. */
  function Accept<O>(x: Shape, v: Chain.Visitor<Kind, Shape, O>): (calls: seq<Chain.Call<Shape, O>>)
    requires KindOf(x) in Chain.Types(v)
    ensures |calls| == 1
    ensures calls[0].arg == x
    ensures Chain.FirstAt(Chain.Types(v), KindOf(x), calls[0].position)
    ensures calls[0].out == Chain.Handlers(v)[calls[0].position](x)
  {
    Chain.Visit(v, KindOf(x), x)
  }

  /** `x.accept(a)` for a `FunctionAdapter`: the adapter keeps its handlers
      and stores what the equivalent chained visitor's handler for x's class
      produces. */
  function AcceptAdapter<R>(x: Shape, a: Adapters.FunctionAdapter<R>): (a': Adapters.FunctionAdapter<R>)
    ensures Adapters.SameHandlers(a, a')
    ensures KindOf(x) in Chain.Types(Adapters.AsVisitor(a))
    ensures Adapters.Get(a') == Accept(x, Adapters.AsVisitor(a))[0].out
  {
    Adapters.VisitAgreesWithChain(a, x);
    Adapters.Visit(a, x)
  }
}
