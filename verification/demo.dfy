/** The three visitors the program defines and the sequence of calls its
    `main` makes, stated as facts about the model. */
module Demo {
  import opened Shapes
  import Chain
  import Adapters
  import Visitable

  /** `visitorX`: each handler's outcome is the line it prints. */
  function VisitorX(): (v: Chain.Visitor<Kind, Shape, string>)
    ensures Chain.Types(v) == [CircleType, SquareType, BlobType]
  {
    Chain.Build([CircleType, SquareType, BlobType],
                [_ => "Shape is a circle", _ => "Shape is a square", _ => "Shape is a blob"])
  }

  /** `visitorGetName`, with the empty string in its slot. */
  function VisitorGetName(): (a: Adapters.FunctionAdapter<string>)
    ensures Adapters.Get(a) == ""
    ensures forall s: Shape :: Adapters.Get(Adapters.Visit(a, s)) ==
              (match s case Circle(_) => "circle" case Square(_) => "square" case Blob => "blob")
  {
    Adapters.Make("", _ => "circle", _ => "square", _ => "blob")
  }

  /** `visitorGetArea`, in real arithmetic, with 0 in its slot. */
  function VisitorGetArea(): (a: Adapters.FunctionAdapter<real>)
    ensures Adapters.Get(a) == 0.0
    ensures forall s: Shape :: Adapters.Get(Adapters.Visit(a, s)) ==
              (match s case Circle(r) => 2.0 * 3.1415 * r * r case Square(d) => 4.0 * d case Blob => -100.0)
  {
    Adapters.Make(0.0,
                  (s: CircleShape) => 2.0 * 3.1415 * s.radius * s.radius,
                  (s: SquareShape) => 4.0 * s.side,
                  _ => -100.0)
  }

  /** Each shape accepted by `visitorX` runs exactly its own handler once. */
  lemma VisitorXScenario()
    ensures Visitable.Accept(Circle(3.0), VisitorX()) == [Chain.Call(0, Circle(3.0), "Shape is a circle")]
    ensures Visitable.Accept(Square(4.0), VisitorX()) == [Chain.Call(1, Square(4.0), "Shape is a square")]
    ensures Visitable.Accept(Blob, VisitorX()) == [Chain.Call(2, Blob, "Shape is a blob")]
  {
  }

  /** Experiment 1 of `main`: accept then get, then the call operator twice. */
  lemma NameScenario()
    ensures Adapters.Get(Visitable.AcceptAdapter(Circle(3.0), VisitorGetName())) == "circle"
    ensures Adapters.Apply(Visitable.AcceptAdapter(Circle(3.0), VisitorGetName()), Square(4.0)).1 == "square"
    ensures Adapters.Apply(Adapters.Apply(Visitable.AcceptAdapter(Circle(3.0), VisitorGetName()), Square(4.0)).0, Blob).1
            == "blob"
  {
  }

  /** `Visitor<Circle, Circle>`: the level for the first `Circle` hides the
      inherited `visit(Circle&)`, so the first handler runs and the second never does. */
  lemma DuplicateTypeFirstWins(f: Shape -> string, g: Shape -> string)
    ensures Visitable.Accept(Circle(1.0), Chain.Build([CircleType, CircleType], [f, g]))
            == [Chain.Call(0, Circle(1.0), f(Circle(1.0)))]
  {
  }

  /** Experiment 2 of `main`: each `get` reflects only the last shape accepted,
      and the call operator on the square repeats its value. */
  lemma AreaScenario()
    ensures Adapters.Get(Visitable.AcceptAdapter(Circle(3.0), VisitorGetArea())) == 56.547
    ensures Adapters.Get(Visitable.AcceptAdapter(Square(4.0),
              Visitable.AcceptAdapter(Circle(3.0), VisitorGetArea()))) == 16.0
    ensures Adapters.Apply(Visitable.AcceptAdapter(Square(4.0),
              Visitable.AcceptAdapter(Circle(3.0), VisitorGetArea())), Square(4.0)).1 == 16.0
    ensures Adapters.Get(Visitable.AcceptAdapter(Blob, Adapters.Apply(Visitable.AcceptAdapter(Square(4.0),
              Visitable.AcceptAdapter(Circle(3.0), VisitorGetArea())), Square(4.0)).0)) == -100.0
  {
  }
}
