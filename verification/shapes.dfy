/** The concrete visitable classes of the demo: `Circle`, `Square` and `Blob`.
    Each C++ class is one constructor of the closed sum `Shape`; the static
    type a value has when it is handed to a visitor is its `Kind`. */
module Shapes {

  /** A shape value. The C++ fields are `double`; here they are reals. */
  datatype Shape = Circle(radius: real) | Square(side: real) | Blob

  /** The concrete class of a shape, the type argument `Implementation`
      that `Visitable<Implementation>` is instantiated with. */
  datatype Kind = CircleType | SquareType | BlobType

  function KindOf(s: Shape): Kind
  {
    match s
    case Circle(_) => CircleType
    case Square(_) => SquareType
    case Blob => BlobType
  }

  /** The parameter types of the handlers: a `Circle&` can only be a circle, and so on. */
  type CircleShape = s: Shape | s.Circle? witness Circle(0.0)
  type SquareShape = s: Shape | s.Square? witness Square(0.0)
  type BlobShape = s: Shape | s.Blob? witness Blob
}
