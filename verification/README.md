# Generic visitor dispatch, modelled in Dafny

This project models the visitor mechanism of `src/design-patterns/visitor3.cpp`:

- `Visitable<Implementation>::accept` hands a shape, viewed as its own concrete
  class, to the visitor's `visit` overload for that class (`visitable.dfy`).
- The variadic `Visitor<Types...>` is a chain of single-type visitors. Each level
  stores the handler for its head type, derives from the visitor for the remaining
  types, and re-exposes the inherited `visit` overloads through a `using`
  declaration (`chain.dfy`).
- `FunctionAdapter<Result>` is a visitor closed over Circle, Square and Blob. It
  holds one handler per shape and one result slot: `visit` overwrites the slot,
  `get` reads it, and `operator()` does both (`adapter.dfy`).
- The demo visitors `visitorX`, `visitorGetName` and `visitorGetArea`, and the
  calls `main` makes on them, are stated as facts (`demo.dfy`).

The shapes form a closed datatype `Shape = Circle(radius) | Square(side) | Blob`
(`shapes.dfy`). The C++ class of a value is its `Kind`. In `FunctionAdapter`, a
handler's parameter type `Circle&` becomes the subset type `CircleShape`. The
chained visitor is generic: its handlers take any shape, and `Chain.Visit` takes
the class `k` and the value `x` separately. Only `Visitable.Accept` ties the
class to the value, by passing `KindOf(x)`.

Handlers are Dafny function values. The chained visitor's handlers return `void`
in C++, so what a handler does is its outcome `O`. A visit returns the list of
handler invocations it caused, as `Call(position, arg, out)` records. That makes
"exactly one handler runs, on a value equal to the one visited, and it is the one supplied for the
value's class" a property that can be proved.

The adapter is an immutable record. `Visit` returns the updated adapter, and `Get`
is a pure function of the adapter value. So reading the slot never changes the
adapter, and two reads in a row agree. `Result` has no default constructor in
Dafny, so the value `_res{}` produces is passed to `Make` as `init`.

Duplicate types in a `Visitor<Types...>` list compile. A level's own `visit(T&)`
hides the inherited `visit(T&)` that the `using` declaration brings in with the
same parameter list, instead of conflicting with it. So the outermost level,
which is the first declared position, wins (`Chain.Resolve`, `Chain.Visit`,
`Demo.DuplicateTypeFirstWins`). The distinct-types precondition appears only where
a claim needs it: positional pairing and order-independence.

An empty type list and a class with no `visit` overload are compile-time errors in
C++. The model reflects them in two ways. The `Visitor` datatype has no empty
case. `Chain.Resolve` returns `None` when no overload exists, and `Chain.Visit`
and `Visitable.Accept` require an overload.

The constructor at line 77 writes its base initialiser as `Visitor(funcn ...)`.
Inside the class, `Visitor` is the injected-class-name, and it denotes
`Visitor<T, Types...>` itself. Read literally, that makes it a delegating
constructor next to `_func(func)`, which C++ forbids. The model follows the evident
intent: the base `Visitor<Types...>` is initialised with the remaining handlers.
Whether a compiler accepts line 77 as written is not settled here; the model
assumes base initialisation.

## Model

| member | source | states |
|---|---|---|
| `Chain.Types` | src/design-patterns/visitor3.cpp:54-58 | a visitor declares at least one type, and its head is the level's own type |
| `Chain.Handlers` | src/design-patterns/visitor3.cpp:75-77 | there is exactly one handler per declared type, and the level's own handler comes first |
| `Chain.Resolve` | src/design-patterns/visitor3.cpp:79-80 | matching classes exactly, an overload exists exactly when the class is declared; when it does, the selected level is the first one declaring that type, because a level's own visit hides the inherited one |
| `Chain.Visit` | src/design-patterns/visitor3.cpp:57-81 | visiting a value of a declared type invokes exactly one handler, once, on that same value; it is the handler supplied for the first declaration of the type, and its outcome is that handler applied to the value |
| `Chain.Build` | src/design-patterns/visitor3.cpp:77 | the constructor pairs the k-th handler argument with the k-th declared type, with no handler lost or reordered |
| `Chain.BuildRoundTrip` | src/design-patterns/visitor3.cpp:77 | every visitor is rebuilt exactly from its own type list and handler list |
| `Chain.PositionalPairing` | src/design-patterns/visitor3.cpp:77-80 | with distinct types, visiting the i-th declared type runs the i-th constructor argument and no other handler |
| `Chain.InheritedVisit` | src/design-patterns/visitor3.cpp:79-80 | a type other than the head is handled as the base visitor handles it; the position is one further down the chain |
| `Chain.Table` | src/design-patterns/visitor3.cpp:79-80 | the overloads visible in the most derived class cover exactly the declared types |
| `Chain.VisitMatchesTable` | src/design-patterns/visitor3.cpp:70-81 | the outcome of a visit is the handler that the table of visible overloads holds for the type |
| `Chain.SameTableSameDispatch` | src/design-patterns/visitor3.cpp:70-81 | two visitors exposing the same overloads dispatch every declared type alike, whatever the order of their type lists |
| `Chain.DeclarationOrderIrrelevant` | src/design-patterns/visitor3.cpp:77-80 | with distinct types, a (type, handler) pair gives the same outcome wherever it sits in the argument list |
| `Adapters.Make` | src/design-patterns/visitor3.cpp:112-118 | a fresh adapter's get returns the value-initialised result, and it holds the three handlers it was given |
| `Adapters.Get` | src/design-patterns/visitor3.cpp:111 | get reads the result slot: the adapter is exactly what its three handlers and the value read rebuild, so reading cannot change it and two reads agree |
| `Adapters.Visit` | src/design-patterns/visitor3.cpp:119-121 | after visit(x), get returns the handler for x's shape applied to x; the three handlers stay the same |
| `Adapters.Apply` | src/design-patterns/visitor3.cpp:123-127 | the call operator leaves the adapter as visit does, and returns the handler for x's shape applied to x |
| `Adapters.ApplyIsVisitThenGet` | src/design-patterns/visitor3.cpp:123-127 | the call operator returns what get returns right after visit |
| `Adapters.NoHistory` | src/design-patterns/visitor3.cpp:106-121 | visiting x and then y leaves the adapter exactly as visiting y alone does |
| `Adapters.AsVisitor` | src/design-patterns/visitor3.cpp:107-109 | the adapter read as a chained visitor declares Circle, Square and Blob in that order |
| `Adapters.VisitAgreesWithChain` | src/design-patterns/visitor3.cpp:119-121 | the value the adapter stores on visit(x) is the outcome of the chained visitor with the same handlers |
| `Visitable.Accept` | src/design-patterns/visitor3.cpp:21-24 | accepting a chained visitor invokes exactly one handler, on a value equal to the shape, and that handler is the one supplied for the first declaration of the shape's own class |
| `Visitable.AcceptAdapter` | src/design-patterns/visitor3.cpp:21-24 | accepting an adapter keeps its handlers and stores what the handler for the shape's own class produces |
| `Demo.VisitorX` | src/design-patterns/visitor3.cpp:84-88 | visitorX declares Circle, Square and Blob in that order |
| `Demo.VisitorGetName` | src/design-patterns/visitor3.cpp:130-134 | visitorGetName starts with the empty string in its slot, and after visiting a shape its slot holds "circle", "square" or "blob" for that shape |
| `Demo.VisitorGetArea` | src/design-patterns/visitor3.cpp:137-141 | visitorGetArea starts with 0 in its slot, and after visiting a shape its slot holds 2·3.1415·r² for a circle, 4·side for a square and -100 for a blob |
| `Demo.VisitorXScenario` | src/design-patterns/visitor3.cpp:84-88 | visitorX runs the circle, square and blob handler for the respective shape, once each |
| `Demo.DuplicateTypeFirstWins` | src/design-patterns/visitor3.cpp:79-80 | in a visitor declaring Circle twice, the first Circle handler runs and the second never does |
| `Demo.NameScenario` | src/design-patterns/visitor3.cpp:154-157 | visitorGetName yields "circle" after accepting a circle, then "square" and "blob" from the call operator |
| `Demo.AreaScenario` | src/design-patterns/visitor3.cpp:161-167 | following main's calls in order, each get of visitorGetArea reflects only the last shape accepted: 56.547, 16.0, 16.0 again from the call operator, then -100.0 |

## Left out

- Console output in the `visitorX` lambdas and in `main` is not modelled. A `visitorX` handler's outcome is the line it would print.
- Handlers are pure functions. A C++ handler receives `T&` and could modify the shape, and the model does not represent that. The mechanism itself never modifies the shape, and `Visitable.Accept` states that the handler receives a value equal to the shape.
- Demo.VisitorGetArea, Demo.AreaScenario: the `visitorGetArea` formulas are computed in exact real arithmetic, not IEEE double. So 56.547 is the exact value, not the rounded double.
- The `std::function` type erasure, the virtual destructor of `IShape` and the `virtual` on `visit` are not modelled. They do not change which handler a visit selects.
- The commented-out alternative `Visitable` (lines 90-94) is not modelled, because it is not compiled.
- The global mutable adapter instances are not modelled. Each scenario builds its adapter value explicitly, and sharing an adapter across threads is not modelled.
- Visitable.Accept: `accept` is one template over any visitor type. The model has one function per visitor form: `Accept` for chained visitors and `AcceptAdapter` for adapters. Shapes are values, so that accept passes a reference and makes no copy is not expressible; the contract states value equality.
- Chain.Resolve: only exact-class matches are modelled. In C++, `visit(T&)` also binds an lvalue of a class derived from `T`, and overload resolution ranks an exact match above such a derived-to-base binding. So a `Visitor<IShape>` would accept a Circle. The model matches types by equality, and `Kind` has no `IShape`. Over the three unrelated shape classes of the program, the two agree.
- Chain.Visit: the class `k` and the value `x` are independent parameters. So a direct call can apply a Circle handler to a Square, which `visit(Circle&)` never does. Only calls through `Visitable.Accept`, which passes `KindOf(x)`, match the C++ typing.
