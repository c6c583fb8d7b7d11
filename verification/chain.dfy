/** The variadic visitor `Visitor<Types...>`: a non-empty chain of single-type
    visitors. The level for the head type stores one handler, derives from the
    visitor for the remaining types and re-exposes the inherited `visit`
    overloads next to its own.

    The chain is generic: `K` stands for the C++ types in the template argument
    list, `V` for the values visited and `O` for what a handler does when it
    runs (the C++ handlers return `void`; their outcome is their effect). */
module Chain {

  datatype Option<+T> = None | Some(value: T)

  /** `Last(tag, handler)` is the base specialisation `Visitor<T>`.
      `Link(tag, handler, base)` is `Visitor<T, Types...>`, which derives from
      `base`, the visitor for `Types...`. There is no visitor for an empty type
      list, just as `Visitor<>` is never defined. */
  datatype Visitor<K, !V, O> =
    | Last(tag: K, handler: V -> O)
    | Link(tag: K, handler: V -> O, base: Visitor<K, V, O>)

  /** One handler invocation: the position of the constructor argument that
      ran, the value it was given, and what it produced. */
  datatype Call<V, O> = Call(position: nat, arg: V, out: O)

  /** The declared type list, in template-argument order. */
  function Types<K, V, O>(v: Visitor<K, V, O>): (ts: seq<K>)
    ensures |ts| >= 1 && ts[0] == v.tag
  {
    match v
    case Last(t, _) => [t]
    case Link(t, _, b) => [t] + Types(b)
  }

  /** The constructor arguments, in order: handler k was supplied for type k. */
  function Handlers<K, V, O>(v: Visitor<K, V, O>): (hs: seq<V -> O>)
    ensures |hs| == |Types(v)|
    ensures hs[0] == v.handler
  {
    match v
    case Last(_, h) => [h]
    case Link(_, h, b) => [h] + Handlers(b)
  }

  predicate Distinct<K(==)>(ts: seq<K>)
  {
    forall i, j :: 0 <= i < j < |ts| ==> ts[i] != ts[j]
  }

  /** `p` is the first position at which `k` is declared in `ts`. */
  ghost predicate FirstAt<K>(ts: seq<K>, k: K, p: int)
  {
    && 0 <= p < |ts|
    && ts[p] == k
    && forall j :: 0 <= j < p ==> ts[j] != k
  }

  /** Overload resolution of `visit` for an argument whose static type is `k`,
      matching classes exactly. `None` is the case the compiler rejects: no
      level declares `k`.
      Otherwise the level selected: a level's own `visit(T&)` hides an
      inherited one with the same parameter type, so the outermost level,
      the first declared position, wins. */
  function Resolve<K(==), V, O>(v: Visitor<K, V, O>, k: K): (r: Option<nat>)
    ensures r.None? <==> k !in Types(v)
    ensures r.Some? ==> FirstAt(Types(v), k, r.value)
  {
    match v
    case Last(t, _) => if k == t then Some(0) else None
    case Link(t, _, b) =>
      if k == t then Some(0)
      else match Resolve(b, k)
        case None => None
        case Some(p) => Some(p + 1)
  }

  /** The calls of the base visitor, renumbered as seen from one level up. */
  function Shifted<V, O>(calls: seq<Call<V, O>>): (r: seq<Call<V, O>>)
  {
    seq(|calls|, i requires 0 <= i < |calls| => calls[i].(position := calls[i].position + 1))
  }

  /** `visit(x)` where `x` has static type `k`: exactly one handler runs, on
      `x` itself, and it is the handler supplied for the first declaration
      of `k`. */
  function Visit<K(==), V, O>(v: Visitor<K, V, O>, k: K, x: V): (calls: seq<Call<V, O>>)
    requires k in Types(v)
    ensures |calls| == 1
    ensures calls[0].arg == x
    ensures FirstAt(Types(v), k, calls[0].position)
    ensures calls[0].out == Handlers(v)[calls[0].position](x)
  {
    match v
    case Last(_, h) => [Call(0, x, h(x))]
    case Link(t, h, b) =>
      if k == t then [Call(0, x, h(x))]
      else Shifted(Visit(b, k, x))
  }

  /** The visitor constructor: the k-th handler argument is paired with the
      k-th declared type. */
  function Build<K, V, O>(types: seq<K>, fns: seq<V -> O>): (v: Visitor<K, V, O>)
    requires |types| == |fns| >= 1
    ensures Types(v) == types
    ensures Handlers(v) == fns
    decreases |types|
  {
    if |types| == 1 then Last(types[0], fns[0])
    else Link(types[0], fns[0], Build(types[1..], fns[1..]))
  }

  /** Every visitor is the one its own type list and handler list build. */
  lemma {:induction false} BuildRoundTrip<K, V, O>(v: Visitor<K, V, O>)
    ensures Build(Types(v), Handlers(v)) == v
  {
    match v
    case Last(_, _) =>
    case Link(t, h, b) =>
      BuildRoundTrip(b);
      assert Types(v)[1..] == Types(b);
      assert Handlers(v)[1..] == Handlers(b);
  }

  /** With distinct types, visiting a value of the i-th declared type runs the
      i-th constructor argument and nothing else. */
  lemma PositionalPairing<K, V, O>(types: seq<K>, fns: seq<V -> O>, i: nat, x: V)
    requires |types| == |fns| >= 1
    requires Distinct(types)
    requires i < |types|
    ensures Visit(Build(types, fns), types[i], x) == [Call(i, x, fns[i](x))]
  {
  }

  /** The `using` declaration: the head level handles its own type with its
      own handler, and every other declared type exactly as its base does. */
  lemma InheritedVisit<K, V, O>(v: Visitor<K, V, O>, k: K, x: V)
    requires v.Link? && k in Types(v.base) && k != v.tag
    ensures k in Types(v)
    ensures Visit(v, k, x)[0].out == Visit(v.base, k, x)[0].out
    ensures Visit(v, k, x)[0].position == Visit(v.base, k, x)[0].position + 1
  {
  }

  /** The visible `visit` overloads of the most derived class as a table from
      type to handler: each level adds its own, hiding the base's. */
  function Table<K(==), V, O>(v: Visitor<K, V, O>): (m: map<K, V -> O>)
    ensures m.Keys == set i | 0 <= i < |Types(v)| :: Types(v)[i]
  {
    match v
    case Last(t, h) =>
      assert (set i | 0 <= i < |Types(v)| :: Types(v)[i]) == {t} by {
        assert Types(v)[0] == t;
      }
      map[t := h]
    case Link(t, h, b) =>
      var ts, bs := Types(v), Types(b);
      assert ts == [t] + bs;
      assert (set i | 0 <= i < |ts| :: ts[i]) == {t} + (set i | 0 <= i < |bs| :: bs[i]) by {
        forall i | 0 <= i < |bs| ensures bs[i] in (set i | 0 <= i < |ts| :: ts[i]) {
          assert ts[i + 1] == bs[i];
        }
      }
      Table(b)[t := h]
  }

  /** Visiting agrees with the table of visible overloads. */
  lemma {:induction false} VisitMatchesTable<K, V, O>(v: Visitor<K, V, O>, k: K, x: V)
    requires k in Types(v)
    ensures k in Table(v)
    ensures Visit(v, k, x)[0].out == Table(v)[k](x)
  {
    match v
    case Last(_, _) =>
    case Link(t, _, b) =>
      if k != t {
        VisitMatchesTable(b, k, x);
      }
  }

  /** Two visitors that expose the same overloads dispatch alike, however
      their type lists are ordered. */
  lemma {:induction false} SameTableSameDispatch<K, V, O>(a: Visitor<K, V, O>, b: Visitor<K, V, O>, k: K, x: V)
    requires Table(a) == Table(b)
    requires k in Types(a)
    ensures k in Types(b)
    ensures Visit(a, k, x)[0].out == Visit(b, k, x)[0].out
  {
    VisitMatchesTable(a, k, x);
    VisitMatchesTable(b, k, x);
  }

  /** With distinct types, a (type, handler) pair dispatches the same wherever
      it sits in the constructor argument list. */
  lemma DeclarationOrderIrrelevant<K, V, O>(
    ts1: seq<K>, fs1: seq<V -> O>, ts2: seq<K>, fs2: seq<V -> O>, i: nat, j: nat, x: V)
    requires |ts1| == |fs1| >= 1 && Distinct(ts1)
    requires |ts2| == |fs2| >= 1 && Distinct(ts2)
    requires i < |ts1| && j < |ts2| && ts1[i] == ts2[j] && fs1[i] == fs2[j]
    ensures Visit(Build(ts1, fs1), ts1[i], x)[0].out == Visit(Build(ts2, fs2), ts2[j], x)[0].out
  {
  }
}
