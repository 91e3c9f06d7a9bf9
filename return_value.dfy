/** ParallelReduceReturnValue: sorts the caller's result argument into one of
    four cases and turns it into a non-owning (unmanaged, host-space) view. */
module ReturnValue {
  import opened Wrappers
  import opened Functors
  import opened Reducers

  /** What a view points at: one scalar location, or the first element of a
      caller's array (or what a pointer points at). */
  datatype Pointee = CellAt(cell: Cell) | BufferAt(base: array<int>)

  /** A view: what it points at and one extent per dimension; its rank is the
      number of extents. */
  datatype View = View(data: Pointee, extents: seq<nat>) {

    function Rank(): nat
    {
      |extents|
    }

    /** The number of elements the view spans (1 for rank 0). */
    function Size(): nat
    {
      Product(extents)
    }
  }

  function Product(s: seq<nat>): nat
    decreases |s|
  {
    if s == [] then 1 else s[0] * Product(s[1..])
  }

  /** The `value_type` typedef of an adapter: a scalar, or an array of scalars. */
  datatype ValueShape = ScalarValue | ArrayValue

  /** The result argument of parallel_reduce. */
  datatype ReturnArg =
    | ViewArg(view: View)                       // already a Kokkos::View
    | ScalarArg(target: Cell)                   // a plain scalar, by reference
    | ArrayArg(base: array<int>, pointer: bool) // an array, or a pointer when `pointer`
    | ReducerArg(reducer: ReducerRef)           // a reducer object

  /** What the adapter produces: the view handed to the closure, and the
      adapter's `value_type`. */
  datatype Adapted = Adapted(view: View, valueType: ValueShape)

  // ----- selection of the specialisation (type level) -----

  /** The type traits the four partial specialisations test. */
  datatype TypeTraits = TypeTraits(isView: bool, isArray: bool, isPointer: bool, isReducer: bool)

  /** The four partial specialisations of ParallelReduceReturnValue. */
  datatype Specialisation = ViewCase | ScalarCase | ArrayCase | ReducerCase

  /** The `enable_if` condition of each specialisation. */
  predicate Enabled(s: Specialisation, t: TypeTraits)
  {
    match s
    case ViewCase => t.isView
    case ScalarCase => !t.isView && !t.isArray && !t.isPointer && !t.isReducer
    case ArrayCase => t.isArray || t.isPointer
    case ReducerCase => t.isReducer
  }

  /** The specialisation the compiler selects: the only enabled one, or None
      when several are enabled (an ambiguous instantiation). */
  function Classify(t: TypeTraits): (r: Option<Specialisation>)
    ensures r.Some? ==> Enabled(r.value, t)
    ensures r.Some? ==> forall s :: Enabled(s, t) ==> s == r.value
    ensures r.None? ==> exists s1, s2 :: s1 != s2 && Enabled(s1, t) && Enabled(s2, t)
  {
    var hits := (if Enabled(ViewCase, t) then [ViewCase] else [])
              + (if Enabled(ScalarCase, t) then [ScalarCase] else [])
              + (if Enabled(ArrayCase, t) then [ArrayCase] else [])
              + (if Enabled(ReducerCase, t) then [ReducerCase] else []);
    if |hits| == 1 then Some(hits[0]) else None
  }

  /** At most one of "is a view", "is an array or pointer", "is a reducer". */
  predicate SingleCategory(t: TypeTraits)
  {
    !(t.isView && t.isReducer)
    && !(t.isView && (t.isArray || t.isPointer))
    && !(t.isReducer && (t.isArray || t.isPointer))
  }

  /** Every type enables at least one specialisation: there is no type for
      which no specialisation exists. */
  lemma ClassifyTotal(t: TypeTraits)
    ensures exists s :: Enabled(s, t)
  {
    if !Enabled(ScalarCase, t) {
      if t.isView { assert Enabled(ViewCase, t); }
      else if t.isReducer { assert Enabled(ReducerCase, t); }
      else { assert Enabled(ArrayCase, t); }
    } else {
      assert Enabled(ScalarCase, t);
    }
  }

  /** The selection is unambiguous exactly when the type falls in at most one
      of the view, array-or-pointer and reducer categories. */
  lemma ClassifyExclusive(t: TypeTraits)
    ensures Classify(t).Some? <==> SingleCategory(t)
  {
  }

  /** The traits of an actual result argument. */
  function TraitsOf(arg: ReturnArg): TypeTraits
  {
    match arg
    case ViewArg(_) => TypeTraits(true, false, false, false)
    case ScalarArg(_) => TypeTraits(false, false, false, false)
    case ArrayArg(_, p) => TypeTraits(false, !p, p, false)
    case ReducerArg(_) => TypeTraits(false, false, false, true)
  }

  /** Every result argument selects exactly the specialisation of its own form. */
  lemma ClassifyArgument(arg: ReturnArg)
    ensures Classify(TraitsOf(arg)) == Some(match arg
      case ViewArg(_) => ViewCase
      case ScalarArg(_) => ScalarCase
      case ArrayArg(_, _) => ArrayCase
      case ReducerArg(_) => ReducerCase)
  {
  }

  // ----- return_value (value level) -----

  /** The adapter's `return_value`: a view argument is returned as it is; a
      scalar becomes a rank-0 view of its own location; an array or pointer
      becomes a rank-1 view of `functor.value_count` elements; a reducer
      becomes a rank-0 view of its `result` location. The adapter's
      `value_type` is a scalar exactly for rank-0 views, and a scalar
      `value_type` always spans one element. */
  function Adapt(arg: ReturnArg, functor: Functor): (r: Adapted)
    ensures r.valueType == ScalarValue <==> r.view.Rank() == 0
    ensures r.valueType == ScalarValue ==> r.view.Size() == 1
    ensures arg.ViewArg? ==> r.view == arg.view
    ensures !arg.ViewArg? ==> r.view.Rank() <= 1
  {
    match arg
    case ViewArg(v) =>
      Adapted(v, if v.Rank() == 0 then ScalarValue else ArrayValue)
    case ScalarArg(x) =>
      Adapted(View(CellAt(x), []), ScalarValue)
    case ArrayArg(base, _) =>
      Adapted(View(BufferAt(base), [functor.valueCount]), ArrayValue)
    case ReducerArg(red) =>
      Adapted(View(CellAt(red.ResultCell()), []), ScalarValue)
  }

  /** The objects a view points into: the scalar location or the array. */
  function ViewTargets(v: View): set<object>
  {
    match v.data
    case CellAt(c) => {c}
    case BufferAt(a) => {a}
  }

  /** The objects a result argument designates, which a reduction into it may
      write: the scalar itself, the array (or what the pointer points at), the
      reducer's `result` location, or what a view argument points into. These
      are exactly what the adapted view points into, for every functor. */
  function Targets(arg: ReturnArg): (s: set<object>)
    ensures forall functor :: s == ViewTargets(Adapt(arg, functor).view)
  {
    match arg
    case ViewArg(v) => ViewTargets(v)
    case ScalarArg(x) => {x}
    case ArrayArg(base, _) => {base}
    case ReducerArg(red) => {red.ResultCell()}
  }

  /** A scalar or reducer destination is a one-element view of the location
      the reduction must write: the scalar itself, or the reducer's result. */
  lemma AdaptSingleTarget(arg: ReturnArg, functor: Functor)
    requires arg.ScalarArg? || arg.ReducerArg?
    ensures Adapt(arg, functor).view.Size() == 1
    ensures Adapt(arg, functor).view.data
         == CellAt(if arg.ScalarArg? then arg.target else arg.reducer.ResultCell())
  {
  }

  /** An array or pointer destination spans exactly `value_count` elements from
      its first element, whatever the array's own length. */
  lemma AdaptArrayCount(arg: ReturnArg, functor: Functor)
    requires arg.ArrayArg?
    ensures Adapt(arg, functor).view.Size() == functor.valueCount
    ensures Adapt(arg, functor).view.data == BufferAt(arg.base)
  {
    assert Product([functor.valueCount]) == functor.valueCount * Product([]);
  }
}
