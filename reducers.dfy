/** The built-in reducers `Max` and `Add`: a result reference, an in-place
    `join(dest, src)` and an `init(val)` that writes the starting value.
    Scalars are integers. */
module Reducers {

  /** A memory location holding one scalar; a C++ `value_type&` designates
      one of these. */
  class Cell {
    var value: int

    constructor (v: int)
      ensures value == v
    {
      value := v;
    }
  }

  /** What a built-in reducer does to values: Max carries its `min_value`. */
  datatype ReducerOp = MaxOp(minValue: int) | AddOp

  /** The value `Max::join` leaves in `dest`. As written it keeps the SMALLER
      of the two operands (`dest<src?dest:src`). */
  function MaxJoin(dest: int, src: int): (r: int)
    ensures r <= dest && r <= src
    ensures r == dest || r == src
  {
    if dest < src then dest else src
  }

  /** The value `join(dest, src)` leaves in `dest`. */
  function JoinValue(op: ReducerOp, dest: int, src: int): int
  {
    match op
    case MaxOp(_) => MaxJoin(dest, src)
    case AddOp => dest + src
  }

  /** The value `init(val)` writes: Max's `min_value`, Add's `value_type()`. */
  function InitValue(op: ReducerOp): int
  {
    match op
    case MaxOp(m) => m
    case AddOp => 0
  }

  // ----- algebra of join -----

  lemma JoinAssociative(op: ReducerOp, a: int, b: int, c: int)
    ensures JoinValue(op, JoinValue(op, a, b), c) == JoinValue(op, a, JoinValue(op, b, c))
  {
  }

  lemma JoinCommutative(op: ReducerOp, a: int, b: int)
    ensures JoinValue(op, a, b) == JoinValue(op, b, a)
  {
  }

  lemma MaxJoinIdempotent(m: int, a: int)
    ensures JoinValue(MaxOp(m), a, a) == a
  {
  }

  /** Add: `init` followed by `join(val, x)` leaves exactly `x`. */
  lemma AddInitThenJoin(x: int)
    ensures JoinValue(AddOp, InitValue(AddOp), x) == x
  {
  }

  /** Max: `init` followed by `join(val, x)` leaves the smaller of
      `min_value` and `x`. */
  lemma MaxInitThenJoin(m: int, x: int)
    ensures JoinValue(MaxOp(m), InitValue(MaxOp(m)), x) <= m
    ensures JoinValue(MaxOp(m), InitValue(MaxOp(m)), x) <= x
    ensures JoinValue(MaxOp(m), InitValue(MaxOp(m)), x) in {m, x}
  {
  }

  // ----- reductions built from init and join -----

  /** The value a worker holds after starting from `acc` and joining the
      contributions `xs` into it, left to right. */
  function Accumulate(op: ReducerOp, acc: int, xs: seq<int>): int
    decreases |xs|
  {
    if xs == [] then acc else Accumulate(op, JoinValue(op, acc, xs[0]), xs[1..])
  }

  /** The value of a reduction of `xs`: `init`, then one `join` per contribution. */
  function Reduction(op: ReducerOp, xs: seq<int>): int
  {
    Accumulate(op, InitValue(op), xs)
  }

  /** Independent reference definition for Add: the sum. */
  function Sum(xs: seq<int>): int
    decreases |xs|
  {
    if xs == [] then 0 else xs[|xs| - 1] + Sum(xs[..|xs| - 1])
  }

  lemma {:induction false} AccumulateConcat(op: ReducerOp, acc: int, xs: seq<int>, ys: seq<int>)
    ensures Accumulate(op, acc, xs + ys) == Accumulate(op, Accumulate(op, acc, xs), ys)
    decreases |xs|
  {
    if xs == [] {
      assert xs + ys == ys;
    } else {
      assert (xs + ys)[0] == xs[0];
      assert (xs + ys)[1..] == xs[1..] + ys;
      AccumulateConcat(op, JoinValue(op, acc, xs[0]), xs[1..], ys);
    }
  }

  /** Joining a value into a partial result can be moved to its start. */
  lemma {:induction false} JoinAccumulate(op: ReducerOp, a: int, b: int, ys: seq<int>)
    ensures JoinValue(op, a, Accumulate(op, b, ys)) == Accumulate(op, JoinValue(op, a, b), ys)
    decreases |ys|
  {
    if ys != [] {
      JoinAccumulate(op, a, JoinValue(op, b, ys[0]), ys[1..]);
      JoinAssociative(op, a, b, ys[0]);
    }
  }

  lemma {:induction false} MaxAccumulateSmallest(m: int, acc: int, xs: seq<int>)
    ensures Accumulate(MaxOp(m), acc, xs) <= acc
    ensures forall i :: 0 <= i < |xs| ==> Accumulate(MaxOp(m), acc, xs) <= xs[i]
    ensures Accumulate(MaxOp(m), acc, xs) == acc || Accumulate(MaxOp(m), acc, xs) in xs
    decreases |xs|
  {
    if xs != [] {
      var acc' := JoinValue(MaxOp(m), acc, xs[0]);
      MaxAccumulateSmallest(m, acc', xs[1..]);
      forall i | 0 <= i < |xs|
        ensures Accumulate(MaxOp(m), acc, xs) <= xs[i]
      {
        if i > 0 { assert xs[i] == xs[1..][i - 1]; }
      }
    }
  }

  /** A reduction absorbs one more `init` value joined at its end. */
  lemma ReductionAbsorbsInit(op: ReducerOp, xs: seq<int>)
    ensures JoinValue(op, Reduction(op, xs), InitValue(op)) == Reduction(op, xs)
  {
    if op.MaxOp? {
      MaxAccumulateSmallest(op.minValue, op.minValue, xs);
    }
  }

  /** Zero contributions leave the reduction at its starting value:
      `min_value` for Max, zero for Add. */
  lemma ReductionOfNothing(op: ReducerOp)
    ensures Reduction(op, []) == InitValue(op)
  {
  }

  /** The result does not depend on how the contributions are split among
      workers: reducing two parts and joining the partial results gives the
      reduction of the whole. */
  lemma SplitIndependent(op: ReducerOp, xs: seq<int>, ys: seq<int>)
    ensures JoinValue(op, Reduction(op, xs), Reduction(op, ys)) == Reduction(op, xs + ys)
  {
    AccumulateConcat(op, InitValue(op), xs, ys);
    JoinAccumulate(op, Reduction(op, xs), InitValue(op), ys);
    ReductionAbsorbsInit(op, xs);
  }

  lemma {:induction false} AccumulateAdds(acc: int, xs: seq<int>)
    ensures Accumulate(AddOp, acc, xs) == acc + Sum(xs)
    decreases |xs|
  {
    if xs != [] {
      AccumulateAdds(acc + xs[0], xs[1..]);
      SumFront(xs);
    }
  }

  lemma {:induction false} SumFront(xs: seq<int>)
    requires xs != []
    ensures Sum(xs) == xs[0] + Sum(xs[1..])
    decreases |xs|
  {
    if |xs| > 1 {
      var init := xs[..|xs| - 1];
      SumFront(init);
      assert init[1..] == xs[1..][..|xs[1..]| - 1];
      assert init[0] == xs[0];
    } else {
      assert xs[1..] == [] && xs[..0] == [];
    }
  }

  /** An Add reduction yields the sum of the contributions. */
  lemma AddReductionIsSum(xs: seq<int>)
    ensures Reduction(AddOp, xs) == Sum(xs)
  {
    AccumulateAdds(0, xs);
  }

  /** A Max reduction, as written, yields the SMALLEST of `min_value` and the
      contributions. */
  lemma MaxReductionIsSmallest(m: int, xs: seq<int>)
    ensures Reduction(MaxOp(m), xs) <= m
    ensures forall i :: 0 <= i < |xs| ==> Reduction(MaxOp(m), xs) <= xs[i]
    ensures Reduction(MaxOp(m), xs) == m || Reduction(MaxOp(m), xs) in xs
  {
    MaxAccumulateSmallest(m, m, xs);
  }

  /** Consequence: when `min_value` is a true lower bound of the contributions,
      a Max reduction yields `min_value` whatever the contributions are. */
  lemma MaxReductionWithLowerBound(m: int, xs: seq<int>)
    requires forall i :: 0 <= i < |xs| ==> m <= xs[i]
    ensures Reduction(MaxOp(m), xs) == m
  {
    MaxReductionIsSmallest(m, xs);
  }

  // ----- the reducer objects -----

  /** `Kokkos::Max<Scalar>`: a `min_value` field the constructor does not
      initialise, and a reference to the caller's result. */
  class MaxReducer {
    var minValue: int
    const result: Cell

    constructor (result: Cell)
      ensures this.result == result
    {
      this.result := result;
    }

    function Op(): ReducerOp
      reads this
    {
      MaxOp(minValue)
    }

    method Join(dest: Cell, src: Cell)
      modifies dest
      ensures dest.value == JoinValue(Op(), old(dest.value), old(src.value))
    {
      dest.value := if dest.value < src.value then dest.value else src.value;
    }

    /** The `volatile` overload: the same update. */
    method JoinVolatile(dest: Cell, src: Cell)
      modifies dest
      ensures dest.value == JoinValue(Op(), old(dest.value), old(src.value))
    {
      dest.value := if dest.value < src.value then dest.value else src.value;
    }

    method Init(val: Cell)
      modifies val
      ensures val.value == InitValue(Op()) == minValue
    {
      val.value := minValue;
    }
  }

  /** `Kokkos::Add<Scalar>`: a reference to the caller's result. */
  class AddReducer {
    const result: Cell

    constructor (result: Cell)
      ensures this.result == result
    {
      this.result := result;
    }

    method Join(dest: Cell, src: Cell)
      modifies dest
      ensures dest.value == JoinValue(AddOp, old(dest.value), old(src.value))
    {
      dest.value := dest.value + src.value;
    }

    /** The `volatile` overload: the same update. */
    method JoinVolatile(dest: Cell, src: Cell)
      modifies dest
      ensures dest.value == JoinValue(AddOp, old(dest.value), old(src.value))
    {
      dest.value := dest.value + src.value;
    }

    method Init(val: Cell)
      modifies val
      ensures val.value == InitValue(AddOp) == 0
    {
      val.value := 0;
    }
  }

  /** A reducer object passed as the result argument of parallel_reduce. */
  datatype ReducerRef = MaxRef(max: MaxReducer) | AddRef(add: AddReducer) {

    /** The location the reducer's `result` reference designates. */
    function ResultCell(): Cell
    {
      match this
      case MaxRef(r) => r.result
      case AddRef(r) => r.result
    }
  }
}
