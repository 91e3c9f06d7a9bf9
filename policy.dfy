/** ParallelReducePolicyType: turns the policy argument of parallel_reduce
    into an execution policy. */
module PolicyType {
  import opened Functors

  /** `size_t`: an unsigned 64-bit count. */
  newtype SizeT = x: int | 0 <= x < 0x1_0000_0000_0000_0000

  /** An execution policy. Only the range policy is spelled out; any other
      policy (team, multi-dimensional range, ...) is opaque here. */
  datatype ExecPolicy =
    | RangePolicy(space: ExecSpace, begin: int, end: int)
    | OtherPolicy(space: ExecSpace, descriptor: nat)

  /** The policy argument: an execution policy, or an integral count. */
  datatype PolicyArg = Explicit(policy: ExecPolicy) | Integral(n: SizeT)

  /** Whether a range policy iterates index `i` (the range is half-open);
      other policies are not unfolded. */
  predicate Iterates(p: ExecPolicy, i: int)
    requires p.RangePolicy?
  {
    p.begin <= i < p.end
  }

  /** `ParallelReducePolicyType<...>::policy`: an execution policy is returned
      unchanged; a count `n` becomes `RangePolicy(0, n)` on the execution space
      resolved from the functor. */
  function Normalize(arg: PolicyArg, functor: Functor): (r: ExecPolicy)
    ensures arg.Explicit? ==> r == arg.policy
    ensures arg.Integral? ==> r.RangePolicy? && r.space == functor.executionSpace
    ensures arg.Integral? ==> r.RangePolicy? && forall i :: Iterates(r, i) <==> 0 <= i < arg.n as int
  {
    match arg
    case Explicit(p) => p
    case Integral(n) => RangePolicy(functor.executionSpace, 0, n as int)
  }

  /** Normalising an already normalised policy changes nothing. */
  lemma NormalizeIdempotent(arg: PolicyArg, functor: Functor)
    ensures Normalize(Explicit(Normalize(arg, functor)), functor) == Normalize(arg, functor)
  {
  }

  /** A count and the range policy `[0, n)` on the functor's execution space
      normalise to the same policy. */
  lemma CountIsRange(n: SizeT, functor: Functor)
    ensures Normalize(Integral(n), functor)
         == Normalize(Explicit(RangePolicy(functor.executionSpace, 0, n as int)), functor)
  {
  }

  /** A zero count still yields a well-formed range policy, one with no indices. */
  lemma ZeroCountIsEmptyRange(functor: Functor)
    ensures Normalize(Integral(0), functor) == RangePolicy(functor.executionSpace, 0, 0)
    ensures forall i :: !Iterates(Normalize(Integral(0), functor), i)
  {
  }
}
