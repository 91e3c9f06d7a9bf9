# Kokkos `parallel_reduce` dispatch, modelled in Dafny

This project models the reduction dispatch layer of Kokkos
(`core/src/Kokkos_Parallel_Reduce.hpp`): the built-in reducers `Max` and
`Add`, the adapter `ParallelReduceReturnValue` that turns the caller's result
argument into an unmanaged view, the normaliser `ParallelReducePolicyType`
that turns a count into a range policy, and `ParallelReduceAdaptor::execute`
with the four `parallel_reduce` overloads. C++ partial-specialisation
selection becomes pattern matching over datatypes. Scalars are integers.

Modules (one file each):

- `Wrappers` (`wrappers.dfy`): `Option`.
- `Functors` (`functors.dfy`): a functor, described by its `value_count` and the
  execution space resolved for it, and an opaque execution space.
- `Reducers` (`reducers.dfy`):
  - `Cell` is a scalar location, the target of a `value_type&`.
  - The classes `MaxReducer` and `AddReducer` have in-place `Join`, `JoinVolatile` and `Init` methods.
  - Their value-level meaning is `JoinValue` and `InitValue`.
  - Lemmas cover the algebra of join and reductions built from `init` and `join`.
- `ReturnValue` (`return_value.dfy`):
  - `Classify` models the selection among the four specialisations from the type traits they test.
  - `Adapt` models `return_value`. Its result is the view handed to the closure, plus the adapter's `value_type`.
- `PolicyType` (`policy.dfy`): `Normalize` turns the policy argument into an execution policy.
- `Dispatch` (`dispatch.dfy`):
  - The class `Runtime` holds the profiling switch and library state, the kernel id the library hands out next, the shared-allocation tracking flag, and a trace of collaborator calls.
  - `Execute` and the four overloads append to that trace.
  - `DispatchEvents` is the block of events one execute appends. The lemmas state its counts, order, profiling bracket and tracking window.

`Max::join` keeps the smaller operand (`dest<src?dest:src`), as the code is
written, and the model reproduces that. `MaxReductionIsSmallest` shows that
a Max reduction yields the smallest of `min_value` and the contributions.
`MaxReductionWithLowerBound` shows that when `min_value` is a true lower bound
of the contributions, the result is always `min_value`.

The model follows the code as written, including where it does not check or guard:

- No check compares an array destination's length with the functor's `value_count`. The view simply spans `value_count` elements (`AdaptArrayCount`).
- No scoped guard releases allocation tracking if closure construction fails. The claim and the release are plain calls, and construction is modelled as not failing.
- The second argument of `beginParallelReduce` is the constant `0`. It is recorded as the event's `deviceId`.

## Model

| member | source | states |
|---|---|---|
| `Reducers.MaxJoin` | core/src/Kokkos_Parallel_Reduce.hpp:57-58 | the value Max's join leaves is no larger than either operand and is one of them: the minimum |
| `Reducers.MaxReducer.constructor` | core/src/Kokkos_Parallel_Reduce.hpp:54 | binds `result` to the caller's location; `min_value` is left unspecified |
| `Reducers.MaxReducer.Join` | core/src/Kokkos_Parallel_Reduce.hpp:56-59 | `dest` becomes the smaller of old `dest` and `src`; only `dest` changes |
| `Reducers.MaxReducer.JoinVolatile` | core/src/Kokkos_Parallel_Reduce.hpp:61-64 | the volatile overload makes the same update as `Join` |
| `Reducers.MaxReducer.Init` | core/src/Kokkos_Parallel_Reduce.hpp:66-69 | `val` becomes exactly `min_value`; only `val` changes |
| `Reducers.AddReducer.constructor` | core/src/Kokkos_Parallel_Reduce.hpp:79 | binds `result` to the caller's location |
| `Reducers.AddReducer.Join` | core/src/Kokkos_Parallel_Reduce.hpp:81-84 | `dest` becomes old `dest` plus `src`; only `dest` changes |
| `Reducers.AddReducer.JoinVolatile` | core/src/Kokkos_Parallel_Reduce.hpp:86-89 | the volatile overload makes the same update as `Join` |
| `Reducers.AddReducer.Init` | core/src/Kokkos_Parallel_Reduce.hpp:91-94 | `val` becomes zero; only `val` changes |
| `Reducers.JoinAssociative` | core/src/Kokkos_Parallel_Reduce.hpp:56-89 | both joins are associative |
| `Reducers.JoinCommutative` | core/src/Kokkos_Parallel_Reduce.hpp:56-89 | both joins are commutative |
| `Reducers.MaxJoinIdempotent` | core/src/Kokkos_Parallel_Reduce.hpp:56-64 | Max's join of a value with itself leaves it unchanged |
| `Reducers.AddInitThenJoin` | core/src/Kokkos_Parallel_Reduce.hpp:81-94 | Add's `init` followed by `join(val, x)` leaves exactly `x` |
| `Reducers.MaxInitThenJoin` | core/src/Kokkos_Parallel_Reduce.hpp:56-69 | Max's `init` followed by `join(val, x)` leaves the smaller of `min_value` and `x` |
| `Reducers.ReductionOfNothing` | core/src/Kokkos_Parallel_Reduce.hpp:66-94 | a reduction over no contributions is the `init` value: `min_value` for Max, zero for Add |
| `Reducers.SplitIndependent` | core/src/Kokkos_Parallel_Reduce.hpp:47-95 | reducing two parts separately and joining the partial results equals reducing the whole: the result does not depend on how work is split |
| `Reducers.AddReductionIsSum` | core/src/Kokkos_Parallel_Reduce.hpp:72-95 | an Add reduction equals the sum of the contributions |
| `Reducers.MaxReductionIsSmallest` | core/src/Kokkos_Parallel_Reduce.hpp:47-70 | a Max reduction is at most `min_value` and every contribution, and equals one of them |
| `Reducers.MaxReductionWithLowerBound` | core/src/Kokkos_Parallel_Reduce.hpp:47-70 | when `min_value` bounds every contribution from below, a Max reduction yields `min_value` |
| `ReturnValue.Classify` | core/src/Kokkos_Parallel_Reduce.hpp:106-170 | the selected specialisation is enabled and is the only enabled one; no selection only when two are enabled (an ambiguity) |
| `ReturnValue.ClassifyTotal` | core/src/Kokkos_Parallel_Reduce.hpp:109-170 | every type enables at least one of the four specialisations |
| `ReturnValue.ClassifyExclusive` | core/src/Kokkos_Parallel_Reduce.hpp:109-170 | selection succeeds exactly when the type is in at most one of the view, array-or-pointer and reducer categories |
| `ReturnValue.ClassifyArgument` | core/src/Kokkos_Parallel_Reduce.hpp:109-170 | each actual result argument selects the specialisation of its own form |
| `ReturnValue.Adapt` | core/src/Kokkos_Parallel_Reduce.hpp:109-170 | a view passes through; in all four cases `value_type` is scalar exactly when the view's rank is 0, and a scalar `value_type` spans one element |
| `ReturnValue.AdaptSingleTarget` | core/src/Kokkos_Parallel_Reduce.hpp:123-170 | a scalar becomes a one-element view of its own location, a reducer a one-element view of its `result` location |
| `ReturnValue.Targets` | core/src/Kokkos_Parallel_Reduce.hpp:109-170 | the objects a result argument designates (the scalar, the array, the reducer's `result` location, or what a view points into) are exactly those the adapted view points into, for every functor |
| `ReturnValue.AdaptArrayCount` | core/src/Kokkos_Parallel_Reduce.hpp:150-153 | an array or pointer becomes a view of `value_count` elements from its first element |
| `PolicyType.Normalize` | core/src/Kokkos_Parallel_Reduce.hpp:177-197 | an execution policy passes unchanged; a count `n` becomes a range on the functor's execution space iterating exactly the indices `0 <= i < n` |
| `PolicyType.NormalizeIdempotent` | core/src/Kokkos_Parallel_Reduce.hpp:177-197 | normalising a normalised policy changes nothing |
| `PolicyType.CountIsRange` | core/src/Kokkos_Parallel_Reduce.hpp:186-197 | a count and `RangePolicy(0, n)` on the functor's space normalise alike |
| `PolicyType.ZeroCountIsEmptyRange` | core/src/Kokkos_Parallel_Reduce.hpp:194-196 | a zero count yields the well-formed range `[0, 0)`, iterating nothing |
| `Dispatch.UnlabelledIsNoLabel` | core/src/Kokkos_Parallel_Reduce.hpp:262-278 | an unlabelled overload issues the same internal call as a labelled one given "No Label" |
| `Dispatch.CountOverloadIsRangeOverload` | core/src/Kokkos_Parallel_Reduce.hpp:271-288 | a count overload issues the same internal call as the policy overload given `RangePolicy(0, n)` |
| `Dispatch.DispatchCounts` | core/src/Kokkos_Parallel_Reduce.hpp:224-243 | one execute claims once, constructs once, releases once, executes once, and emits one begin and one end exactly when profiling is active |
| `Dispatch.DispatchOrder` | core/src/Kokkos_Parallel_Reduce.hpp:231-237 | claim precedes construction, which precedes release, which precedes closure execution |
| `Dispatch.DispatchProfiling` | core/src/Kokkos_Parallel_Reduce.hpp:224-243 | when profiling is active, begin comes first with the label and 0, and end comes last with the id begin produced |
| `Dispatch.DispatchTracking` | core/src/Kokkos_Parallel_Reduce.hpp:231-237 | tracking is disabled when the closure is constructed, enabled when it executes, and enabled at the end |
| `Dispatch.Runtime.BeginParallelReduce` | core/src/Kokkos_Parallel_Reduce.hpp:226-228 | records the begin call and returns the id the profiling library hands out |
| `Dispatch.Runtime.ClaimAndDisable` | core/src/Kokkos_Parallel_Reduce.hpp:231 | records the claim and disables tracking |
| `Dispatch.Runtime.ConstructClosure` | core/src/Kokkos_Parallel_Reduce.hpp:232-235 | records the construction of a closure from functor, policy and destination view |
| `Dispatch.Runtime.ReleaseAndEnable` | core/src/Kokkos_Parallel_Reduce.hpp:236 | records the release and enables tracking |
| `Dispatch.Runtime.ExecuteClosure` | core/src/Kokkos_Parallel_Reduce.hpp:237 | records the closure's execution; it may write what the closure's destination view points into, and what it writes is left unconstrained |
| `Dispatch.Runtime.EndParallelReduce` | core/src/Kokkos_Parallel_Reduce.hpp:240-242 | records the end call with the given id |
| `Dispatch.Runtime.Execute` | core/src/Kokkos_Parallel_Reduce.hpp:219-244 | appends exactly the dispatch events (begin and end only when profiling is compiled in and a library is loaded); leaves tracking enabled; claim and release counts each grow by one, begin and end counts by the same amount; besides the runtime it may write only the result argument's targets |
| `Dispatch.Runtime.ParallelReduceLabelled` | core/src/Kokkos_Parallel_Reduce.hpp:248-258 | dispatches the call with its label and policy |
| `Dispatch.Runtime.ParallelReduce` | core/src/Kokkos_Parallel_Reduce.hpp:260-269 | dispatches the call with label "No Label" |
| `Dispatch.Runtime.ParallelReduceCount` | core/src/Kokkos_Parallel_Reduce.hpp:271-278 | dispatches "No Label" with the range `[0, n)` on the functor's space |
| `Dispatch.Runtime.ParallelReduceLabelledCount` | core/src/Kokkos_Parallel_Reduce.hpp:280-288 | dispatches the label with the range `[0, n)` on the functor's space |

## Left out

- The backend closure `Impl::ParallelReduce` and its parallel combine are not part of this model. Construction and `execute()` only record that they happened. `execute()` may write the destination's targets, but the value it writes is not modelled.
- Exceptions are not modelled: neither closure construction nor `execute()` throws in the model. In the code, lines 231-243 are plain sequential calls. A throw from construction (232-235) skips the release (236), so tracking stays disabled. A throw from construction or from `execute()` (237) also skips `endParallelReduce` (241), so a begin event is left without an end. `Dispatch.DispatchCounts` and `Dispatch.Runtime.Execute` describe the run in which nothing throws.
- Concurrency: the `volatile` join overloads are modelled as the same sequential update. Their thread-safety intent is not captured.
- `Kokkos::View` internals, `HostSpace` and `MemoryUnmanaged` are not part of this model. A view is what it points at plus its extents.
- `FunctorPolicyExecutionSpace` is not part of this model. The execution space it resolves is an opaque field of the functor.
- The profiling library and the allocation-tracking primitives are recorded calls only. The library's id allocation is modelled as a counter.
- `profileLibraryLoaded()` is modelled as a flag that does not change during one execute.
- Floating-point scalars are left out; scalars are unbounded integers, so Add's overflow for fixed-width types is not modelled.
- The integral policy case is modelled only for `size_t`, the type the overloads use. Other integral types are left out.
- A functor without a `value_count` member fails to compile for array destinations. The model's functor always has one.
- Overload resolution of the `parallel_reduce` overloads themselves (the `enable_if` on `is_execution_policy`) is given by which method is called, not derived.
- `ParallelReduceFunctorType::functor` returns its argument unchanged, so it is folded into `Dispatch.ClosureOf` rather than modelled as its own member.
- Each of two pairs of traits is modelled as one trait. `std::is_array` (line 126) and the unqualified `is_array` (line 142) are both the `isArray` trait. `Kokkos::is_reducer_type` (lines 127, 158) and `Impl::is_reducer_type` (line 99) are both the `isReducer` trait, a flag rather than the type-equality test of line 99. `ReturnValue.ClassifyTotal` relies on this: a type on which the two array traits disagreed would enable no specialisation.
