/** What the dispatch layer reads from a user functor. */
module Functors {

  /** An execution space (a host thread pool, a device, ...); opaque here. */
  datatype ExecSpace = ExecSpace(id: nat)

  /** A user functor, described only by the members the dispatch layer uses:
      `id` stands for the functor object itself, `valueCount` is its
      `value_count` member (read only for array destinations) and
      `executionSpace` is the space that the FunctorPolicyExecutionSpace
      trait resolves for it. */
  datatype Functor = Functor(id: nat, valueCount: nat, executionSpace: ExecSpace)
}
