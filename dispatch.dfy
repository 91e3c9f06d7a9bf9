/** ParallelReduceAdaptor::execute and the four parallel_reduce overloads.
    The collaborators (the profiling library, the shared-allocation tracking
    switch and the backend closure) only record, in an event trace, that they
    were called. */
module Dispatch {
  import opened Wrappers
  import opened Functors
  import opened ReturnValue
  import opened PolicyType

  /** The backend closure `Impl::ParallelReduce`, described by what it was
      constructed from. */
  datatype Closure = Closure(functor: Functor, policy: ExecPolicy, dest: View)

  /** The side effects of a dispatch, in the order they happen. */
  datatype Event =
    | ProfileBegin(name: string, deviceId: nat, kernelId: nat)
    | TrackingClaim
    | ClosureConstructed(closure: Closure)
    | TrackingRelease
    | ClosureExecuted(closure: Closure)
    | ProfileEnd(kernelId: nat)

  datatype EventKind = BeginKind | ClaimKind | ConstructKind | ReleaseKind | ExecuteKind | EndKind

  function KindOf(e: Event): EventKind
  {
    match e
    case ProfileBegin(_, _, _) => BeginKind
    case TrackingClaim => ClaimKind
    case ClosureConstructed(_) => ConstructKind
    case TrackingRelease => ReleaseKind
    case ClosureExecuted(_) => ExecuteKind
    case ProfileEnd(_) => EndKind
  }

  /** The label the unlabelled overloads pass. */
  const NoLabel: string := "No Label"

  /** The one internal call all overloads converge on:
      `ParallelReduceAdaptor<...>::execute(name, policy, functor, return_value)`. */
  datatype Invocation = Invocation(name: string, policy: ExecPolicy, functor: Functor, dest: ReturnArg)

  /** A call of parallel_reduce: the label is present or not, the policy is an
      execution policy or a count. */
  datatype Call = Call(name: Option<string>, policy: PolicyArg, functor: Functor, dest: ReturnArg)

  /** The internal call an overload issues. */
  function Lower(c: Call): Invocation
  {
    Invocation(c.name.GetOr(NoLabel), Normalize(c.policy, c.functor), c.functor, c.dest)
  }

  /** An unlabelled call issues the same internal call as one labelled "No Label". */
  lemma UnlabelledIsNoLabel(policy: PolicyArg, functor: Functor, dest: ReturnArg)
    ensures Lower(Call(None, policy, functor, dest)) == Lower(Call(Some(NoLabel), policy, functor, dest))
    ensures Lower(Call(None, policy, functor, dest)).name == "No Label"
  {
  }

  /** A count overload issues the same internal call as the policy overload
      given the range policy `[0, n)` on the functor's execution space. */
  lemma CountOverloadIsRangeOverload(name: Option<string>, n: SizeT, functor: Functor, dest: ReturnArg)
    ensures Lower(Call(name, Integral(n), functor, dest))
         == Lower(Call(name, Explicit(RangePolicy(functor.executionSpace, 0, n as int)), functor, dest))
  {
    CountIsRange(n, functor);
  }

  /** The closure execute builds: the functor as given (ParallelReduceFunctorType
      returns it unchanged), the policy, and the adapted destination view. */
  function ClosureOf(inv: Invocation): Closure
  {
    Closure(inv.functor, inv.policy, Adapt(inv.dest, inv.functor).view)
  }

  /** The events one execute appends, when profiling is active or not, with
      `kernelId` the id the profiling library hands out. */
  function DispatchEvents(inv: Invocation, profiled: bool, kernelId: nat): seq<Event>
  {
    (if profiled then [ProfileBegin(inv.name, 0, kernelId)] else [])
    + [TrackingClaim, ClosureConstructed(ClosureOf(inv)), TrackingRelease, ClosureExecuted(ClosureOf(inv))]
    + (if profiled then [ProfileEnd(kernelId)] else [])
  }

  // ----- reading a trace -----

  /** The number of events of kind `k` in `t`. */
  function Count(t: seq<Event>, k: EventKind): nat
    decreases |t|
  {
    if t == [] then 0
    else Count(t[..|t| - 1], k) + (if KindOf(t[|t| - 1]) == k then 1 else 0)
  }

  /** The position of the first event of kind `k` in `t`, or `|t|` if none. */
  function FirstIndex(t: seq<Event>, k: EventKind): (i: nat)
    ensures i <= |t|
    ensures i < |t| ==> KindOf(t[i]) == k
    ensures forall j :: 0 <= j < i ==> KindOf(t[j]) != k
    decreases |t|
  {
    if t == [] then 0
    else if KindOf(t[0]) == k then 0
    else 1 + FirstIndex(t[1..], k)
  }

  /** The allocation-tracking flag after the events of `t`, starting from
      `enabled`: a claim disables it, a release enables it. */
  function TrackingAfter(enabled: bool, t: seq<Event>): bool
    decreases |t|
  {
    if t == [] then enabled
    else match t[|t| - 1]
      case TrackingClaim => false
      case TrackingRelease => true
      case _ => TrackingAfter(enabled, t[..|t| - 1])
  }

  lemma {:induction false} CountConcat(t: seq<Event>, u: seq<Event>)
    ensures forall k :: Count(t + u, k) == Count(t, k) + Count(u, k)
    decreases |u|
  {
    if u == [] {
      assert t + u == t;
    } else {
      var u' := u[..|u| - 1];
      CountConcat(t, u');
      assert (t + u)[..|t + u| - 1] == t + u';
    }
  }

  lemma CountSingle(e: Event)
    ensures forall k :: Count([e], k) == if KindOf(e) == k then 1 else 0
  {
    assert [e][..0] == [];
  }

  /** One execute claims the tracking exemption once, constructs one closure,
      releases once and executes the closure once; it emits one begin and one
      end event when profiling is active and none otherwise. */
  lemma DispatchCounts(inv: Invocation, profiled: bool, kernelId: nat)
    ensures Count(DispatchEvents(inv, profiled, kernelId), ClaimKind) == 1
    ensures Count(DispatchEvents(inv, profiled, kernelId), ConstructKind) == 1
    ensures Count(DispatchEvents(inv, profiled, kernelId), ReleaseKind) == 1
    ensures Count(DispatchEvents(inv, profiled, kernelId), ExecuteKind) == 1
    ensures Count(DispatchEvents(inv, profiled, kernelId), BeginKind) == (if profiled then 1 else 0)
    ensures Count(DispatchEvents(inv, profiled, kernelId), EndKind) == (if profiled then 1 else 0)
  {
    var c := ClosureOf(inv);
    var pre: seq<Event> := if profiled then [ProfileBegin(inv.name, 0, kernelId)] else [];
    var post: seq<Event> := if profiled then [ProfileEnd(kernelId)] else [];
    var mid := [TrackingClaim, ClosureConstructed(c), TrackingRelease, ClosureExecuted(c)];
    assert mid == [TrackingClaim] + [ClosureConstructed(c)] + [TrackingRelease] + [ClosureExecuted(c)];
    CountSingle(TrackingClaim);
    CountSingle(ClosureConstructed(c));
    CountSingle(TrackingRelease);
    CountSingle(ClosureExecuted(c));
    CountConcat([TrackingClaim], [ClosureConstructed(c)]);
    CountConcat([TrackingClaim] + [ClosureConstructed(c)], [TrackingRelease]);
    CountConcat([TrackingClaim] + [ClosureConstructed(c)] + [TrackingRelease], [ClosureExecuted(c)]);
    if profiled {
      CountSingle(ProfileBegin(inv.name, 0, kernelId));
      CountSingle(ProfileEnd(kernelId));
    }
    CountConcat(pre, mid);
    CountConcat(pre + mid, post);
  }

  /** Within one execute: claim, construction, release and closure execution
      happen in that order, each at its first occurrence. */
  lemma DispatchOrder(inv: Invocation, profiled: bool, kernelId: nat)
    ensures var t := DispatchEvents(inv, profiled, kernelId);
      FirstIndex(t, ClaimKind) < FirstIndex(t, ConstructKind) < FirstIndex(t, ReleaseKind)
        < FirstIndex(t, ExecuteKind) < |t|
  {
    var t := DispatchEvents(inv, profiled, kernelId);
    var o := if profiled then 1 else 0;
    assert KindOf(t[o]) == ClaimKind && KindOf(t[o + 1]) == ConstructKind;
    assert KindOf(t[o + 2]) == ReleaseKind && KindOf(t[o + 3]) == ExecuteKind;
  }

  /** Profiling events bracket the whole execute: begin comes first, with the
      invocation's label and 0 as second argument, and end comes last, with
      the id begin produced. */
  lemma DispatchProfiling(inv: Invocation, profiled: bool, kernelId: nat)
    ensures var t := DispatchEvents(inv, profiled, kernelId);
      profiled ==> t[0] == ProfileBegin(inv.name, 0, kernelId) && t[|t| - 1] == ProfileEnd(kernelId)
  {
  }

  /** The closure is constructed while allocation tracking is disabled and
      executed once it is enabled again; whatever the flag was before, it is
      enabled after the execute. */
  lemma DispatchTracking(enabled: bool, inv: Invocation, profiled: bool, kernelId: nat)
    ensures var t := DispatchEvents(inv, profiled, kernelId);
      && !TrackingAfter(enabled, t[..FirstIndex(t, ConstructKind)])
      && TrackingAfter(enabled, t[..FirstIndex(t, ExecuteKind)])
      && TrackingAfter(enabled, t)
  {
    var t := DispatchEvents(inv, profiled, kernelId);
    var o := if profiled then 1 else 0;
    DispatchOrder(inv, profiled, kernelId);
    assert FirstIndex(t, ConstructKind) == o + 1;
    assert FirstIndex(t, ExecuteKind) == o + 3;
    assert t[..o + 1][..o] == t[..o];
    assert t[..o + 3][..o + 2] == t[..o + 2];
    if profiled {
      assert t[..|t| - 1] == t[..o + 4];
    } else {
      assert t == t[..o + 4];
    }
    assert t[..o + 4][..o + 3] == t[..o + 3];
  }

  // ----- the dispatcher and its collaborators -----

  /** The state the dispatcher touches: the profiling build switch and
      library, the shared-allocation tracking flag, and the trace of calls. */
  class Runtime {
    /** Whether profiling is compiled in (KOKKOS_ENABLE_PROFILING). */
    const profilingEnabled: bool
    /** What `Profiling::profileLibraryLoaded()` answers. */
    var libraryLoaded: bool
    /** The kernel id the profiling library hands out next. */
    var nextKernelId: nat
    /** The shared-allocation tracking flag. */
    var trackingEnabled: bool
    /** Every collaborator call so far, oldest first. */
    var trace: seq<Event>

    ghost predicate Valid()
      reads this
    {
      trackingEnabled == TrackingAfter(true, trace)
    }

    constructor (profilingEnabled: bool, libraryLoaded: bool)
      ensures Valid()
      ensures this.profilingEnabled == profilingEnabled && this.libraryLoaded == libraryLoaded
      ensures nextKernelId == 0 && trackingEnabled && trace == []
    {
      this.profilingEnabled := profilingEnabled;
      this.libraryLoaded := libraryLoaded;
      nextKernelId := 0;
      trackingEnabled := true;
      trace := [];
    }

    /** Whether execute reports to the profiling library. */
    predicate Profiling()
      reads this
    {
      profilingEnabled && libraryLoaded
    }

    /** The new state after one execute of `inv`. */
    twostate predicate Dispatched(inv: Invocation)
      reads this
    {
      && trace == old(trace) + DispatchEvents(inv, old(profilingEnabled && libraryLoaded), old(nextKernelId))
      && nextKernelId == (if old(profilingEnabled && libraryLoaded) then old(nextKernelId) + 1 else old(nextKernelId))
      && trackingEnabled
      && libraryLoaded == old(libraryLoaded)
    }

    // The collaborators: each only records its call.

    method BeginParallelReduce(name: string, deviceId: nat) returns (kernelId: nat)
      requires Valid()
      modifies this
      ensures Valid()
      ensures kernelId == old(nextKernelId) && nextKernelId == old(nextKernelId) + 1
      ensures trace == old(trace) + [ProfileBegin(name, deviceId, kernelId)]
      ensures trackingEnabled == old(trackingEnabled) && libraryLoaded == old(libraryLoaded)
    {
      kernelId := nextKernelId;
      nextKernelId := nextKernelId + 1;
      Record(ProfileBegin(name, deviceId, kernelId));
    }

    method EndParallelReduce(kernelId: nat)
      requires Valid()
      modifies this
      ensures Valid()
      ensures trace == old(trace) + [ProfileEnd(kernelId)]
      ensures nextKernelId == old(nextKernelId)
      ensures trackingEnabled == old(trackingEnabled) && libraryLoaded == old(libraryLoaded)
    {
      Record(ProfileEnd(kernelId));
    }

    method ClaimAndDisable()
      requires Valid()
      modifies this
      ensures Valid()
      ensures trace == old(trace) + [TrackingClaim] && !trackingEnabled
      ensures nextKernelId == old(nextKernelId) && libraryLoaded == old(libraryLoaded)
    {
      Record(TrackingClaim);
    }

    method ReleaseAndEnable()
      requires Valid()
      modifies this
      ensures Valid()
      ensures trace == old(trace) + [TrackingRelease] && trackingEnabled
      ensures nextKernelId == old(nextKernelId) && libraryLoaded == old(libraryLoaded)
    {
      Record(TrackingRelease);
    }

    method ConstructClosure(functor: Functor, policy: ExecPolicy, dest: View) returns (c: Closure)
      requires Valid()
      modifies this
      ensures Valid()
      ensures c == Closure(functor, policy, dest)
      ensures trace == old(trace) + [ClosureConstructed(c)]
      ensures trackingEnabled == old(trackingEnabled)
      ensures nextKernelId == old(nextKernelId) && libraryLoaded == old(libraryLoaded)
    {
      c := Closure(functor, policy, dest);
      Record(ClosureConstructed(c));
    }

    /** The backend may write the reduction into what the closure's view
        points into; what it writes is not modelled. */
    method ExecuteClosure(c: Closure)
      requires Valid()
      modifies this, ViewTargets(c.dest)
      ensures Valid()
      ensures trace == old(trace) + [ClosureExecuted(c)]
      ensures trackingEnabled == old(trackingEnabled)
      ensures nextKernelId == old(nextKernelId) && libraryLoaded == old(libraryLoaded)
    {
      Record(ClosureExecuted(c));
    }

    /** Appends `e` to the trace and sets the tracking flag as `e` dictates. */
    method Record(e: Event)
      requires Valid()
      modifies this`trace, this`trackingEnabled
      ensures Valid()
      ensures trace == old(trace) + [e]
      ensures trackingEnabled == TrackingAfter(old(trackingEnabled), [e])
    {
      ghost var t := trace;
      assert [e][..0] == [];
      trace := trace + [e];
      assert trace[..|trace| - 1] == t;
      match e {
        case TrackingClaim => trackingEnabled := false;
        case TrackingRelease => trackingEnabled := true;
        case _ =>
      }
    }

    /** `ParallelReduceAdaptor::execute`: optional profiling begin, tracking
        claim, closure construction, release, closure execution, optional
        profiling end. */
    method Execute(name: string, policy: ExecPolicy, functor: Functor, ret: ReturnArg)
      requires Valid()
      modifies this, Targets(ret)
      ensures Valid()
      ensures Dispatched(Invocation(name, policy, functor, ret))
      ensures Count(trace, ClaimKind) == old(Count(trace, ClaimKind)) + 1
      ensures Count(trace, ReleaseKind) == old(Count(trace, ReleaseKind)) + 1
      ensures Count(trace, BeginKind) == old(Count(trace, BeginKind)) + (if old(Profiling()) then 1 else 0)
      ensures Count(trace, EndKind) == old(Count(trace, EndKind)) + (if old(Profiling()) then 1 else 0)
    {
      ghost var t0, id0 := trace, nextKernelId;
      var kpID: nat := 0;
      if profilingEnabled && libraryLoaded {
        kpID := BeginParallelReduce(name, 0);
      }
      ClaimAndDisable();
      var closure := ConstructClosure(functor, policy, Adapt(ret, functor).view);
      ReleaseAndEnable();
      ExecuteClosure(closure);
      if profilingEnabled && libraryLoaded {
        EndParallelReduce(kpID);
      }
      ghost var inv := Invocation(name, policy, functor, ret);
      assert trace == t0 + DispatchEvents(inv, Profiling(), id0);
      CountConcat(t0, DispatchEvents(inv, Profiling(), id0));
      DispatchCounts(inv, Profiling(), id0);
    }

    /** `parallel_reduce(name, policy, functor, return_value)`. */
    method ParallelReduceLabelled(name: string, policy: ExecPolicy, functor: Functor, ret: ReturnArg)
      requires Valid()
      modifies this, Targets(ret)
      ensures Valid()
      ensures Dispatched(Lower(Call(Some(name), Explicit(policy), functor, ret)))
    {
      Execute(name, policy, functor, ret);
    }

    /** `parallel_reduce(policy, functor, return_value)`. */
    method ParallelReduce(policy: ExecPolicy, functor: Functor, ret: ReturnArg)
      requires Valid()
      modifies this, Targets(ret)
      ensures Valid()
      ensures Dispatched(Lower(Call(None, Explicit(policy), functor, ret)))
    {
      Execute(NoLabel, policy, functor, ret);
    }

    /** `parallel_reduce(n, functor, return_value)` with `n` a `size_t`. */
    method ParallelReduceCount(n: SizeT, functor: Functor, ret: ReturnArg)
      requires Valid()
      modifies this, Targets(ret)
      ensures Valid()
      ensures Dispatched(Lower(Call(None, Integral(n), functor, ret)))
    {
      Execute(NoLabel, RangePolicy(functor.executionSpace, 0, n as int), functor, ret);
    }

    /** `parallel_reduce(name, n, functor, return_value)` with `n` a `size_t`. */
    method ParallelReduceLabelledCount(name: string, n: SizeT, functor: Functor, ret: ReturnArg)
      requires Valid()
      modifies this, Targets(ret)
      ensures Valid()
      ensures Dispatched(Lower(Call(Some(name), Integral(n), functor, ret)))
    {
      Execute(name, RangePolicy(functor.executionSpace, 0, n as int), functor, ret);
    }
  }
}
