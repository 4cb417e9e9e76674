/** Identities, call outcomes and observable side effects shared by every delegate model. */
module Effects {

  datatype Option<T> = None | Some(value: T)

  /** An argument or result value passed through a delegate; its C++ type does not matter here. */
  type Value = int

  /** A free (or static member) function given to a factory as a template argument. */
  type FunctionId = nat
  /** A member function given to a factory as a template argument. */
  type MethodId = nat
  /** The address of an object that the caller owns and the delegate only refers to. */
  type ObjectRef = nat
  /** Tells apart functor objects, including two objects of the same functor type. */
  type FunctorId = nat

  /** An object pointer member (`void* obj_`) of a non-owning delegate. */
  datatype Ptr = NullPtr | Addr(addr: ObjectRef)

  /** A functor class (a lambda, a class with `operator()`), with its `sizeof` and `alignof`. */
  datatype FunctorType = FunctorType(name: nat, size: nat, align: nat)

  /** One functor object that a delegate keeps (copied into its buffer or onto the heap). */
  datatype Functor = Functor(id: FunctorId, ty: FunctorType)

  /** What a trampoline calls. */
  datatype Target =
    | FreeFunction(fn: FunctionId)
    | Method(member: MethodId, obj: ObjectRef)
    | ConstMethod(member: MethodId, obj: ObjectRef)
    | OwnedFunctor(functor: Functor)
    | BorrowedFunctor(ty: FunctorType, obj: ObjectRef, viaConst: bool)

  /** The result of invoking a delegate. `Invoked(t, args)` means: `t` was called exactly once with
      `args` and its result (if any) is what the delegate returns. `Undefined` is a call that C++
      leaves undefined: through a null function pointer, or a trampoline run on a buffer it was
      not made for. */
  datatype Outcome =
    | Invoked(target: Target, args: seq<Value>)
    | NoOp
    | ThrewBadDelegateCall
    | Terminated
    | Undefined

  /** What `exception_call_invoker` / `exception_call` does: throw `bad_delegate_call`, or call
      `std::terminate` when the build has no exceptions. */
  function EmptyCallOutcome(exceptions: bool): (r: Outcome)
    ensures r == ThrewBadDelegateCall || r == Terminated
    ensures r == ThrewBadDelegateCall <==> exceptions
  {
    if exceptions then ThrewBadDelegateCall else Terminated
  }

  /** Side effects a test can observe: a target called, a functor allocated with `new`,
      its destructor run, its storage released with `delete`. */
  datatype Event =
    | Called(target: Target, args: seq<Value>)
    | Allocated(id: FunctorId)
    | Destroyed(id: FunctorId)
    | Freed(id: FunctorId)

  /** The functors whose destructor ran in `events`, with multiplicity. */
  function DestroyedIds(events: seq<Event>): (ids: multiset<FunctorId>)
    ensures |ids| <= |events|
  {
    if events == [] then multiset{}
    else
      var last := events[|events| - 1];
      DestroyedIds(events[..|events| - 1]) + (if last.Destroyed? then multiset{last.id} else multiset{})
  }

  lemma {:induction false} DestroyedIdsAppend(a: seq<Event>, b: seq<Event>)
    ensures DestroyedIds(a + b) == DestroyedIds(a) + DestroyedIds(b)
    decreases |b|
  {
    if b == [] {
      assert a + b == a;
    } else {
      var b' := b[..|b| - 1];
      assert (a + b)[..|a + b| - 1] == a + b';
      assert (a + b)[|a + b| - 1] == b[|b| - 1];
      DestroyedIdsAppend(a, b');
    }
  }

  /** The log of observable effects of one program run: what the test mocks count. */
  class Ledger {
    var events: seq<Event>

    constructor ()
      ensures events == []
    {
      events := [];
    }
  }
}
