/** The three words of the owning, type-erased delegate cell (`delegate_base`, `base_delegate`,
    `delegate_impl`) as a value, and what each factory, the deleter and the call operator do
    with it. The class in module OwningCell keeps its fields equal to one of these values. */
module CellSpec {
  import opened Effects
  import opened SmallBuffer

  /** The policy type that supplies the callee of an empty cell. */
  datatype EmptyInvoker = NoCallInvoker | ExceptionCallInvoker

  /** `no_call_invoker::invoke` only exists for a `void` return type, so a cell type with it
      and a non-void signature does not compile. */
  predicate WellFormedCellType(invoker: EmptyInvoker, returnsVoid: bool)
  {
    invoker == NoCallInvoker ==> returnsVoid
  }

  /** What `buffer_` holds: nothing, the address of a borrowed object, a functor or a function
      pointer placed in the word itself, or the address of a functor on the heap. */
  datatype Buffer =
    | Null
    | Borrowed(obj: ObjectRef)
    | InlineFunctor(functor: Functor)
    | InlineFunctionPointer(fn: FunctionId)
    | HeapFunctor(functor: Functor)

  /** What `callee_` points to: the empty invoker of the policy, or the trampoline lambda that
      one `create` overload instantiates for one target. */
  datatype Callee =
    | EmptyInvoke(invoker: EmptyInvoker)
    | FunctionTrampoline(fn: FunctionId)
    | MethodTrampoline(member: MethodId)
    | InlineFunctorTrampoline(ty: FunctorType)
    | HeapFunctorTrampoline(ty: FunctorType)
    | FunctionPointerTrampoline

  /** What `deleter_` points to: `no_delete`, or one of the deleter lambdas of `create`. */
  datatype Deleter =
    | NoDelete
    | DestroyInBuffer(ty: FunctorType)
    | DestroyFunctionPointer
    | DeleteFromHeap(ty: FunctorType)

  datatype CellState = CellState(buffer: Buffer, callee: Callee, deleter: Deleter)

  /** The default member initialisers: `nullptr`, `EmptyInvoker::invoke`, `no_delete`. */
  function Empty(invoker: EmptyInvoker): (s: CellState)
    ensures s.callee == EmptyInvoke(invoker) && s.buffer == Null && s.deleter == NoDelete
  {
    CellState(Null, EmptyInvoke(invoker), NoDelete)
  }

  /** The states the public operations can produce: each callee comes with the buffer and the
      deleter that its `create` overload writes. */
  predicate Consistent(s: CellState, invoker: EmptyInvoker)
  {
    match s.callee
    case EmptyInvoke(_) => s == Empty(invoker)
    case FunctionTrampoline(_) => s.buffer == Null && s.deleter == NoDelete
    case MethodTrampoline(_) => s.buffer.Borrowed? && s.deleter == NoDelete
    case InlineFunctorTrampoline(ty) =>
      s.buffer.InlineFunctor? && s.buffer.functor.ty == ty && s.deleter == DestroyInBuffer(ty)
    case HeapFunctorTrampoline(ty) =>
      s.buffer.HeapFunctor? && s.buffer.functor.ty == ty && s.deleter == DeleteFromHeap(ty)
    case FunctionPointerTrampoline =>
      s.buffer.InlineFunctionPointer? && s.deleter == DestroyFunctionPointer
  }

  /** `operator bool`: the callee is not the empty invoker. */
  function IsSet(s: CellState, invoker: EmptyInvoker): (isSet: bool)
    ensures Consistent(s, invoker) ==> (isSet <==> s != Empty(invoker))
  {
    s.callee != EmptyInvoke(invoker)
  }

  /** The target that the callee reaches through the buffer, if the cell has one. */
  function CalledTarget(s: CellState): Option<Target>
  {
    match s.callee
    case EmptyInvoke(_) => None
    case FunctionTrampoline(fn) => Some(FreeFunction(fn))
    case MethodTrampoline(m) =>
      if s.buffer.Borrowed? then Some(Method(m, s.buffer.obj)) else None
    case InlineFunctorTrampoline(_) =>
      if s.buffer.InlineFunctor? then Some(OwnedFunctor(s.buffer.functor)) else None
    case HeapFunctorTrampoline(_) =>
      if s.buffer.HeapFunctor? then Some(OwnedFunctor(s.buffer.functor)) else None
    case FunctionPointerTrampoline =>
      if s.buffer.InlineFunctionPointer? then Some(FreeFunction(s.buffer.fn)) else None
  }

  /** `operator()`: run `callee_` on `buffer_`. An empty cell does what its policy says:
      nothing (`no_call_invoker`), or throw / terminate (`exception_call_invoker`). */
  function InvokeOutcome(s: CellState, invoker: EmptyInvoker, args: seq<Value>, exceptions: bool): (r: Outcome)
    requires Consistent(s, invoker)
    ensures r.Invoked? <==> IsSet(s, invoker)
    ensures r.Invoked? ==> r.args == args && CalledTarget(s) == Some(r.target)
    ensures !IsSet(s, invoker) && invoker == NoCallInvoker ==> r == NoOp
    ensures !IsSet(s, invoker) && invoker == ExceptionCallInvoker ==>
              (r == ThrewBadDelegateCall <==> exceptions) && (r == Terminated <==> !exceptions)
  {
    match CalledTarget(s)
    case Some(t) => Invoked(t, args)
    case None => if invoker == NoCallInvoker then NoOp else EmptyCallOutcome(exceptions)
  }

  /** The effect of one call: the target is called once with the forwarded arguments. */
  function CallEvents(s: CellState, args: seq<Value>): (e: seq<Event>)
    ensures |e| <= 1 && DestroyedIds(e) == multiset{}
    ensures e != [] <==> CalledTarget(s).Some?
    ensures e != [] ==> e[0] == Called(CalledTarget(s).value, args)
  {
    match CalledTarget(s)
    case Some(t) => [Called(t, args)]
    case None => []
  }

  /** `(*deleter_)(buffer_)`: `no_delete` does nothing, the in-buffer deleter runs the functor's
      destructor, the heap deleter runs it and releases the storage. Destroying a function
      pointer in the buffer has no effect. */
  function DeleterEvents(s: CellState): seq<Event>
  {
    match s.deleter
    case NoDelete => []
    case DestroyFunctionPointer => []
    case DestroyInBuffer(_) =>
      if s.buffer.InlineFunctor? then [Destroyed(s.buffer.functor.id)] else []
    case DeleteFromHeap(_) =>
      if s.buffer.HeapFunctor? then [Destroyed(s.buffer.functor.id), Freed(s.buffer.functor.id)] else []
  }

  /** The functors this cell must destroy: exactly those its deleter destroys. */
  function Owned(s: CellState): (ids: multiset<FunctorId>)
    ensures ids == DestroyedIds(DeleterEvents(s))
    ensures |ids| <= 1
    ensures s.buffer.Null? || s.buffer.Borrowed? ==> ids == multiset{}
  {
    match s.deleter
    case DestroyInBuffer(_) =>
      if s.buffer.InlineFunctor? then multiset{s.buffer.functor.id} else multiset{}
    case DeleteFromHeap(_) =>
      if s.buffer.HeapFunctor? then multiset{s.buffer.functor.id} else multiset{}
    case _ => multiset{}
  }

  /** `create<function>()`: no storage, the trampoline calls `function`. */
  function MakeFunction(fn: FunctionId): (s: CellState)
    ensures s.buffer == Null && s.deleter == NoDelete
    ensures forall inv :: Consistent(s, inv) && IsSet(s, inv)
    ensures CalledTarget(s) == Some(FreeFunction(fn))
    ensures Owned(s) == multiset{} && DeleterEvents(s) == []
  {
    CellState(Null, FunctionTrampoline(fn), NoDelete)
  }

  /** `create<C, method>(obj)`: the buffer borrows `&obj` and the deleter is `no_delete`, so the
      object is never destroyed by the cell. */
  function MakeMethod(obj: ObjectRef, m: MethodId): (s: CellState)
    ensures s.buffer == Borrowed(obj) && s.deleter == NoDelete
    ensures forall inv :: Consistent(s, inv) && IsSet(s, inv)
    ensures CalledTarget(s) == Some(Method(m, obj))
    ensures Owned(s) == multiset{} && DeleterEvents(s) == []
  {
    CellState(Borrowed(obj), MethodTrampoline(m), NoDelete)
  }

  /** `create(invokable)`: a functor that fits is moved into the buffer and destroyed in place;
      any other functor is moved to the heap and deleted from there. Either way the cell owns
      that one functor. */
  function MakeFunctor(p: Platform, f: Functor): (s: CellState)
    ensures s.buffer == InlineFunctor(f) <==> IsSmallBufferOptimizable(p, f.ty.size, f.ty.align)
    ensures s.buffer == HeapFunctor(f) <==> !IsSmallBufferOptimizable(p, f.ty.size, f.ty.align)
    ensures s.deleter == (if IsSmallBufferOptimizable(p, f.ty.size, f.ty.align)
                          then DestroyInBuffer(f.ty) else DeleteFromHeap(f.ty))
    ensures forall inv :: Consistent(s, inv) && IsSet(s, inv)
    ensures CalledTarget(s) == Some(OwnedFunctor(f))
    ensures Owned(s) == multiset{f.id}
  {
    if IsSmallBufferOptimizable(p, f.ty.size, f.ty.align) then
      CellState(InlineFunctor(f), InlineFunctorTrampoline(f.ty), DestroyInBuffer(f.ty))
    else
      CellState(HeapFunctor(f), HeapFunctorTrampoline(f.ty), DeleteFromHeap(f.ty))
  }

  /** The heap allocation `create(invokable)` performs: one `new` for a functor that does not
      fit, none otherwise. */
  function CreationEvents(p: Platform, f: Functor): (e: seq<Event>)
    ensures e == [] <==> IsSmallBufferOptimizable(p, f.ty.size, f.ty.align)
    ensures e != [] ==> e == [Allocated(f.id)]
  {
    if IsSmallBufferOptimizable(p, f.ty.size, f.ty.align) then [] else [Allocated(f.id)]
  }

  /** `create(Ret(*function)(Args...))` (base_delegate, delegate_impl): the function pointer
      itself is placed in the buffer; the overload exists only where a function pointer fits. */
  function MakeFunctionPointer(p: Platform, fn: FunctionId): (s: CellState)
    requires IsSmallBufferOptimizable(p, p.functionPointerSize, p.functionPointerAlign)
    ensures s.buffer == InlineFunctionPointer(fn) && s.deleter == DestroyFunctionPointer
    ensures forall inv :: Consistent(s, inv) && IsSet(s, inv)
    ensures CalledTarget(s) == Some(FreeFunction(fn))
    ensures Owned(s) == multiset{} && DeleterEvents(s) == []
  {
    CellState(InlineFunctionPointer(fn), FunctionPointerTrampoline, DestroyFunctionPointer)
  }

  /** In every reachable state: the cell is set exactly when invoking it reaches a target, and an
      unset cell owns nothing and its deleter does nothing. */
  lemma ConsistentStateFacts(s: CellState, invoker: EmptyInvoker)
    requires Consistent(s, invoker)
    ensures IsSet(s, invoker) <==> CalledTarget(s).Some?
    ensures !IsSet(s, invoker) ==> Owned(s) == multiset{} && DeleterEvents(s) == []
    ensures s.buffer.Borrowed? ==> DeleterEvents(s) == [] && Owned(s) == multiset{}
  {
  }
}
