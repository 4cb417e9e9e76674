/** The owning delegate cell of `rome::detail::delegate_base`, `rome::detail::base_delegate` and
    `rome::detail::delegate_impl` as an object whose three fields the operations update in place.
    Observable effects (target called, functor allocated, destroyed, freed) go to a shared
    `Ledger`, standing for the counters of the test mocks. */
module OwningCell {
  import opened Effects
  import opened SmallBuffer
  import opened CellSpec

  class OwningDelegate {
    var buffer: Buffer
    var callee: Callee
    var deleter: Deleter
    /** The `EmptyInvoker` template argument and whether `Ret` is `void`. */
    const invoker: EmptyInvoker
    const returnsVoid: bool
    const ledger: Ledger
    /** False once the destructor has run: a destroyed object is not used again. */
    ghost var alive: bool

    function State(): CellState
      reads this
    {
      CellState(buffer, callee, deleter)
    }

    ghost predicate Valid()
      reads this
    {
      alive && Consistent(State(), invoker) && WellFormedCellType(invoker, returnsVoid)
    }

    /** Two objects of the same delegate type, logging to the same ledger. */
    predicate SameType(other: OwningDelegate)
      reads this, other
    {
      invoker == other.invoker && returnsVoid == other.returnsVoid && ledger == other.ledger
    }

    /** The defaulted constructor: the default member initialisers. */
    constructor Default(invoker: EmptyInvoker, returnsVoid: bool, ledger: Ledger)
      requires WellFormedCellType(invoker, returnsVoid)
      ensures Valid() && State() == Empty(invoker)
      ensures this.invoker == invoker && this.returnsVoid == returnsVoid && this.ledger == ledger
    {
      buffer, callee, deleter := Null, EmptyInvoke(invoker), NoDelete;
      this.invoker, this.returnsVoid, this.ledger := invoker, returnsVoid, ledger;
      alive := true;
    }

    /** The move constructor: start empty, then `orig.swap(*this)`; the source is left empty. */
    constructor MoveFrom(orig: OwningDelegate)
      requires orig.Valid()
      modifies orig
      ensures Valid() && orig.Valid() && SameType(orig)
      ensures State() == old(orig.State()) && orig.State() == Empty(orig.invoker)
      ensures orig.alive
    {
      buffer, callee, deleter := Null, EmptyInvoke(orig.invoker), NoDelete;
      invoker, returnsVoid, ledger := orig.invoker, orig.returnsVoid, orig.ledger;
      alive := true;
      new;
      orig.Swap(this);
    }

    /** `swap`: exchange the three words; swapping an object with itself changes nothing. */
    method Swap(other: OwningDelegate)
      requires Valid() && other.Valid() && SameType(other)
      modifies this, other
      ensures Valid() && other.Valid()
      ensures State() == old(other.State()) && other.State() == old(State())
    {
      var b, c, d := buffer, callee, deleter;
      buffer, callee, deleter := other.buffer, other.callee, other.deleter;
      other.buffer, other.callee, other.deleter := b, c, d;
    }

    /** The destructor: `(*deleter_)(buffer_)`. */
    method Destroy()
      requires Valid()
      modifies this, ledger
      ensures !alive && State() == old(State())
      ensures ledger.events == old(ledger.events) + DeleterEvents(old(State()))
    {
      ledger.events := ledger.events + DeleterEvents(State());
      alive := false;
    }

    /** Move assignment: `delegate_base(std::move(orig)).swap(*this)`. The temporary takes the
        source's target, hands it to this object and is destroyed holding this object's old
        target, so the old target is released exactly once. Self-assignment changes nothing. */
    method MoveAssign(orig: OwningDelegate)
      requires Valid() && orig.Valid() && SameType(orig)
      modifies this, orig, ledger
      ensures Valid() && orig.Valid()
      ensures State() == old(orig.State())
      ensures orig != this ==> orig.State() == Empty(invoker)
      ensures ledger.events == old(ledger.events) + (if orig == this then [] else DeleterEvents(old(State())))
    {
      var temp := new OwningDelegate.MoveFrom(orig);
      temp.Swap(this);
      temp.Destroy();
    }

    /** `operator=(nullptr)`: `*this = delegate_base()`; the old target is released and the
        cell is empty again. */
    method AssignNull()
      requires Valid()
      modifies this, ledger
      ensures Valid() && State() == Empty(invoker)
      ensures ledger.events == old(ledger.events) + DeleterEvents(old(State()))
    {
      var temp := new OwningDelegate.Default(invoker, returnsVoid, ledger);
      MoveAssign(temp);
      temp.Destroy();
      assert DeleterEvents(Empty(invoker)) == [];
    }

    /** `operator==`: the three words are equal; equal cells reach the same target. */
    function Equals(rhs: OwningDelegate): (eq: bool)
      reads this, rhs
      ensures eq <==> State() == rhs.State()
      ensures eq ==> CalledTarget(State()) == CalledTarget(rhs.State())
    {
      buffer == rhs.buffer && callee == rhs.callee && deleter == rhs.deleter
    }

    /** `operator bool`: in a valid cell, true exactly when the cell is not empty, that is when
        a call reaches a target. */
    function AsBool(): (b: bool)
      reads this
      ensures Consistent(State(), invoker) ==> (b <==> State() != Empty(invoker))
      ensures Consistent(State(), invoker) ==> (b <==> CalledTarget(State()).Some?)
    {
      callee != EmptyInvoke(invoker)
    }

    /** `operator()`: run the callee on the buffer; for an empty cell the empty invoker decides. */
    method Invoke(args: seq<Value>, exceptions: bool) returns (r: Outcome)
      requires Valid()
      modifies ledger
      ensures r == InvokeOutcome(State(), invoker, args, exceptions)
      ensures ledger.events == old(ledger.events) + CallEvents(State(), args)
    {
      match CalledTarget(State())
      case Some(t) =>
        ledger.events := ledger.events + [Called(t, args)];
        r := Invoked(t, args);
      case None =>
        r := if invoker == NoCallInvoker then NoOp else EmptyCallOutcome(exceptions);
    }

    /** `create<function>()`. */
    static method CreateFunction(invoker: EmptyInvoker, returnsVoid: bool, ledger: Ledger, fn: FunctionId)
      returns (d: OwningDelegate)
      requires WellFormedCellType(invoker, returnsVoid)
      ensures fresh(d) && d.Valid() && d.State() == MakeFunction(fn)
      ensures d.invoker == invoker && d.returnsVoid == returnsVoid && d.ledger == ledger
    {
      d := new OwningDelegate.Default(invoker, returnsVoid, ledger);
      d.buffer := Null;
      d.callee := FunctionTrampoline(fn);
      d.deleter := NoDelete;
    }

    /** `create<C, method>(obj)`. */
    static method CreateMethod(invoker: EmptyInvoker, returnsVoid: bool, ledger: Ledger, obj: ObjectRef, m: MethodId)
      returns (d: OwningDelegate)
      requires WellFormedCellType(invoker, returnsVoid)
      ensures fresh(d) && d.Valid() && d.State() == MakeMethod(obj, m)
      ensures d.invoker == invoker && d.returnsVoid == returnsVoid && d.ledger == ledger
    {
      d := new OwningDelegate.Default(invoker, returnsVoid, ledger);
      d.buffer := Borrowed(obj);
      d.callee := MethodTrampoline(m);
      d.deleter := NoDelete;
    }

    /** `create(invokable)`, both overloads: placement in the buffer when the functor fits,
        `new` otherwise. */
    static method CreateFunctor(invoker: EmptyInvoker, returnsVoid: bool, ledger: Ledger, p: Platform, f: Functor)
      returns (d: OwningDelegate)
      requires WellFormedCellType(invoker, returnsVoid)
      modifies ledger
      ensures fresh(d) && d.Valid() && d.State() == MakeFunctor(p, f)
      ensures d.invoker == invoker && d.returnsVoid == returnsVoid && d.ledger == ledger
      ensures ledger.events == old(ledger.events) + CreationEvents(p, f)
    {
      d := new OwningDelegate.Default(invoker, returnsVoid, ledger);
      if IsSmallBufferOptimizable(p, f.ty.size, f.ty.align) {
        d.buffer := InlineFunctor(f);
        d.callee := InlineFunctorTrampoline(f.ty);
        d.deleter := DestroyInBuffer(f.ty);
      } else {
        ledger.events := ledger.events + [Allocated(f.id)];
        d.buffer := HeapFunctor(f);
        d.callee := HeapFunctorTrampoline(f.ty);
        d.deleter := DeleteFromHeap(f.ty);
      }
    }

    /** `create(Ret(*function)(Args...))` of base_delegate and delegate_impl, enabled only when a
        function pointer fits in the buffer. */
    static method CreateFunctionPointer(invoker: EmptyInvoker, returnsVoid: bool, ledger: Ledger, p: Platform, fn: FunctionId)
      returns (d: OwningDelegate)
      requires WellFormedCellType(invoker, returnsVoid)
      requires IsSmallBufferOptimizable(p, p.functionPointerSize, p.functionPointerAlign)
      ensures fresh(d) && d.Valid() && d.State() == MakeFunctionPointer(p, fn)
      ensures d.invoker == invoker && d.returnsVoid == returnsVoid && d.ledger == ledger
    {
      d := new OwningDelegate.Default(invoker, returnsVoid, ledger);
      d.buffer := InlineFunctionPointer(fn);
      d.callee := FunctionPointerTrampoline;
      d.deleter := DestroyFunctionPointer;
    }
  }

  /** The free `swap(lhs, rhs)` of delegate_base. */
  method SwapDelegates(lhs: OwningDelegate, rhs: OwningDelegate)
    requires lhs.Valid() && rhs.Valid() && lhs.SameType(rhs)
    modifies lhs, rhs
    ensures lhs.Valid() && rhs.Valid()
    ensures lhs.State() == old(rhs.State()) && rhs.State() == old(lhs.State())
  {
    lhs.Swap(rhs);
  }

  /** What the functor's life in `FunctorLifecycle` leaves in the log. */
  function LifecycleEvents(p: Platform, f: Functor): seq<Event>
  {
    CreationEvents(p, f) + [Called(OwnedFunctor(f), []), Called(OwnedFunctor(f), [])]
    + DeleterEvents(MakeFunctor(p, f))
  }

  /** The functor is destroyed exactly once, allocated with `new` exactly when it does not fit,
      and released exactly when it was allocated. */
  lemma LifecycleDestroysOnce(p: Platform, f: Functor)
    ensures DestroyedIds(LifecycleEvents(p, f)) == multiset{f.id}
    ensures (Allocated(f.id) in LifecycleEvents(p, f)) <==> !IsSmallBufferOptimizable(p, f.ty.size, f.ty.align)
    ensures (Freed(f.id) in LifecycleEvents(p, f)) <==> !IsSmallBufferOptimizable(p, f.ty.size, f.ty.align)
  {
    var calls := [Called(OwnedFunctor(f), []), Called(OwnedFunctor(f), [])];
    DestroyedIdsAppend(CreationEvents(p, f) + calls, DeleterEvents(MakeFunctor(p, f)));
    DestroyedIdsAppend(CreationEvents(p, f), calls);
    if IsSmallBufferOptimizable(p, f.ty.size, f.ty.align) {
      assert LifecycleEvents(p, f) == calls + [Destroyed(f.id)];
    } else {
      assert LifecycleEvents(p, f) == [Allocated(f.id)] + calls + [Destroyed(f.id), Freed(f.id)];
    }
  }

  /** The life of one functor in a `void()` delegate with `no_call_invoker`: create d1 from the
      functor, call it, move-construct d2 from it, call the emptied d1, reset d1 with
      `d1 = delegate_type{}`, call both, destroy d2 and then d1. The moved-from d1 reports unset
      and does nothing; the log is `LifecycleEvents`. */
  method FunctorLifecycle(p: Platform, f: Functor)
    returns (log: seq<Event>, movedFromSet: bool, movedFromCall: Outcome)
    ensures !movedFromSet && movedFromCall == NoOp
    ensures log == LifecycleEvents(p, f)
    ensures DestroyedIds(log) == multiset{f.id}
  {
    var ledger := new Ledger();
    var d1 := OwningDelegate.CreateFunctor(NoCallInvoker, true, ledger, p, f);
    ghost var created := ledger.events;
    assert created == CreationEvents(p, f);
    var r := d1.Invoke([], true);
    assert ledger.events == created + [Called(OwnedFunctor(f), [])];
    var d2 := new OwningDelegate.MoveFrom(d1);
    assert d2.State() == MakeFunctor(p, f) && d1.State() == Empty(NoCallInvoker);
    movedFromSet := d1.AsBool();
    movedFromCall := d1.Invoke([], true);
    var fresh1 := new OwningDelegate.Default(NoCallInvoker, true, ledger);
    d1.MoveAssign(fresh1);
    assert d1.State() == Empty(NoCallInvoker) && d2.State() == MakeFunctor(p, f);
    assert ledger.events == created + [Called(OwnedFunctor(f), [])];
    fresh1.Destroy();
    assert ledger.events == created + [Called(OwnedFunctor(f), [])];
    r := d1.Invoke([], true);
    assert ledger.events == created + [Called(OwnedFunctor(f), [])];
    r := d2.Invoke([], true);
    ghost var called := ledger.events;
    assert called == created + [Called(OwnedFunctor(f), []), Called(OwnedFunctor(f), [])];
    d2.Destroy();
    assert ledger.events == called + DeleterEvents(MakeFunctor(p, f));
    d1.Destroy();
    log := ledger.events;
    LifecycleDestroysOnce(p, f);
  }
}
