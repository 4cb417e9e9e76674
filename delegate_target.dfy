/** `rome::detail::delegate_target`: the same three words as the owning cell, but public, with
    no default constructor, a converting constructor from any triple, and DEFAULTED move
    operations, which copy the three words member-wise. */
module DelegateTargetCell {
  import opened Effects
  import opened SmallBuffer

  /** What `buffer_` holds: nothing, a functor placed in the word, the address of a functor on
      the heap, or any other address handed to the triple constructor. */
  datatype RawBuffer = NullBuffer | InBuffer(functor: Functor) | OnHeap(functor: Functor) | Pointer(addr: ObjectRef)

  /** `no_call`, `exception_call`, or the callee lambda of one `create` overload. */
  datatype TargetCallee = NoCall | ExceptionCall | SmallCall(ty: FunctorType) | LargeCall(ty: FunctorType)

  /** `no_delete`, or the deleter lambda of one `create` overload. */
  datatype TargetDeleter = NoDelete | DestroyInPlace(ty: FunctorType) | DeleteOnHeap(ty: FunctorType)

  datatype Triple = Triple(buffer: RawBuffer, callee: TargetCallee, deleter: TargetDeleter)

  /** The triple an object holds once the target has been moved out of it. */
  const Released := Triple(NullBuffer, NoCall, NoDelete)

  /** A triple whose callee and deleter fit its buffer, as `create` builds them. */
  predicate Coherent(t: Triple)
  {
    match t.callee
    case SmallCall(ty) => t.buffer.InBuffer? && t.buffer.functor.ty == ty && t.deleter == DestroyInPlace(ty)
    case LargeCall(ty) => t.buffer.OnHeap? && t.buffer.functor.ty == ty && t.deleter == DeleteOnHeap(ty)
    case _ => t.deleter == NoDelete
  }

  /** The destructor's `(*deleter_)(buffer_)`. */
  function TripleEvents(t: Triple): (e: seq<Event>)
    ensures t.deleter == NoDelete ==> e == []
    ensures Coherent(t) && t.deleter.DestroyInPlace? ==> e == [Destroyed(t.buffer.functor.id)]
    ensures Coherent(t) && t.deleter.DeleteOnHeap? ==>
              e == [Destroyed(t.buffer.functor.id), Freed(t.buffer.functor.id)]
  {
    match t.deleter
    case NoDelete => []
    case DestroyInPlace(_) => if t.buffer.InBuffer? then [Destroyed(t.buffer.functor.id)] else []
    case DeleteOnHeap(_) =>
      if t.buffer.OnHeap? then [Destroyed(t.buffer.functor.id), Freed(t.buffer.functor.id)] else []
  }

  /** `create(t)`: placement in the buffer when the functor fits, `new` otherwise. */
  function Create(p: Platform, f: Functor): (t: Triple)
    ensures Coherent(t)
    ensures t.buffer == InBuffer(f) <==> IsSmallBufferOptimizable(p, f.ty.size, f.ty.align)
    ensures t.buffer == OnHeap(f) <==> !IsSmallBufferOptimizable(p, f.ty.size, f.ty.align)
    ensures DestroyedIds(TripleEvents(t)) == multiset{f.id}
  {
    if IsSmallBufferOptimizable(p, f.ty.size, f.ty.align) then
      Triple(InBuffer(f), SmallCall(f.ty), DestroyInPlace(f.ty))
    else
      Triple(OnHeap(f), LargeCall(f.ty), DeleteOnHeap(f.ty))
  }

  /** `operator()`: `no_call` does nothing, `exception_call` throws or terminates, a `create`
      callee calls the functor in its buffer. */
  function CallOutcome(t: Triple, args: seq<Value>, exceptions: bool): (r: Outcome)
    ensures t.callee == NoCall ==> r == NoOp
    ensures t.callee == ExceptionCall ==> r == EmptyCallOutcome(exceptions)
    ensures Coherent(t) && (t.callee.SmallCall? || t.callee.LargeCall?) ==>
              r == Invoked(OwnedFunctor(t.buffer.functor), args)
  {
    match t.callee
    case NoCall => NoOp
    case ExceptionCall => EmptyCallOutcome(exceptions)
    case SmallCall(ty) =>
      if t.buffer.InBuffer? && t.buffer.functor.ty == ty then Invoked(OwnedFunctor(t.buffer.functor), args) else Undefined
    case LargeCall(ty) =>
      if t.buffer.OnHeap? && t.buffer.functor.ty == ty then Invoked(OwnedFunctor(t.buffer.functor), args) else Undefined
  }

  class DelegateTarget {
    var buffer: RawBuffer
    var callee: TargetCallee
    var deleter: TargetDeleter
    const ledger: Ledger
    /** False once the destructor has run. */
    ghost var alive: bool

    function State(): Triple
      reads this
    {
      Triple(buffer, callee, deleter)
    }

    /** `delegate_target(buffer, callee, deleter)`: any triple is accepted. */
    constructor (t: Triple, ledger: Ledger)
      ensures alive && State() == t && this.ledger == ledger
    {
      buffer, callee, deleter := t.buffer, t.callee, t.deleter;
      this.ledger := ledger;
      alive := true;
    }

    /** The defaulted move constructor, as written: a member-wise copy; the source still holds
        the same target. */
    constructor MoveFrom(orig: DelegateTarget)
      requires orig.alive
      ensures alive && State() == orig.State() && ledger == orig.ledger
    {
      buffer, callee, deleter := orig.buffer, orig.callee, orig.deleter;
      ledger := orig.ledger;
      alive := true;
    }

    /** A move constructor that releases the source, as the owning cells' moves do. */
    constructor MoveFromResetting(orig: DelegateTarget)
      requires orig.alive
      modifies orig
      ensures alive && State() == old(orig.State()) && ledger == orig.ledger
      ensures orig.alive && orig.State() == Released
    {
      buffer, callee, deleter := orig.buffer, orig.callee, orig.deleter;
      ledger := orig.ledger;
      alive := true;
      new;
      orig.buffer, orig.callee, orig.deleter := NullBuffer, NoCall, NoDelete;
    }

    method Destroy()
      requires alive
      modifies this, ledger
      ensures !alive && State() == old(State())
      ensures ledger.events == old(ledger.events) + TripleEvents(old(State()))
    {
      ledger.events := ledger.events + TripleEvents(State());
      alive := false;
    }

    /** The defaulted move assignment, as written: a member-wise copy; the old target is never
        destroyed and the source keeps its target. */
    method MoveAssign(orig: DelegateTarget)
      requires alive && orig.alive
      modifies this
      ensures alive && State() == orig.State()
    {
      buffer, callee, deleter := orig.buffer, orig.callee, orig.deleter;
    }

    /** A move assignment that destroys the old target and releases the source. */
    method MoveAssignReleasing(orig: DelegateTarget)
      requires alive && orig.alive && ledger == orig.ledger
      modifies this, orig, ledger
      ensures alive && orig.alive
      ensures orig != this ==> State() == old(orig.State()) && orig.State() == Released
      ensures orig == this ==> State() == old(State())
      ensures ledger.events == old(ledger.events) + (if orig == this then [] else TripleEvents(old(State())))
    {
      if orig != this {
        ledger.events := ledger.events + TripleEvents(State());
        buffer, callee, deleter := orig.buffer, orig.callee, orig.deleter;
        orig.buffer, orig.callee, orig.deleter := NullBuffer, NoCall, NoDelete;
      }
    }

    /** `operator==`: the three words are equal. */
    function Equals(rhs: DelegateTarget): (eq: bool)
      reads this, rhs
      ensures eq <==> State() == rhs.State()
      ensures eq ==> forall args, ex :: CallOutcome(State(), args, ex) == CallOutcome(rhs.State(), args, ex)
    {
      buffer == rhs.buffer && callee == rhs.callee && deleter == rhs.deleter
    }

    /** `operator bool`, a stub as written: false for every target, including one that calls a
        functor. */
    function AsBool(): (b: bool)
      reads this
      ensures !b
    {
      false
    }

    method Invoke(args: seq<Value>, exceptions: bool) returns (r: Outcome)
      requires alive
      modifies ledger
      ensures r == CallOutcome(State(), args, exceptions)
      ensures ledger.events == old(ledger.events) + (if r.Invoked? then [Called(r.target, args)] else [])
    {
      r := CallOutcome(State(), args, exceptions);
      if r.Invoked? {
        ledger.events := ledger.events + [Called(r.target, args)];
      }
    }

    static method CreateTarget(p: Platform, f: Functor, ledger: Ledger) returns (d: DelegateTarget)
      modifies ledger
      ensures fresh(d) && d.alive && d.State() == Create(p, f) && d.ledger == ledger
      ensures ledger.events == old(ledger.events)
                               + (if IsSmallBufferOptimizable(p, f.ty.size, f.ty.align) then [] else [Allocated(f.id)])
    {
      if IsSmallBufferOptimizable(p, f.ty.size, f.ty.align) {
        d := new DelegateTarget(Triple(NullBuffer, SmallCall(f.ty), DestroyInPlace(f.ty)), ledger);
        d.buffer := InBuffer(f);
      } else {
        ledger.events := ledger.events + [Allocated(f.id)];
        d := new DelegateTarget(Triple(OnHeap(f), LargeCall(f.ty), DeleteOnHeap(f.ty)), ledger);
      }
    }
  }

  /** As written: move-construct d2 from d1 and destroy both; the functor's destructor runs twice
      (and a functor on the heap is deleted twice). */
  method DefaultedMoveDestroysTwice(p: Platform, f: Functor) returns (log: seq<Event>)
    ensures DestroyedIds(log)[f.id] == 2
    ensures log == TripleEvents(Create(p, f)) + TripleEvents(Create(p, f))
  {
    var ledger := new Ledger();
    var d1 := DelegateTarget.CreateTarget(p, f, ledger);
    var created := ledger.events;
    var d2 := new DelegateTarget.MoveFrom(d1);
    d2.Destroy();
    d1.Destroy();
    log := ledger.events[|created|..];
    assert log == TripleEvents(Create(p, f)) + TripleEvents(Create(p, f));
    DestroyedIdsAppend(TripleEvents(Create(p, f)), TripleEvents(Create(p, f)));
  }

  /** Corrected: with a move that releases the source the functor is destroyed exactly once. */
  method ResettingMoveDestroysOnce(p: Platform, f: Functor) returns (log: seq<Event>)
    ensures DestroyedIds(log) == multiset{f.id}
    ensures log == TripleEvents(Create(p, f))
  {
    var ledger := new Ledger();
    var d1 := DelegateTarget.CreateTarget(p, f, ledger);
    var created := ledger.events;
    var d2 := new DelegateTarget.MoveFromResetting(d1);
    d2.Destroy();
    d1.Destroy();
    log := ledger.events[|created|..];
    assert log == TripleEvents(Create(p, f)) + TripleEvents(Released);
  }

  /** As written: `d2 = std::move(d1)` with the defaulted assignment, then destroy both; d2's old
      functor `g` is never destroyed and `f` is destroyed twice. */
  method DefaultedMoveAssignLeaks(p: Platform, f: Functor, g: Functor) returns (log: seq<Event>)
    requires f.id != g.id
    ensures DestroyedIds(log)[f.id] == 2 && DestroyedIds(log)[g.id] == 0
  {
    var ledger := new Ledger();
    var d1 := DelegateTarget.CreateTarget(p, f, ledger);
    var d2 := DelegateTarget.CreateTarget(p, g, ledger);
    var created := ledger.events;
    d2.MoveAssign(d1);
    d2.Destroy();
    d1.Destroy();
    log := ledger.events[|created|..];
    assert log == TripleEvents(Create(p, f)) + TripleEvents(Create(p, f));
    DestroyedIdsAppend(TripleEvents(Create(p, f)), TripleEvents(Create(p, f)));
  }

  /** Corrected: with an assignment that destroys the old target and releases the source, each
      functor is destroyed exactly once. */
  method ReleasingMoveAssignDestroysEach(p: Platform, f: Functor, g: Functor) returns (log: seq<Event>)
    requires f.id != g.id
    ensures DestroyedIds(log) == multiset{g.id, f.id}
  {
    var ledger := new Ledger();
    var d1 := DelegateTarget.CreateTarget(p, f, ledger);
    var d2 := DelegateTarget.CreateTarget(p, g, ledger);
    var created := ledger.events;
    d2.MoveAssignReleasing(d1);
    assert ledger.events == created + TripleEvents(Create(p, g));
    assert d1.State() == Released && d2.State() == Create(p, f);
    d2.Destroy();
    assert ledger.events == created + TripleEvents(Create(p, g)) + TripleEvents(Create(p, f));
    d1.Destroy();
    assert TripleEvents(Released) == [];
    log := ledger.events[|created|..];
    assert log == TripleEvents(Create(p, g)) + TripleEvents(Create(p, f));
    DestroyedIdsAppend(TripleEvents(Create(p, g)), TripleEvents(Create(p, f)));
  }
}
