/** `rome::delegates::delegate<Sig>` and `me::delegates::delegate<Sig>`: copyable, non-owning
    delegates of two words, an object pointer and a caller function pointer. The two headers
    are the same code under two naming conventions (`createFromFunction` and
    `create_from_function`); they differ only in that the rome header's non-void delegate
    declares `operator==`. The `void` specialisation of both starts from `null_call` instead of
    a null caller. */
module CopyableDelegate {
  import opened Effects

  datatype Header = RomeDelegates | MeDelegates

  /** `caller_`: a null function pointer, `null_call`, or one of the three trampolines. */
  datatype Caller =
    | NullCaller
    | NullCall
    | MethodCall(member: MethodId)
    | ConstMethodCall(member: MethodId)
    | FunctionCall(fn: FunctionId)

  /** The member initialiser of `caller_`: `null_call` for a `void` signature, `nullptr` otherwise.
      `= nullptr` writes the same value. */
  function DefaultCaller(returnsVoid: bool): (c: Caller)
    ensures c == NullCall <==> returnsVoid
    ensures c == NullCaller <==> !returnsVoid
  {
    if returnsVoid then NullCall else NullCaller
  }

  /** The pairs the constructors, the assignments and the factories can produce. */
  predicate Reachable(returnsVoid: bool, obj: Ptr, caller: Caller)
  {
    match caller
    case NullCaller => !returnsVoid && obj == NullPtr
    case NullCall => returnsVoid && obj == NullPtr
    case FunctionCall(_) => obj == NullPtr
    case _ => obj.Addr?
  }

  function BoundTarget(obj: Ptr, caller: Caller): Option<Target>
  {
    match caller
    case FunctionCall(fn) => Some(FreeFunction(fn))
    case MethodCall(m) => if obj.Addr? then Some(Method(m, obj.addr)) else None
    case ConstMethodCall(m) => if obj.Addr? then Some(ConstMethod(m, obj.addr)) else None
    case _ => None
  }

  /** `operator()`: `caller_(obj_, args...)`; `null_call` does nothing, a null caller is a call
      through a null function pointer. */
  function CallOutcome(obj: Ptr, caller: Caller, args: seq<Value>): (r: Outcome)
    ensures caller == NullCall ==> r == NoOp
    ensures caller == NullCaller ==> r == Undefined
    ensures BoundTarget(obj, caller).Some? <==> r.Invoked?
    ensures r.Invoked? ==> r == Invoked(BoundTarget(obj, caller).value, args)
  {
    match BoundTarget(obj, caller)
    case Some(t) => Invoked(t, args)
    case None => if caller == NullCall then NoOp else Undefined
  }

  class Delegate {
    var obj: Ptr
    var caller: Caller
    /** Which of the two headers, and whether the signature returns `void`. */
    const header: Header
    const returnsVoid: bool
    const ledger: Ledger

    ghost predicate Valid()
      reads this
    {
      Reachable(returnsVoid, obj, caller)
    }

    /** The default constructor and `delegate(nullptr)` (which delegates to it or writes the same
        values). */
    constructor Default(header: Header, returnsVoid: bool, ledger: Ledger)
      ensures Valid() && obj == NullPtr && caller == DefaultCaller(returnsVoid)
      ensures this.header == header && this.returnsVoid == returnsVoid && this.ledger == ledger
    {
      obj, caller := NullPtr, DefaultCaller(returnsVoid);
      this.header, this.returnsVoid, this.ledger := header, returnsVoid, ledger;
    }

    /** The defaulted copy and move constructors: both copy the two words. */
    constructor CopyFrom(orig: Delegate)
      requires orig.Valid()
      ensures Valid() && obj == orig.obj && caller == orig.caller
      ensures header == orig.header && returnsVoid == orig.returnsVoid && ledger == orig.ledger
    {
      obj, caller := orig.obj, orig.caller;
      header, returnsVoid, ledger := orig.header, orig.returnsVoid, orig.ledger;
    }

    /** The defaulted copy and move assignments. */
    method Assign(orig: Delegate)
      requires Valid() && orig.Valid() && returnsVoid == orig.returnsVoid
      modifies this
      ensures Valid() && obj == old(orig.obj) && caller == old(orig.caller)
    {
      obj, caller := orig.obj, orig.caller;
    }

    /** `= nullptr`: back to a null object and the default caller. */
    method AssignNull()
      requires Valid()
      modifies this
      ensures Valid() && obj == NullPtr && caller == DefaultCaller(returnsVoid)
    {
      obj := NullPtr;
      caller := if returnsVoid then NullCall else NullCaller;
    }

    /** `isSet()` (and `operator bool`), as written: the caller is not a null pointer. For a
        non-void delegate that means a call reaches a target; a `void` delegate always holds
        a non-null caller, so it reports set even when empty. */
    function IsSet(): (b: bool)
      reads this
      ensures b <==> caller != NullCaller
      ensures Reachable(returnsVoid, obj, caller) && !returnsVoid ==> (b <==> BoundTarget(obj, caller).Some?)
      ensures Reachable(returnsVoid, obj, caller) && returnsVoid ==> b
    {
      caller != NullCaller
    }

    /** `operator!`: `!isSet()`. */
    function Not(): (b: bool)
      reads this
      ensures b == !IsSet()
    {
      !IsSet()
    }

    /** `a == b`. The rome non-void delegate compares both words; everywhere else no
        `operator==` is declared and the comparison converts both sides to `bool`. */
    function Equals(rhs: Delegate): (eq: bool)
      reads this, rhs
      ensures header == RomeDelegates && !returnsVoid ==> (eq <==> obj == rhs.obj && caller == rhs.caller)
      ensures !(header == RomeDelegates && !returnsVoid) ==> (eq <==> IsSet() == rhs.IsSet())
    {
      if header == RomeDelegates && !returnsVoid then obj == rhs.obj && caller == rhs.caller
      else IsSet() == rhs.IsSet()
    }

    /** `a != b`: the negation of `a == b`, in both forms. */
    function NotEquals(rhs: Delegate): (ne: bool)
      reads this, rhs
      ensures ne == !Equals(rhs)
    {
      if header == RomeDelegates && !returnsVoid then !(obj == rhs.obj && caller == rhs.caller)
      else IsSet() != rhs.IsSet()
    }

    /** Corrected `isSet()`: neither the null caller nor `null_call`, which for every reachable
        pair is exactly when a call reaches a target. */
    function IsLinked(): (b: bool)
      reads this
      ensures Reachable(returnsVoid, obj, caller) ==> (b <==> BoundTarget(obj, caller).Some?)
      ensures Reachable(returnsVoid, obj, caller) ==> (!b <==> obj == NullPtr && caller == DefaultCaller(returnsVoid))
    {
      caller != NullCaller && caller != NullCall
    }

    /** Corrected `operator==` for every signature: both words are equal. */
    function SameTarget(rhs: Delegate): (eq: bool)
      reads this, rhs
      ensures eq <==> obj == rhs.obj && caller == rhs.caller
      ensures eq ==> forall args :: CallOutcome(obj, caller, args) == CallOutcome(rhs.obj, rhs.caller, args)
    {
      obj == rhs.obj && caller == rhs.caller
    }

    method Invoke(args: seq<Value>) returns (r: Outcome)
      requires Valid()
      modifies ledger
      ensures r == CallOutcome(obj, caller, args)
      ensures ledger.events == old(ledger.events) + (if r.Invoked? then [Called(r.target, args)] else [])
    {
      r := CallOutcome(obj, caller, args);
      if r.Invoked? {
        ledger.events := ledger.events + [Called(r.target, args)];
      }
    }

    /** `createFromNonStaticMemberFunction` / `create_from_non_static_member`: a null object
        gives the default caller, so the delegate is empty. */
    static method CreateFromMember(header: Header, returnsVoid: bool, ledger: Ledger, obj: Ptr, m: MethodId)
      returns (d: Delegate)
      ensures fresh(d) && d.Valid() && d.header == header && d.returnsVoid == returnsVoid && d.ledger == ledger
      ensures d.obj == obj
      ensures obj.Addr? ==> d.caller == MethodCall(m) && BoundTarget(d.obj, d.caller) == Some(Method(m, obj.addr))
      ensures obj == NullPtr ==> d.caller == DefaultCaller(returnsVoid)
    {
      d := new Delegate.Default(header, returnsVoid, ledger);
      d.obj := obj;
      d.caller := if obj != NullPtr then MethodCall(m) else if returnsVoid then NullCall else NullCaller;
    }

    /** `createFromNonStaticConstMemberFunction` / `create_from_non_static_const_member`. */
    static method CreateFromConstMember(header: Header, returnsVoid: bool, ledger: Ledger, obj: Ptr, m: MethodId)
      returns (d: Delegate)
      ensures fresh(d) && d.Valid() && d.header == header && d.returnsVoid == returnsVoid && d.ledger == ledger
      ensures d.obj == obj
      ensures obj.Addr? ==> d.caller == ConstMethodCall(m) && BoundTarget(d.obj, d.caller) == Some(ConstMethod(m, obj.addr))
      ensures obj == NullPtr ==> d.caller == DefaultCaller(returnsVoid)
    {
      d := new Delegate.Default(header, returnsVoid, ledger);
      d.obj := obj;
      d.caller := if obj != NullPtr then ConstMethodCall(m) else if returnsVoid then NullCall else NullCaller;
    }

    /** `createFromFunction` / `create_from_function`. */
    static method CreateFromFunction(header: Header, returnsVoid: bool, ledger: Ledger, fn: FunctionId)
      returns (d: Delegate)
      ensures fresh(d) && d.Valid() && d.header == header && d.returnsVoid == returnsVoid && d.ledger == ledger
      ensures d.obj == NullPtr && d.caller == FunctionCall(fn)
      ensures BoundTarget(d.obj, d.caller) == Some(FreeFunction(fn))
    {
      d := new Delegate.Default(header, returnsVoid, ledger);
      d.obj := NullPtr;
      d.caller := FunctionCall(fn);
    }
  }

  /** A default `delegate<void()>` next to one linked to a function, as written: the empty one
      reports set, and the two compare equal (both convert to true), while calling the empty
      one does nothing. With the corrected members the empty one is unlinked and the two
      compare unequal, as the tests expect. */
  method DefaultVoidDelegateObserved(header: Header, fn: FunctionId)
    returns (isSet: bool, equalsLinked: bool, call: Outcome, linked: bool, sameAsLinked: bool, sameAsDefault: bool)
    ensures isSet && equalsLinked && call == NoOp
    ensures !linked && !sameAsLinked && sameAsDefault
  {
    var ledger := new Ledger();
    var d := new Delegate.Default(header, true, ledger);
    var other := new Delegate.Default(header, true, ledger);
    var dLinked := Delegate.CreateFromFunction(header, true, ledger, fn);
    isSet := d.IsSet();
    equalsLinked := d.Equals(dLinked);
    call := d.Invoke([]);
    linked := d.IsLinked();
    sameAsLinked := d.SameTarget(dLinked);
    sameAsDefault := d.SameTarget(other);
  }

  /** The non-void delegates of both headers behave as intended: a default or null-object
      delegate is not set, and a delegate made from a function or a non-null object is. */
  method NonVoidSetness(header: Header, fn: FunctionId, obj: ObjectRef, m: MethodId)
    returns (defaultSet: bool, nullObjectSet: bool, functionSet: bool, methodSet: bool, constMethodSet: bool)
    ensures !defaultSet && !nullObjectSet && functionSet && methodSet && constMethodSet
  {
    var ledger := new Ledger();
    var d := new Delegate.Default(header, false, ledger);
    defaultSet := d.IsSet();
    var dn := Delegate.CreateFromMember(header, false, ledger, NullPtr, m);
    nullObjectSet := dn.IsSet();
    var df := Delegate.CreateFromFunction(header, false, ledger, fn);
    functionSet := df.IsSet();
    var dm := Delegate.CreateFromMember(header, false, ledger, Addr(obj), m);
    methodSet := dm.IsSet();
    var dc := Delegate.CreateFromConstMember(header, false, ledger, Addr(obj), m);
    constMethodSet := dc.IsSet();
  }

  /** For every reachable pair the corrected test agrees with `isSet()` on non-void signatures
      and differs from it on `void` ones exactly for the empty delegate. */
  lemma IsSetVersusLinked(returnsVoid: bool, obj: Ptr, caller: Caller)
    requires Reachable(returnsVoid, obj, caller)
    ensures !returnsVoid ==> (caller != NullCaller <==> BoundTarget(obj, caller).Some?)
    ensures returnsVoid ==> caller != NullCaller
    ensures returnsVoid ==> (BoundTarget(obj, caller).None? <==> caller == NullCall)
  {
  }
}
