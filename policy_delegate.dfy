/** `rome::delegate<Ret(Args...), Character>`: a non-owning delegate of two words, an object
    pointer and a caller function pointer, in the style of Ryazanov's "Impossibly Fast C++
    Delegates". The `Character` template argument says whether an empty delegate may exist. */
module PolicyDelegate {
  import opened Effects

  /** `target_optional`, `target_expected`, `target_enforced`, or any other type given as the
      second template argument. */
  datatype Character = TargetOptional | TargetExpected | TargetEnforced | OtherType(name: nat)

  /** The default of the second template argument. */
  const DefaultCharacter: Character := TargetExpected

  /** `delegateHasValidCharacter<Ret, Character>()`: every other combination derives from a base
      whose constructor fails a `static_assert`, so no delegate of that type can be built. */
  predicate HasValidCharacter(returnsVoid: bool, c: Character)
  {
    c == TargetExpected || c == TargetEnforced || (c == TargetOptional && returnsVoid)
  }

  /** The default and `nullptr` constructors and `= nullptr` are enabled unless the character is
      `target_enforced`. */
  predicate AllowsEmpty(c: Character)
  {
    c != TargetEnforced
  }

  /** Which characters are valid: both "expected" and "enforced" for any signature, "optional"
      only for a `void` one, and no foreign type; the default character is valid and allows an
      empty delegate. */
  lemma CharacterTable(returnsVoid: bool, c: Character)
    ensures HasValidCharacter(returnsVoid, c) ==> !c.OtherType?
    ensures c == TargetOptional ==> (HasValidCharacter(returnsVoid, c) <==> returnsVoid)
    ensures HasValidCharacter(returnsVoid, DefaultCharacter) && AllowsEmpty(DefaultCharacter)
    ensures HasValidCharacter(returnsVoid, TargetEnforced) && !AllowsEmpty(TargetEnforced)
  {
  }

  /** `callee_`: a null function pointer, `null_call`, or one of the five trampolines. */
  datatype Caller =
    | NullCallee
    | NullCall
    | FunctionCall(fn: FunctionId)
    | MethodCall(member: MethodId)
    | ConstMethodCall(member: MethodId)
    | FunctorCall(ty: FunctorType)
    | ConstFunctorCall(ty: FunctorType)

  /** `get_null_callee<Ret>()`: `nullptr` for a non-void `Ret`, `null_call` for `void`. */
  function GetNullCallee(returnsVoid: bool): (c: Caller)
    ensures c == NullCall <==> returnsVoid
    ensures c == NullCallee <==> !returnsVoid
  {
    if returnsVoid then NullCall else NullCallee
  }

  /** The pairs the constructors and factories can produce. */
  predicate Reachable(returnsVoid: bool, obj: Ptr, callee: Caller)
  {
    match callee
    case NullCallee => !returnsVoid && obj == NullPtr
    case NullCall => returnsVoid && obj == NullPtr
    case FunctionCall(_) => obj == NullPtr
    case _ => obj.Addr?
  }

  /** What a trampoline calls through `obj_`. */
  function BoundTarget(obj: Ptr, callee: Caller): Option<Target>
  {
    match callee
    case FunctionCall(fn) => Some(FreeFunction(fn))
    case MethodCall(m) => if obj.Addr? then Some(Method(m, obj.addr)) else None
    case ConstMethodCall(m) => if obj.Addr? then Some(ConstMethod(m, obj.addr)) else None
    case FunctorCall(ty) => if obj.Addr? then Some(BorrowedFunctor(ty, obj.addr, false)) else None
    case ConstFunctorCall(ty) => if obj.Addr? then Some(BorrowedFunctor(ty, obj.addr, true)) else None
    case _ => None
  }

  /** `operator()`: `(*callee_)(obj_, args...)`. An empty `void` delegate runs `null_call` and does
      nothing; an empty non-void delegate calls through a null function pointer. */
  function CallOutcome(obj: Ptr, callee: Caller, args: seq<Value>): (r: Outcome)
    ensures callee == NullCall ==> r == NoOp
    ensures callee == NullCallee ==> r == Undefined
    ensures BoundTarget(obj, callee).Some? <==> r.Invoked?
    ensures r.Invoked? ==> r == Invoked(BoundTarget(obj, callee).value, args)
  {
    match BoundTarget(obj, callee)
    case Some(t) => Invoked(t, args)
    case None => if callee == NullCall then NoOp else Undefined
  }

  class Delegate {
    var obj: Ptr
    var callee: Caller
    const returnsVoid: bool
    const character: Character
    const ledger: Ledger

    ghost predicate Valid()
      reads this
    {
      HasValidCharacter(returnsVoid, character) && Reachable(returnsVoid, obj, callee)
    }

    /** The default constructor: the member initialisers `nullptr` and `null_callee`. */
    constructor Default(returnsVoid: bool, character: Character, ledger: Ledger)
      requires HasValidCharacter(returnsVoid, character) && AllowsEmpty(character)
      ensures Valid() && obj == NullPtr && callee == GetNullCallee(returnsVoid)
      ensures this.returnsVoid == returnsVoid && this.character == character && this.ledger == ledger
    {
      obj, callee := NullPtr, GetNullCallee(returnsVoid);
      this.returnsVoid, this.character, this.ledger := returnsVoid, character, ledger;
    }

    /** `delegate(nullptr)`: delegates to the default constructor. */
    constructor FromNull(returnsVoid: bool, character: Character, ledger: Ledger)
      requires HasValidCharacter(returnsVoid, character) && AllowsEmpty(character)
      ensures Valid() && obj == NullPtr && callee == GetNullCallee(returnsVoid)
      ensures this.returnsVoid == returnsVoid && this.character == character && this.ledger == ledger
    {
      obj, callee := NullPtr, GetNullCallee(returnsVoid);
      this.returnsVoid, this.character, this.ledger := returnsVoid, character, ledger;
    }

    /** The defaulted move constructor: both words are copied; the source is unchanged, which is
        harmless because the delegate owns nothing. */
    constructor MoveFrom(orig: Delegate)
      requires orig.Valid()
      ensures Valid() && obj == orig.obj && callee == orig.callee
      ensures returnsVoid == orig.returnsVoid && character == orig.character && ledger == orig.ledger
    {
      obj, callee := orig.obj, orig.callee;
      returnsVoid, character, ledger := orig.returnsVoid, orig.character, orig.ledger;
    }

    /** The defaulted move assignment: both words are copied. */
    method MoveAssign(orig: Delegate)
      requires Valid() && orig.Valid() && returnsVoid == orig.returnsVoid && character == orig.character
      modifies this
      ensures Valid() && obj == old(orig.obj) && callee == old(orig.callee)
    {
      obj, callee := orig.obj, orig.callee;
    }

    /** `= nullptr`: `*this = delegate{}`. */
    method AssignNull()
      requires Valid() && AllowsEmpty(character)
      modifies this
      ensures Valid() && obj == NullPtr && callee == GetNullCallee(returnsVoid)
    {
      var empty := new Delegate.Default(returnsVoid, character, ledger);
      MoveAssign(empty);
    }

    /** `operator!`, as written: a stub that answers false, also for an empty delegate. */
    function Not(): (b: bool)
      reads this
      ensures !b
    {
      false
    }

    /** `operator bool`, as written: `!!(*this)`, so true for every delegate. */
    function AsBool(): (b: bool)
      reads this
      ensures b == !Not()
      ensures b
    {
      !Not()
    }

    /** `operator==` between delegates, as written: false, even for a delegate and itself. */
    function Equals(rhs: Delegate): (eq: bool)
      reads this, rhs
      ensures !eq
    {
      false
    }

    /** `operator!=`: the negation of `operator==`, so true, even for a delegate and itself. */
    function NotEquals(rhs: Delegate): (ne: bool)
      reads this, rhs
      ensures ne == !Equals(rhs)
      ensures ne
    {
      !Equals(rhs)
    }

    /** Corrected `operator!`: the delegate holds the null callee of its signature. In a
        reachable state this is exactly the case in which a call reaches no target. */
    function IsUnbound(): (b: bool)
      reads this
      ensures Reachable(returnsVoid, obj, callee) ==> (b <==> !CallOutcome(obj, callee, []).Invoked?)
      ensures Reachable(returnsVoid, obj, callee) ==> (b <==> obj == NullPtr && callee == GetNullCallee(returnsVoid))
    {
      callee == GetNullCallee(returnsVoid)
    }

    /** Corrected `operator==`: both words are equal; equal delegates call the same target. */
    function SameTarget(rhs: Delegate): (eq: bool)
      reads this, rhs
      ensures eq <==> obj == rhs.obj && callee == rhs.callee
      ensures eq ==> forall args :: CallOutcome(obj, callee, args) == CallOutcome(rhs.obj, rhs.callee, args)
    {
      obj == rhs.obj && callee == rhs.callee
    }

    method Invoke(args: seq<Value>) returns (r: Outcome)
      requires Valid()
      modifies ledger
      ensures r == CallOutcome(obj, callee, args)
      ensures ledger.events == old(ledger.events) + (if r.Invoked? then [Called(r.target, args)] else [])
    {
      r := CallOutcome(obj, callee, args);
      if r.Invoked? {
        ledger.events := ledger.events + [Called(r.target, args)];
      }
    }

    /** `create<pFunction>()`. Every factory starts from `delegate d;`, so it needs the default
        constructor and does not compile for `target_enforced`. */
    static method CreateFunction(returnsVoid: bool, character: Character, ledger: Ledger, fn: FunctionId)
      returns (d: Delegate)
      requires HasValidCharacter(returnsVoid, character) && AllowsEmpty(character)
      ensures fresh(d) && d.Valid() && d.returnsVoid == returnsVoid && d.character == character && d.ledger == ledger
      ensures d.obj == NullPtr && d.callee == FunctionCall(fn)
      ensures BoundTarget(d.obj, d.callee) == Some(FreeFunction(fn))
    {
      d := new Delegate.Default(returnsVoid, character, ledger);
      d.obj := NullPtr;
      d.callee := FunctionCall(fn);
    }

    /** `create<C, pMethod>(obj)`. */
    static method CreateMethod(returnsVoid: bool, character: Character, ledger: Ledger, obj: ObjectRef, m: MethodId)
      returns (d: Delegate)
      requires HasValidCharacter(returnsVoid, character) && AllowsEmpty(character)
      ensures fresh(d) && d.Valid() && d.returnsVoid == returnsVoid && d.character == character && d.ledger == ledger
      ensures d.obj == Addr(obj) && d.callee == MethodCall(m)
      ensures BoundTarget(d.obj, d.callee) == Some(Method(m, obj))
    {
      d := new Delegate.Default(returnsVoid, character, ledger);
      d.obj := Addr(obj);
      d.callee := MethodCall(m);
    }

    /** `create<C, pMethod>(const obj)`. */
    static method CreateConstMethod(returnsVoid: bool, character: Character, ledger: Ledger, obj: ObjectRef, m: MethodId)
      returns (d: Delegate)
      requires HasValidCharacter(returnsVoid, character) && AllowsEmpty(character)
      ensures fresh(d) && d.Valid() && d.returnsVoid == returnsVoid && d.character == character && d.ledger == ledger
      ensures d.obj == Addr(obj) && d.callee == ConstMethodCall(m)
      ensures BoundTarget(d.obj, d.callee) == Some(ConstMethod(m, obj))
    {
      d := new Delegate.Default(returnsVoid, character, ledger);
      d.obj := Addr(obj);
      d.callee := ConstMethodCall(m);
    }

    /** `create(functor)`: the delegate refers to the caller's functor, it does not copy it. */
    static method CreateFunctor(returnsVoid: bool, character: Character, ledger: Ledger, ty: FunctorType, obj: ObjectRef)
      returns (d: Delegate)
      requires HasValidCharacter(returnsVoid, character) && AllowsEmpty(character)
      ensures fresh(d) && d.Valid() && d.returnsVoid == returnsVoid && d.character == character && d.ledger == ledger
      ensures d.obj == Addr(obj) && d.callee == FunctorCall(ty)
      ensures BoundTarget(d.obj, d.callee) == Some(BorrowedFunctor(ty, obj, false))
    {
      d := new Delegate.Default(returnsVoid, character, ledger);
      d.obj := Addr(obj);
      d.callee := FunctorCall(ty);
    }

    /** `create(const functor)`. */
    static method CreateConstFunctor(returnsVoid: bool, character: Character, ledger: Ledger, ty: FunctorType, obj: ObjectRef)
      returns (d: Delegate)
      requires HasValidCharacter(returnsVoid, character) && AllowsEmpty(character)
      ensures fresh(d) && d.Valid() && d.returnsVoid == returnsVoid && d.character == character && d.ledger == ledger
      ensures d.obj == Addr(obj) && d.callee == ConstFunctorCall(ty)
      ensures BoundTarget(d.obj, d.callee) == Some(BorrowedFunctor(ty, obj, true))
    {
      d := new Delegate.Default(returnsVoid, character, ledger);
      d.obj := Addr(obj);
      d.callee := ConstFunctorCall(ty);
    }
  }

  /** `d == nullptr` and `nullptr == d`: `!d`. As written this is false for every delegate. */
  function EqualsNull(d: Delegate): (r: bool)
    reads d
    ensures r == d.Not() && !r
  {
    d.Not()
  }

  /** `d != nullptr` and `nullptr != d`: `bool(d)`. As written this is true for every delegate. */
  function NotEqualsNull(d: Delegate): (r: bool)
    reads d
    ensures r == d.AsBool() && r
    ensures r == !EqualsNull(d)
  {
    d.AsBool()
  }

  /** A default-constructed delegate as written: it converts to true, compares unequal to
      `nullptr` and unequal to itself, although calling it reaches no target; the corrected
      `IsUnbound` reports it empty and `SameTarget` equal to itself. */
  method EmptyDelegateObserved(returnsVoid: bool)
    returns (asBool: bool, equalsNull: bool, equalsItself: bool, call: Outcome, unbound: bool, sameAsItself: bool)
    ensures asBool && !equalsNull && !equalsItself
    ensures !call.Invoked? && (returnsVoid ==> call == NoOp) && (!returnsVoid ==> call == Undefined)
    ensures unbound && sameAsItself
  {
    var ledger := new Ledger();
    var d := new Delegate.Default(returnsVoid, DefaultCharacter, ledger);
    asBool := d.AsBool();
    equalsNull := EqualsNull(d);
    equalsItself := d.Equals(d);
    call := d.Invoke([]);
    unbound := d.IsUnbound();
    sameAsItself := d.SameTarget(d);
  }

  /** In every reachable state the corrected test is the intended one: a delegate is unbound
      exactly when a call reaches no target, and then it is in its default state. */
  lemma UnboundMeansNoTarget(returnsVoid: bool, obj: Ptr, callee: Caller, args: seq<Value>)
    requires Reachable(returnsVoid, obj, callee)
    ensures callee == GetNullCallee(returnsVoid) <==> BoundTarget(obj, callee).None?
    ensures callee == GetNullCallee(returnsVoid) ==> obj == NullPtr
    ensures callee == GetNullCallee(returnsVoid) <==> !CallOutcome(obj, callee, args).Invoked?
  {
    match callee
    case NullCallee =>
    case NullCall =>
    case FunctionCall(_) =>
    case _ => assert obj.Addr?;
  }
}
