/** `me::delegates::detail`: the compile-time check that an event delegate's parameters cannot
    be used to change the caller's data. A C++ type is modelled by its shape, as far as the
    type traits used here can see it. */
module ArgumentCheck {

  /** The categories `is_value<T>()` accepts. */
  datatype ValueKind = NullPointerT | Integral | FloatingPoint | Enumeration | Union | Class

  /** A parameter type: a value type (with its top-level `const`), `void`, a pointer with its own
      `const`, a pointer to member, an array, a function type, or a reference. */
  datatype Ty =
    | Value(kind: ValueKind, isConst: bool)
    | Void(isConst: bool)
    | Pointer(pointee: Ty, isConst: bool)
    | MemberPointer(isConst: bool)
    | Array(element: Ty)
    | Function
    | LRef(referee: Ty)
    | RRef(referee: Ty)

  /** `is_value<T>()`: null pointer, integral, floating point, enum, union or class type, whatever
      its cv-qualification. */
  predicate IsValue(t: Ty)
  {
    t.Value?
  }

  /** `is_referenced_type_a_const_value<T>()`, as written: a value must be `const`; a pointer is
      looked through (whatever its own `const`); anything else is refused. */
  predicate IsReferencedTypeAConstValue(t: Ty)
  {
    if IsValue(t) then t.isConst
    else if t.Pointer? then IsReferencedTypeAConstValue(t.pointee)
    else false
  }

  /** `is_copied_moved_or_const_referenced_value<T>()`, as written: a value is copied, an rvalue
      reference is looked through, an lvalue reference and anything else go to the referenced
      check. */
  predicate IsCopiedMovedOrConstReferencedValue(t: Ty)
  {
    if IsValue(t) then true
    else if t.RRef? then IsCopiedMovedOrConstReferencedValue(t.referee)
    else if t.LRef? then IsReferencedTypeAConstValue(t.referee)
    else IsReferencedTypeAConstValue(t)
  }

  /** The type at the end of a chain of pointers. */
  function FinalPointee(t: Ty): (r: Ty)
    ensures !r.Pointer?
  {
    if t.Pointer? then FinalPointee(t.pointee) else t
  }

  /** The `const` of each pointer in the chain, outermost first. */
  function PointerLevels(t: Ty): (levels: seq<bool>)
  {
    if t.Pointer? then [t.isConst] + PointerLevels(t.pointee) else []
  }

  /** The as-written referenced check looks only at the end of the chain: it holds exactly when
      the final pointee is a `const` value; the `const` of the pointers in between is ignored. */
  lemma {:induction false} ReferencedCheckSeesOnlyFinalPointee(t: Ty)
    ensures IsReferencedTypeAConstValue(t) <==> FinalPointee(t).Value? && FinalPointee(t).isConst
  {
    if t.Pointer? {
      ReferencedCheckSeesOnlyFinalPointee(t.pointee);
    }
  }

  /** Corrected referenced check: what is reached through the pointer or reference cannot be
      changed through it, so every pointer in the chain is `const` as well as the final value. */
  predicate ConstAllTheWay(t: Ty)
  {
    if IsValue(t) then t.isConst
    else if t.Pointer? then t.isConst && ConstAllTheWay(t.pointee)
    else false
  }

  /** Corrected classification: as written, except that a top-level pointer (which is copied, so
      its own `const` does not matter) and an lvalue reference need everything they reach to be
      `const`. */
  predicate IsImmutableArgument(t: Ty)
  {
    if IsValue(t) then true
    else if t.RRef? then IsImmutableArgument(t.referee)
    else if t.LRef? then ConstAllTheWay(t.referee)
    else if t.Pointer? then ConstAllTheWay(t.pointee)
    else false
  }

  /** The corrected referenced check holds exactly when the final pointee is a `const` value and
      every pointer in the chain is `const`. */
  lemma {:induction false} ConstAllTheWayMeansEveryLevel(t: Ty)
    ensures ConstAllTheWay(t) <==>
              (FinalPointee(t).Value? && FinalPointee(t).isConst
               && forall i :: 0 <= i < |PointerLevels(t)| ==> PointerLevels(t)[i])
  {
    if t.Pointer? {
      ConstAllTheWayMeansEveryLevel(t.pointee);
      var levels := PointerLevels(t);
      assert levels == [t.isConst] + PointerLevels(t.pointee);
      if forall i :: 0 <= i < |levels| ==> levels[i] {
        assert levels[0] == t.isConst;
        forall i | 0 <= i < |PointerLevels(t.pointee)| ensures PointerLevels(t.pointee)[i] {
          assert levels[i + 1] == PointerLevels(t.pointee)[i];
        }
      }
    }
  }

  /** The corrected check is the stricter one: whatever it accepts, the as-written one accepts. */
  lemma {:induction false} CorrectedIsStricter(t: Ty)
    ensures ConstAllTheWay(t) ==> IsReferencedTypeAConstValue(t)
    ensures IsImmutableArgument(t) ==> IsCopiedMovedOrConstReferencedValue(t)
  {
    match t
    case Pointer(p, _) => CorrectedIsStricter(p);
    case RRef(r) => CorrectedIsStricter(r);
    case LRef(r) => CorrectedIsStricter(r);
    case _ =>
  }

  const ConstInt := Value(Integral, true)
  const MutableInt := Value(Integral, false)

  /** `const int** const*`: a pointer to a const pointer to a mutable pointer to `const int`. */
  const ConstIntPtrPtrConstPtr := Pointer(Pointer(Pointer(ConstInt, false), true), false)

  /** `const int*&`: a mutable reference to a pointer to `const int`. */
  const RefToConstIntPtr := LRef(Pointer(ConstInt, false))

  /** Through these the callee can change the caller's data (redirect the middle pointer, or
      reseat the caller's pointer), yet the as-written check accepts them. */
  lemma MutableChainsAccepted()
    ensures IsCopiedMovedOrConstReferencedValue(ConstIntPtrPtrConstPtr)
    ensures !IsImmutableArgument(ConstIntPtrPtrConstPtr)
    ensures IsCopiedMovedOrConstReferencedValue(RefToConstIntPtr)
    ensures !IsImmutableArgument(RefToConstIntPtr)
  {
  }

  /** The verdict of `check_event_delegate_arguments<Args...>`. */
  datatype Verdict = Ok | InvalidEventDelegateArgument(args: seq<Ty>)

  /** The flags the check packs into `integer_sequence<bool, ...>`. */
  function Flags(args: seq<Ty>, corrected: bool): (s: seq<bool>)
    ensures |s| == |args|
    ensures forall i :: 0 <= i < |args| ==>
              s[i] == if corrected then IsImmutableArgument(args[i]) else IsCopiedMovedOrConstReferencedValue(args[i])
  {
    seq(|args|, i requires 0 <= i < |args| =>
      if corrected then IsImmutableArgument(args[i]) else IsCopiedMovedOrConstReferencedValue(args[i]))
  }

  /** Comparing `<true, f...>` with `<f..., true>` is an "all of": the two sequences are equal
      exactly when every flag is true. */
  lemma {:induction false} ShiftTrick(s: seq<bool>)
    ensures [true] + s == s + [true] <==> forall i :: 0 <= i < |s| ==> s[i]
  {
    if [true] + s == s + [true] {
      forall i | 0 <= i < |s| ensures s[i] {
        ShiftedEqualAllTrue(s, i);
      }
    }
    if forall i :: 0 <= i < |s| ==> s[i] {
      forall k | 0 <= k < |s| + 1 ensures ([true] + s)[k] == (s + [true])[k] {
        if 0 < k { assert ([true] + s)[k] == s[k - 1]; }
        if k < |s| { assert (s + [true])[k] == s[k]; }
      }
      assert [true] + s == s + [true];
    }
  }

  lemma {:induction false} ShiftedEqualAllTrue(s: seq<bool>, i: nat)
    requires [true] + s == s + [true] && i < |s|
    ensures s[i]
    decreases i
  {
    assert (s + [true])[i] == ([true] + s)[i];
    if i > 0 {
      ShiftedEqualAllTrue(s, i - 1);
    }
  }

  /** `check_event_delegate_arguments<Args...>`, as written: `ok` exactly when every parameter
      passes the as-written classification; otherwise the error carries the parameter list. */
  function CheckEventDelegateArguments(args: seq<Ty>): (r: Verdict)
    ensures r == Ok <==> forall i :: 0 <= i < |args| ==> IsCopiedMovedOrConstReferencedValue(args[i])
    ensures r != Ok ==> r == InvalidEventDelegateArgument(args)
  {
    var flags := Flags(args, false);
    ShiftTrick(flags);
    if [true] + flags == flags + [true] then Ok else InvalidEventDelegateArgument(args)
  }

  /** The same check built on the corrected classification. */
  function CheckImmutableArguments(args: seq<Ty>): (r: Verdict)
    ensures r == Ok <==> forall i :: 0 <= i < |args| ==> IsImmutableArgument(args[i])
    ensures r != Ok ==> r == InvalidEventDelegateArgument(args)
  {
    var flags := Flags(args, true);
    ShiftTrick(flags);
    if [true] + flags == flags + [true] then Ok else InvalidEventDelegateArgument(args)
  }

  /** The corrected check accepts a subset of the parameter lists the as-written one accepts,
      and the counterexample list is where they part. */
  lemma CorrectedCheckIsStricter(args: seq<Ty>)
    ensures CheckImmutableArguments(args) == Ok ==> CheckEventDelegateArguments(args) == Ok
    ensures CheckEventDelegateArguments([MutableInt, ConstIntPtrPtrConstPtr]) == Ok
    ensures CheckImmutableArguments([MutableInt, ConstIntPtrPtrConstPtr]) != Ok
  {
    forall i | 0 <= i < |args| ensures IsImmutableArgument(args[i]) ==> IsCopiedMovedOrConstReferencedValue(args[i]) {
      CorrectedIsStricter(args[i]);
    }
    MutableChainsAccepted();
    var bad := [MutableInt, ConstIntPtrPtrConstPtr];
    assert !IsImmutableArgument(bad[1]);
  }

  /** Parameter types from the repository's tests (`C` is a class, `int` an integral type), on
      which both classifications agree: copies, moves and `const` references are accepted;
      mutable references and pointers, member pointers, arrays and functions are refused. */
  lemma TestOracle()
    ensures var c, cc := Value(Class, false), Value(Class, true);
            && IsCopiedMovedOrConstReferencedValue(c) && IsImmutableArgument(c)
            && IsCopiedMovedOrConstReferencedValue(LRef(cc)) && IsImmutableArgument(LRef(cc))
            && IsCopiedMovedOrConstReferencedValue(RRef(c)) && IsImmutableArgument(RRef(c))
            && IsCopiedMovedOrConstReferencedValue(Pointer(cc, false)) && IsImmutableArgument(Pointer(cc, false))
            && !IsCopiedMovedOrConstReferencedValue(LRef(c)) && !IsImmutableArgument(LRef(c))
            && !IsCopiedMovedOrConstReferencedValue(Pointer(c, false)) && !IsImmutableArgument(Pointer(c, false))
            && !IsCopiedMovedOrConstReferencedValue(MemberPointer(false)) && !IsImmutableArgument(MemberPointer(false))
            && !IsCopiedMovedOrConstReferencedValue(Array(MutableInt)) && !IsImmutableArgument(Array(MutableInt))
            && !IsCopiedMovedOrConstReferencedValue(LRef(Array(MutableInt)))
            && !IsCopiedMovedOrConstReferencedValue(Pointer(Array(MutableInt), false))
            && !IsCopiedMovedOrConstReferencedValue(LRef(Function)) && !IsImmutableArgument(LRef(Function))
            && !IsCopiedMovedOrConstReferencedValue(Pointer(Function, false))
    ensures IsCopiedMovedOrConstReferencedValue(Pointer(Pointer(Pointer(ConstInt, true), true), false))
            && IsImmutableArgument(Pointer(Pointer(Pointer(ConstInt, true), true), false))
    ensures !IsCopiedMovedOrConstReferencedValue(Pointer(Pointer(Pointer(MutableInt, true), true), false))
    ensures IsCopiedMovedOrConstReferencedValue(Pointer(Pointer(Pointer(ConstInt, false), false), false))
            && !IsImmutableArgument(Pointer(Pointer(Pointer(ConstInt, false), false), false))
  {
  }
}
