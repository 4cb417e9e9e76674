# Delegates of the rome/me library, modelled in Dafny

The library provides C++ delegates: small objects that hold a callable target (a free function,
a member function bound to an object, or a functor), can be invoked like a function, and can be
empty. This project models the core of those headers. It covers how each delegate is laid out,
what every constructor, assignment, factory, comparison and call does, and what happens to a
functor the delegate owns. It also covers the compile-time check that the parameters of an
event delegate cannot change the caller's data.

Three families of delegates are modelled.

- **The owning cell** (`include/rome/detail/delegate_base.hpp`, with its twins
  `base_delegate.hpp` and `delegate_impl.hpp`). It is three words: a buffer, a callee and a
  deleter.
  - A functor that fits into one pointer-sized word is placed in the buffer. Any other functor
    goes on the heap.
  - The move operations swap the three words, so the moved-from cell is left empty.
  - The destructor runs the deleter.
  - Module `CellSpec` gives the three words as a value and says what every factory writes.
  - Module `OwningCell` is the class that changes them in place, with `modifies` frames.
  - Module `Ownership` proves, over every sequence of operations on any number of cells, that
    each functor is destroyed at most once, and exactly once when every cell is gone.
- **`rome::detail::delegate_target`** (`include/rome/detail/delegate_target.hpp`, module
  `DelegateTargetCell`). It has the same three words, but its move operations are defaulted.
  They copy the words, which destroys functors twice and leaks them (see Findings).
- **The non-owning delegates of two words**, an object pointer and a caller pointer:
  - `rome::delegate` with its `Character` policy (`include/rome/delegate.hpp`, module
    `PolicyDelegate`);
  - the copyable `rome::delegates::delegate` and `me::delegates::delegate`, with their `void`
    specialisations (module `CopyableDelegate`). The two headers are the same code under
    camelCase and snake_case names, so one class with a `Header` constant models both.

Module `ArgumentCheck` models `include/me/delegates/detail/event_delegate_argument_check.hpp`.
It describes a C++ parameter type by its shape (value, pointer with its own `const`,
reference, array, function, member pointer).

Modelling conventions:

- Functions, methods and objects are opaque identities (`FunctionId`, `MethodId`,
  `ObjectRef`, `FunctorId`). A functor type carries its `sizeof` and `alignof`.
- `sizeof`/`alignof` of `void*` and of a function pointer are a `Platform` parameter.
- Whether exceptions are enabled is a `bool` parameter of each call.
- A shared `Ledger` object records what the test mocks count: calls, heap allocations,
  destructor runs and deletions. "Destroyed exactly once" is a statement about this log.
- A call that C++ leaves undefined (through a null function pointer, or a callee run on a
  buffer it was not made for) has the outcome `Undefined`.
- Trampolines and deleters are named by what they do, not by their addresses. So two
  delegates compare equal exactly when the C++ words would.

## Model

| member | source | states |
|---|---|---|
| SmallBuffer.BufferAlignment | include/rome/detail/delegate_base.hpp:27-29 | the buffer alignment is the larger of `sizeof(void*)` and `alignof(void*)`: at least both, and equal to one of them |
| SmallBuffer.FitsIsDownwardClosed | include/rome/detail/delegate_base.hpp:32-35 | a type that fits the buffer still fits when smaller or less aligned, and a data pointer always fits |
| Effects.EmptyCallOutcome | include/rome/detail/delegate_base.hpp:47-56 | an empty call throws `bad_delegate_call` exactly when exceptions are enabled, and otherwise terminates |
| Effects.DestroyedIds | test/delegate/test_delegate/test_delegate_base.cpp:23-198 | the destructor count drawn from a log never exceeds the log's length |
| Effects.DestroyedIdsAppend | test/delegate/test_delegate/test_delegate_base.cpp:23-198 | the destructor counts of two consecutive stretches of a run add up |
| CellSpec.Empty | include/rome/detail/delegate_base.hpp:69-71 | a default cell holds a null buffer, the empty invoker of its policy and `no_delete` |
| CellSpec.IsSet | include/rome/detail/delegate_base.hpp:104-106 | in every reachable state a cell converts to true exactly when it differs from the default cell |
| CellSpec.InvokeOutcome | include/rome/detail/delegate_base.hpp:109-111 | a call reaches a target exactly when the cell is set: it calls that target with the arguments; an empty `no_call_invoker` cell does nothing; an empty `exception_call_invoker` cell throws or terminates |
| CellSpec.CallEvents | include/rome/detail/delegate_base.hpp:109-111 | one call logs exactly one call of the cell's target, or nothing when there is none, and destroys nothing |
| CellSpec.Owned | include/rome/detail/delegate_base.hpp:80-82 | what a cell owns is exactly what its deleter destroys, at most one functor; a null or borrowed buffer owns nothing |
| CellSpec.MakeFunction | include/rome/detail/delegate_base.hpp:115-124 | `create<function>()` uses no storage and `no_delete`, is set under either policy, calls that function and owns nothing |
| CellSpec.MakeMethod | include/rome/detail/delegate_base.hpp:128-137 | `create<C, method>(obj)` stores `&obj` with `no_delete`, is set, calls that method on `obj` and never destroys `obj` |
| CellSpec.MakeFunctor | include/rome/detail/delegate_base.hpp:141-177 | a functor goes into the buffer exactly when it fits and onto the heap exactly when it does not; the deleter matches the placement, the cell is set, calls that functor and owns exactly it |
| CellSpec.CreationEvents | include/rome/detail/delegate_base.hpp:165-177 | `create(invokable)` allocates on the heap exactly when the functor does not fit, and then allocates only that functor |
| CellSpec.MakeFunctionPointer | include/rome/detail/base_delegate.hpp:117-137 | the function-pointer overload, which exists only where a function pointer fits, stores the pointer in the buffer, is set, calls that function and owns nothing |
| CellSpec.ConsistentStateFacts | include/rome/detail/delegate_base.hpp:99-111 | in a reachable state a set cell is one whose call reaches a target; an unset or borrowing cell owns nothing and its deleter does nothing |
| OwningCell.OwningDelegate.Default | include/rome/detail/delegate_base.hpp:74 | the default constructor yields the empty cell of its policy |
| OwningCell.OwningDelegate.MoveFrom | include/rome/detail/delegate_base.hpp:76-78 | the new cell takes over the source's three words and the source is left empty |
| OwningCell.OwningDelegate.Swap | include/rome/detail/delegate_base.hpp:92-97 | the three words of the two cells are exchanged, including a swap with itself |
| OwningCell.OwningDelegate.Destroy | include/rome/detail/delegate_base.hpp:80-82 | the destructor logs exactly the deleter's effect on the current buffer |
| OwningCell.OwningDelegate.MoveAssign | include/rome/detail/delegate_base.hpp:85-87 | the target takes the source's words and the source is left empty; the old target is destroyed once; self-assignment changes and destroys nothing |
| OwningCell.OwningDelegate.AssignNull | include/rome/detail/delegate_base.hpp:88-90 | `= nullptr` destroys the current target once and leaves the cell empty |
| OwningCell.OwningDelegate.Equals | include/rome/detail/delegate_base.hpp:99-102 | two cells are equal exactly when their three words are equal, and equal cells call the same target |
| OwningCell.OwningDelegate.AsBool | include/rome/detail/delegate_base.hpp:104-106 | a reachable cell converts to true exactly when it is not the empty cell, which is exactly when a call reaches a target |
| OwningCell.OwningDelegate.Invoke | include/rome/detail/delegate_base.hpp:109-111 | the outcome is that of the cell's state, and the log gains exactly the call made |
| OwningCell.OwningDelegate.CreateFunction | include/rome/detail/delegate_base.hpp:115-124 | a fresh cell in the state of `create<function>()` |
| OwningCell.OwningDelegate.CreateMethod | include/rome/detail/delegate_base.hpp:128-137 | a fresh cell that borrows the object and calls the method |
| OwningCell.OwningDelegate.CreateFunctor | include/rome/detail/delegate_base.hpp:141-177 | a fresh cell owning the functor, placed as its fit decides; the log gains the heap allocation exactly when it does not fit |
| OwningCell.OwningDelegate.CreateFunctionPointer | include/rome/detail/delegate_impl.hpp:114-134 | a fresh cell holding the function pointer in its buffer, only where a function pointer fits |
| OwningCell.SwapDelegates | include/rome/detail/delegate_base.hpp:180-183 | the free `swap` exchanges the two cells' states |
| OwningCell.LifecycleDestroysOnce | test/delegate/test_delegate/test_delegate_base.cpp:62-198 | over create, call, move, call the moved-to cell, call the moved-from cell, destroy both: the functor is destroyed exactly once; it is allocated and freed on the heap exactly when it does not fit |
| OwningCell.FunctorLifecycle | test/delegate/test_delegate/test_delegate_base.cpp:62-198 | running that scenario on the class: the moved-from cell is unset and calling it does nothing; the log is the one the lemma describes, and the functor is destroyed exactly once |
| Ownership.TotalAllVacant | include/rome/detail/delegate_base.hpp:80-82 | once no slot holds a live delegate, nothing is left to destroy |
| Ownership.InitialInv | include/rome/detail/delegate_base.hpp:74 | the accounting invariant holds before anything happens |
| Ownership.ConstructKeepsInv | include/rome/detail/delegate_base.hpp:115-137 | constructing a cell that owns nothing keeps the invariant and destroys nothing |
| Ownership.CreateFunctorKeepsInv | include/rome/detail/delegate_base.hpp:141-177 | creating a functor-owning cell keeps every created functor accounted for once and destroys nothing |
| Ownership.MoveConstructKeepsInv | include/rome/detail/delegate_base.hpp:76-78 | a move construction hands the source's functor over without destroying anything |
| Ownership.MoveAssignKeepsInv | include/rome/detail/delegate_base.hpp:85-87 | a move assignment keeps the invariant and only adds to the destroyed functors |
| Ownership.AssignNullKeepsInv | include/rome/detail/delegate_base.hpp:88-90 | `= nullptr` keeps the invariant and only adds to the destroyed functors |
| Ownership.SwapKeepsInv | include/rome/detail/delegate_base.hpp:92-97 | a swap keeps the invariant and destroys nothing |
| Ownership.DestroyKeepsInv | include/rome/detail/delegate_base.hpp:80-82 | a destructor keeps the invariant and only adds to the destroyed functors |
| Ownership.StepKeepsInv | include/rome/detail/delegate_base.hpp:74-183 | every public operation keeps the invariant |
| Ownership.RunKeepsInv | include/rome/detail/delegate_base.hpp:74-183 | every sequence of operations keeps the invariant, and nothing comes back from the destroyed |
| Ownership.ExactlyOnce | include/rome/detail/delegate_base.hpp:74-183 | over every run, no functor is destroyed twice and only created functors are destroyed; once every cell is gone, every created functor has been destroyed exactly once |
| DelegateTargetCell.TripleEvents | include/rome/detail/delegate_target.hpp:49-51 | the destructor does nothing with `no_delete`, destroys an in-buffer functor once, and destroys and frees a heap functor once |
| DelegateTargetCell.Create | include/rome/detail/delegate_target.hpp:68-96 | `create(t)` places the functor in the buffer exactly when it fits and on the heap otherwise, with a matching callee and deleter; destroying the result destroys that functor once |
| DelegateTargetCell.CallOutcome | include/rome/detail/delegate_target.hpp:64-66 | `no_call` does nothing; `exception_call` throws or terminates; a `create` callee calls the functor in its buffer |
| DelegateTargetCell.DelegateTarget.constructor | include/rome/detail/delegate_target.hpp:46-48 | the triple constructor stores any three words as given |
| DelegateTargetCell.DelegateTarget.MoveFrom | include/rome/detail/delegate_target.hpp:45 | the defaulted move constructor copies the words and leaves the source's target where it was |
| DelegateTargetCell.DelegateTarget.MoveFromResetting | include/rome/detail/delegate_target.hpp:45 | corrected move constructor: takes the words and leaves the source released |
| DelegateTargetCell.DelegateTarget.Destroy | include/rome/detail/delegate_target.hpp:49-51 | the destructor logs the deleter's effect on the current buffer |
| DelegateTargetCell.DelegateTarget.MoveAssign | include/rome/detail/delegate_target.hpp:53 | the defaulted move assignment overwrites the words and does not destroy the old target |
| DelegateTargetCell.DelegateTarget.MoveAssignReleasing | include/rome/detail/delegate_target.hpp:53 | corrected move assignment: destroys the old target once, takes the source's words and releases the source; self-assignment does nothing |
| DelegateTargetCell.DelegateTarget.Equals | include/rome/detail/delegate_target.hpp:55-58 | equal exactly when the three words are equal; equal targets have the same call outcome |
| DelegateTargetCell.DelegateTarget.AsBool | include/rome/detail/delegate_target.hpp:60-62 | the conversion to bool is false for every target |
| DelegateTargetCell.DelegateTarget.Invoke | include/rome/detail/delegate_target.hpp:64-66 | the outcome is that of the triple, and the log gains exactly the call made |
| DelegateTargetCell.DelegateTarget.CreateTarget | include/rome/detail/delegate_target.hpp:68-96 | a fresh target in the state of `create(t)`; the log gains the heap allocation exactly when the functor does not fit |
| DelegateTargetCell.DefaultedMoveDestroysTwice | include/rome/detail/delegate_target.hpp:45 | move-constructing and then destroying both objects destroys the functor twice |
| DelegateTargetCell.ResettingMoveDestroysOnce | include/rome/detail/delegate_target.hpp:45 | with the corrected move the functor is destroyed exactly once |
| DelegateTargetCell.DefaultedMoveAssignLeaks | include/rome/detail/delegate_target.hpp:53 | move-assigning and then destroying both objects destroys the source's functor twice and the overwritten one never |
| DelegateTargetCell.ReleasingMoveAssignDestroysEach | include/rome/detail/delegate_target.hpp:53 | with the corrected assignment each of the two functors is destroyed exactly once |
| PolicyDelegate.CharacterTable | include/rome/delegate.hpp:39-45 | "expected" and "enforced" are valid for every signature, "optional" exactly for `void`, no other type; the default "expected" is valid and allows empty delegates, "enforced" does not |
| PolicyDelegate.GetNullCallee | include/rome/delegate.hpp:184-194 | the null callee is `null_call` exactly for a `void` signature and a null pointer otherwise |
| PolicyDelegate.CallOutcome | include/rome/delegate.hpp:111-113 | `null_call` does nothing, a null callee is undefined, and a trampoline calls its target with the arguments |
| PolicyDelegate.Delegate.Default | include/rome/delegate.hpp:70-73 | only for a valid character other than "enforced": a null object and the null callee |
| PolicyDelegate.Delegate.FromNull | include/rome/delegate.hpp:77-80 | `delegate(nullptr)` is the default delegate |
| PolicyDelegate.Delegate.MoveFrom | include/rome/delegate.hpp:75 | the defaulted move copies both words |
| PolicyDelegate.Delegate.MoveAssign | include/rome/delegate.hpp:83 | the defaulted move assignment copies both words |
| PolicyDelegate.Delegate.AssignNull | include/rome/delegate.hpp:85-90 | `= nullptr` restores the default delegate |
| PolicyDelegate.Delegate.Not | include/rome/delegate.hpp:95-98 | `operator!` is false for every delegate |
| PolicyDelegate.Delegate.AsBool | include/rome/delegate.hpp:92-94 | `operator bool` is `!!*this`, so true for every delegate |
| PolicyDelegate.Delegate.Equals | include/rome/delegate.hpp:102-105 | `operator==` is false for every pair, a delegate and itself included |
| PolicyDelegate.Delegate.NotEquals | include/rome/delegate.hpp:107-109 | `operator!=` negates `operator==`, so it is true for every pair |
| PolicyDelegate.Delegate.IsUnbound | include/rome/delegate.hpp:95-98 | corrected `operator!`: in a reachable state, true exactly when a call reaches no target, which is exactly the default delegate |
| PolicyDelegate.Delegate.SameTarget | include/rome/delegate.hpp:102-105 | corrected `operator==`: both words equal, and equal delegates have the same call outcome for every argument list |
| PolicyDelegate.Delegate.Invoke | include/rome/delegate.hpp:111-113 | the outcome is that of the two words, and the log gains exactly the call made |
| PolicyDelegate.Delegate.CreateFunction | include/rome/delegate.hpp:115-121 | a fresh delegate with a null object that calls the function |
| PolicyDelegate.Delegate.CreateMethod | include/rome/delegate.hpp:123-129 | a fresh delegate bound to the object that calls the method |
| PolicyDelegate.Delegate.CreateConstMethod | include/rome/delegate.hpp:131-137 | a fresh delegate bound to the object that calls the const method |
| PolicyDelegate.Delegate.CreateFunctor | include/rome/delegate.hpp:139-145 | a fresh delegate that refers to the caller's functor without copying it |
| PolicyDelegate.Delegate.CreateConstFunctor | include/rome/delegate.hpp:147-153 | the same for a const functor, called through the const path |
| PolicyDelegate.EqualsNull | include/rome/delegate.hpp:202-210 | `d == nullptr` is `!d`, so false for every delegate |
| PolicyDelegate.NotEqualsNull | include/rome/delegate.hpp:212-220 | `d != nullptr` is `bool(d)`, the negation of `d == nullptr`, so true for every delegate |
| PolicyDelegate.EmptyDelegateObserved | include/rome/delegate.hpp:92-113 | a default delegate, as written, converts to true and compares unequal to `nullptr` and to itself, although calling it reaches no target; the corrected members call it unbound and equal to itself |
| PolicyDelegate.UnboundMeansNoTarget | include/rome/delegate.hpp:181-199 | in a reachable state, holding the null callee is the same as binding no target, and then the object is null |
| CopyableDelegate.DefaultCaller | include/rome/delegates/delegate.hpp:118-119 | the default caller is `null_call` exactly for `void` signatures and a null pointer otherwise |
| CopyableDelegate.CallOutcome | include/rome/delegates/delegate.hpp:65-68 | `null_call` does nothing, a null caller is undefined, a trampoline calls its target with the arguments |
| CopyableDelegate.Delegate.Default | include/rome/delegates/delegate.hpp:38-41 | the default and `nullptr` constructors give a null object and the default caller |
| CopyableDelegate.Delegate.CopyFrom | include/rome/delegates/delegate.hpp:39-40 | the defaulted copy and move constructors copy both words |
| CopyableDelegate.Delegate.Assign | include/rome/delegates/delegate.hpp:43-44 | the defaulted copy and move assignments copy both words |
| CopyableDelegate.Delegate.AssignNull | include/rome/delegates/delegate.hpp:131-136 | `= nullptr` restores a null object and the default caller |
| CopyableDelegate.Delegate.IsSet | include/rome/delegates/delegate.hpp:138-140 | `isSet()` is true exactly when the caller is not null; for a non-void delegate that is exactly when a call reaches a target; a `void` delegate always reports set |
| CopyableDelegate.Delegate.Not | include/me/delegates/delegate.hpp:55-57 | `operator!` negates `isSet()` |
| CopyableDelegate.Delegate.Equals | include/rome/delegates/delegate.hpp:58-60 | the rome non-void `==` compares both words; everywhere else `==` compares the two `bool` conversions |
| CopyableDelegate.Delegate.NotEquals | include/rome/delegates/delegate.hpp:61-63 | `!=` negates `==` |
| CopyableDelegate.Delegate.IsLinked | include/rome/delegates/delegate.hpp:138 | corrected `isSet()`: in a reachable state, true exactly when a call reaches a target, false exactly for the default delegate |
| CopyableDelegate.Delegate.SameTarget | include/rome/delegates/delegate.hpp:58-60 | corrected `==` for every signature: both words equal, and equal delegates have the same call outcome |
| CopyableDelegate.Delegate.Invoke | include/rome/delegates/delegate.hpp:151 | the outcome is that of the two words, and the log gains exactly the call made |
| CopyableDelegate.Delegate.CreateFromMember | include/rome/delegates/delegate.hpp:142-149 | bound to a non-null object, the delegate calls the method on it; a null object gives the default caller |
| CopyableDelegate.Delegate.CreateFromConstMember | include/rome/delegates/delegate.hpp:153-162 | the same for a const method |
| CopyableDelegate.Delegate.CreateFromFunction | include/rome/delegates/delegate.hpp:164-171 | a null object and a caller that calls the function |
| CopyableDelegate.DefaultVoidDelegateObserved | test/test_delegate2.cpp:166-200 | a default `void` delegate, as written, reports set and compares equal to a linked one, although calling it does nothing; with the corrected members it is unlinked, unequal to the linked one and equal to another default one |
| CopyableDelegate.NonVoidSetness | test/test_delegate.cpp:36-127 | a non-void delegate made by default or from a null object is not set; one made from a function, or from a member on a non-null object, is |
| CopyableDelegate.IsSetVersusLinked | include/me/delegates/delegate.hpp:127-129 | in a reachable state, `isSet()` agrees with "a call reaches a target" on non-void signatures; on `void` ones it is always true, and no target is reached exactly for `null_call` |
| ArgumentCheck.FinalPointee | include/me/delegates/detail/event_delegate_argument_check.hpp:27-37 | stripping the pointers leaves a type that is not a pointer |
| ArgumentCheck.ReferencedCheckSeesOnlyFinalPointee | include/me/delegates/detail/event_delegate_argument_check.hpp:27-37 | `is_referenced_type_a_const_value` holds exactly when the type at the end of the pointer chain is a const value, whatever the `const` of the pointers in between |
| ArgumentCheck.ConstAllTheWayMeansEveryLevel | include/me/delegates/detail/event_delegate_argument_check.hpp:27-37 | the corrected check holds exactly when the final pointee is a const value and every pointer of the chain is const |
| ArgumentCheck.CorrectedIsStricter | include/me/delegates/detail/event_delegate_argument_check.hpp:39-53 | whatever the corrected classification accepts, the one as written accepts too |
| ArgumentCheck.MutableChainsAccepted | include/me/delegates/detail/event_delegate_argument_check.hpp:27-53 | as written, `const int** const*` and `const int*&` are accepted, though they let the callee change the caller's data; the corrected check rejects both |
| ArgumentCheck.Flags | include/me/delegates/detail/event_delegate_argument_check.hpp:55-64 | one flag per parameter, each the classification of that parameter |
| ArgumentCheck.ShiftTrick | include/me/delegates/detail/event_delegate_argument_check.hpp:55-64 | `<true, f...>` equals `<f..., true>` exactly when every flag is true |
| ArgumentCheck.CheckEventDelegateArguments | include/me/delegates/detail/event_delegate_argument_check.hpp:55-64 | the check succeeds exactly when every parameter passes the classification, and otherwise reports the parameter list |
| ArgumentCheck.CheckImmutableArguments | include/me/delegates/detail/event_delegate_argument_check.hpp:55-64 | the same check over the corrected classification |
| ArgumentCheck.CorrectedCheckIsStricter | include/me/delegates/detail/event_delegate_argument_check.hpp:55-64 | every list the corrected check accepts is accepted as written, and `(int, const int** const*)` is accepted as written but not when corrected |
| ArgumentCheck.TestOracle | test/delegate/test_fwd_delegate/test_template_definition.cpp:213-242 | copies, moves, const references and pointers to const are accepted; mutable references and pointers, member pointers, arrays and functions are refused; the two classifications part only on mutable inner pointers |

## Left out

- `operator()` of `delegate_base`/`base_delegate`/`delegate_impl` and of `delegate_target` has no `return` for a non-void result. The same holds for `operator=(delegate&&)` and `operator=(nullptr)` of the owning cell and `operator=(nullptr)` of `me::delegates::delegate`. Flowing off the end of such a function is undefined behaviour in C++. The model returns the call's outcome and treats the assignments as returning nothing.
- `noexcept`, `constexpr`, `[[noreturn]]` and the exact function-pointer types are not modelled, because they do not change the values the operations compute.
- Raw memory is not modelled: placement `new`, the `assert` on the placement address, `alignas` and `const_cast` on the buffer. A functor in the buffer is an identity, not bytes.
- `delegate_base::operator==` compares the buffer word bitwise. For an in-buffer functor the model compares the functor's identity instead, so two equal-valued functors in two cells compare unequal here where C++ may say equal.
- How often a functor is copy- or move-constructed while being stored is not counted. The model counts creation, destruction and deletion only.
- Exception safety (a throwing functor constructor or `new`) is not modelled. Such a throw leaves the C++ objects as they were before the call.
- Lifetime after destruction is a ghost `alive` flag. A destroyed object cannot be used again, so use-after-destroy is excluded rather than modelled.
- The `Character` policy of `rome::delegate` has a `static_assert` in a base class. The model turns it into a precondition on the constructors and factories. Every factory of `rome::delegate` starts with `delegate d;`, so none of them can be instantiated for `target_enforced`. This restriction is kept as a precondition.
- `ArgumentCheck.Ty` has no `volatile`, no reference to `void` and no cv-qualified arrays or functions. It classifies member pointers, arrays and function types the way the header does, which rejects them.
- The newer `is_immutable_argument` header, which the tests under `test/tests/detail/` exercise, is not part of this model. Only its expectations on pointer chains are used, as evidence for the intended behaviour.
- `make_delegate`, `event_delegate`, `command_delegate`, `function_ptr`, `bad_delegate_call` (beyond the outcome of throwing it) and the test-only assertion headers are not part of this model.
- The `Ownership` world uses only `no_call_invoker`/`exception_call_invoker` cells of one signature. Cells of different signatures cannot be swapped or assigned in C++ anyway.

## Findings

| source | as written | input that shows it | evidently intended | confidence | as-written member | corrected member |
|---|---|---|---|---|---|---|
| include/rome/delegates/delegate.hpp:138-140 | `isSet()` of the `void` specialisation (and the same code at include/me/delegates/delegate.hpp:127-129) tests the caller against `nullptr`, but an empty `void` delegate holds `null_call`, so it always reports set; `==` (bool conversion) then calls a default delegate equal to any linked one | a default `delegate<void()>`, and one made from a function | an empty `void` delegate is not set and compares unequal to a linked one (test/test_delegate2.cpp:166-193) | not executed; high | CopyableDelegate.DefaultVoidDelegateObserved | CopyableDelegate.Delegate.IsLinked |
| include/me/delegates/detail/event_delegate_argument_check.hpp:27-53 | the const check looks only at the end of a pointer chain, and an lvalue reference to a pointer only at its pointee | `const int** const*`, `const int***`, `const int*&` | a parameter is accepted only when nothing the callee receives can change the caller's data; the newer tests reject the first two (test/tests/detail/is_immutable_argument.cpp:132-138) | not executed; high | ArgumentCheck.MutableChainsAccepted | ArgumentCheck.CheckImmutableArguments |
| include/rome/detail/delegate_target.hpp:45 | the defaulted move constructor copies the deleter, so the moved-from object destroys the functor as well | create a target from a functor, move-construct a second from it, destroy both | the moved-from object is released, so the functor is destroyed once (as the owning cell does, test/delegate/test_delegate/test_delegate_base.cpp:86-105) | not executed; high | DelegateTargetCell.DefaultedMoveDestroysTwice | DelegateTargetCell.ResettingMoveDestroysOnce |
| include/rome/detail/delegate_target.hpp:53 | the defaulted move assignment overwrites the three words without running the old deleter | two targets holding functors `f` and `g`, assign the first to the second, destroy both | the old functor is destroyed once and the source released | not executed; high | DelegateTargetCell.DefaultedMoveAssignLeaks | DelegateTargetCell.ReleasingMoveAssignDestroysEach |
| include/rome/delegate.hpp:92-105 | `operator!` returns `false`, so `operator bool`, `== nullptr` and `!= nullptr` report every delegate as set; `operator==` returns `false` even for a delegate and itself | a default `rome::delegate<void()>` | an empty delegate is unset, equals `nullptr`, and equals itself (the code carries TODO notes there) | not executed; medium | PolicyDelegate.EmptyDelegateObserved | PolicyDelegate.Delegate.IsUnbound |
