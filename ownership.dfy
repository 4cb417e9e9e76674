/** Ownership accounting for the owning cell: any program built from the cell's public
    operations (construct, create, move-construct, move-assign, assign `nullptr`, swap, destroy)
    destroys every functor it stored at most once, never destroys one it did not store, and
    destroys all of them once every delegate is gone. The program is a sequence of operations
    on numbered slots, each slot holding one live delegate or none; each step changes the slots
    as the corresponding method of `OwningCell.OwningDelegate` changes its objects. */
module Ownership {
  import opened Effects
  import opened SmallBuffer
  import opened CellSpec

  datatype Slot = Vacant | Live(state: CellState, invoker: EmptyInvoker)

  /** The slots, every functor a `create` has copied into a delegate, and every functor whose
      destructor a deleter has run. */
  datatype World = World(slots: seq<Slot>, created: multiset<FunctorId>, destroyed: multiset<FunctorId>)

  datatype Op =
    | DefaultConstruct(at: nat, invoker: EmptyInvoker)
    | CreateFunction(at: nat, invoker: EmptyInvoker, fn: FunctionId)
    | CreateMethod(at: nat, invoker: EmptyInvoker, obj: ObjectRef, m: MethodId)
    | CreateFunctor(at: nat, invoker: EmptyInvoker, p: Platform, f: Functor)
    | CreateFunctionPointer(at: nat, invoker: EmptyInvoker, p: Platform, fn: FunctionId)
    | MoveConstruct(at: nat, from: nat)
    | MoveAssign(to: nat, from: nat)
    | AssignNull(at: nat)
    | Swap(a: nat, b: nat)
    | Destroy(at: nat)

  /** The functors a slot must still destroy. */
  function SlotOwned(s: Slot): multiset<FunctorId>
  {
    if s.Live? then Owned(s.state) else multiset{}
  }

  /** The union, with multiplicity, of a row of multisets. */
  function Sum(ms: seq<multiset<FunctorId>>): multiset<FunctorId>
  {
    if ms == [] then multiset{} else Sum(ms[..|ms| - 1]) + ms[|ms| - 1]
  }

  /** What each slot must still destroy. */
  function Owns(slots: seq<Slot>): (ms: seq<multiset<FunctorId>>)
    ensures |ms| == |slots| && forall i :: 0 <= i < |slots| ==> ms[i] == SlotOwned(slots[i])
  {
    seq(|slots|, i requires 0 <= i < |slots| => SlotOwned(slots[i]))
  }

  /** The functors all slots must still destroy. */
  function Total(slots: seq<Slot>): multiset<FunctorId>
  {
    Sum(Owns(slots))
  }

  predicate IsVacant(w: World, i: int)
  {
    0 <= i < |w.slots| && w.slots[i].Vacant?
  }

  predicate IsLive(w: World, i: int)
  {
    0 <= i < |w.slots| && w.slots[i].Live?
  }

  /** Place a fresh delegate in a vacant slot; an occupied or missing slot is not a program. */
  function Construct(w: World, at: nat, s: CellState, invoker: EmptyInvoker): World
  {
    if IsVacant(w, at) then w.(slots := w.slots[at := Live(s, invoker)]) else w
  }

  /** `create(invokable)` copies one new functor object into the delegate. */
  function CreateFunctorStep(w: World, at: nat, inv: EmptyInvoker, p: Platform, f: Functor): World
  {
    if IsVacant(w, at) && f.id !in w.created then
      World(w.slots[at := Live(MakeFunctor(p, f), inv)], w.created + multiset{f.id}, w.destroyed)
    else w
  }

  /** The move constructor: the new delegate takes the source's target, the source is empty. */
  function MoveConstructStep(w: World, at: nat, from: nat): World
  {
    if IsVacant(w, at) && IsLive(w, from) then
      var src := w.slots[from];
      w.(slots := w.slots[at := src][from := Live(Empty(src.invoker), src.invoker)])
    else w
  }

  /** Move assignment between two delegates: the target's old functor is destroyed. */
  function MoveAssignStep(w: World, to: nat, from: nat): World
  {
    if IsLive(w, to) && IsLive(w, from) && w.slots[to].invoker == w.slots[from].invoker && to != from then
      var dst, src := w.slots[to], w.slots[from];
      World(w.slots[to := src][from := Live(Empty(src.invoker), src.invoker)],
            w.created, w.destroyed + Owned(dst.state))
    else w
  }

  /** `= nullptr`: the old functor is destroyed and the delegate is empty. */
  function AssignNullStep(w: World, at: nat): World
  {
    if IsLive(w, at) then
      var dst := w.slots[at];
      World(w.slots[at := Live(Empty(dst.invoker), dst.invoker)], w.created, w.destroyed + Owned(dst.state))
    else w
  }

  function SwapStep(w: World, a: nat, b: nat): World
  {
    if IsLive(w, a) && IsLive(w, b) && w.slots[a].invoker == w.slots[b].invoker then
      var sa, sb := w.slots[a], w.slots[b];
      w.(slots := w.slots[a := sb][b := sa])
    else w
  }

  /** The destructor: the delegate's functor is destroyed and the slot is vacant. */
  function DestroyStep(w: World, at: nat): World
  {
    if IsLive(w, at) then
      World(w.slots[at := Vacant], w.created, w.destroyed + Owned(w.slots[at].state))
    else w
  }

  /** One operation. Operations that would not compile or would touch a destroyed object
      (a vacant slot, two delegate types, a functor object stored twice) leave the world as it is. */
  function Step(w: World, op: Op): World
  {
    match op
    case DefaultConstruct(at, inv) => Construct(w, at, Empty(inv), inv)
    case CreateFunction(at, inv, fn) => Construct(w, at, MakeFunction(fn), inv)
    case CreateMethod(at, inv, obj, m) => Construct(w, at, MakeMethod(obj, m), inv)
    case CreateFunctor(at, inv, p, f) => CreateFunctorStep(w, at, inv, p, f)
    case CreateFunctionPointer(at, inv, p, fn) =>
      if IsSmallBufferOptimizable(p, p.functionPointerSize, p.functionPointerAlign)
      then Construct(w, at, MakeFunctionPointer(p, fn), inv)
      else w
    case MoveConstruct(at, from) => MoveConstructStep(w, at, from)
    case MoveAssign(to, from) => MoveAssignStep(w, to, from)
    case AssignNull(at) => AssignNullStep(w, at)
    case Swap(a, b) => SwapStep(w, a, b)
    case Destroy(at) => DestroyStep(w, at)
  }

  function Run(w: World, ops: seq<Op>): World
    decreases |ops|
  {
    if ops == [] then w else Run(Step(w, ops[0]), ops[1..])
  }

  function Initial(n: nat): World
  {
    World(seq(n, _ => Vacant), multiset{}, multiset{})
  }

  /** A live slot is in a state that the cell's operations can produce. */
  predicate SlotOk(s: Slot)
  {
    s.Live? ==> Consistent(s.state, s.invoker)
  }

  predicate AllOk(slots: seq<Slot>)
  {
    forall i :: 0 <= i < |slots| ==> SlotOk(slots[i])
  }

  /** Every stored functor is either destroyed already or still owned by exactly one live slot,
      no functor object is stored twice, and every live slot is in a reachable cell state. */
  predicate Inv(w: World)
  {
    && w.created == w.destroyed + Total(w.slots)
    && (forall id | id in w.created :: w.created[id] <= 1)
    && AllOk(w.slots)
  }

  lemma Rearrange(a: multiset<FunctorId>, b: multiset<FunctorId>, c: multiset<FunctorId>,
                  t: multiset<FunctorId>, d: multiset<FunctorId>)
    requires a + c == t + d
    ensures (a + b) + c == (t + b) + d
  {
    forall x ensures ((a + b) + c)[x] == ((t + b) + d)[x] {
      assert (a + c)[x] == (t + d)[x];
    }
  }

  lemma Commute(a: multiset<FunctorId>, b: multiset<FunctorId>, c: multiset<FunctorId>)
    ensures (a + b) + c == (a + c) + b
  {
    forall x ensures ((a + b) + c)[x] == ((a + c) + b)[x] {
    }
  }

  /** Replacing one multiset of the row changes the sum by the two multisets. */
  lemma {:induction false} SumUpdate(ms: seq<multiset<FunctorId>>, i: nat, m: multiset<FunctorId>)
    requires i < |ms|
    ensures Sum(ms[i := m]) + ms[i] == Sum(ms) + m
    decreases |ms|
  {
    var last := |ms| - 1;
    var prefix := ms[..last];
    if i == last {
      assert ms[i := m][..last] == prefix;
      Commute(Sum(prefix), m, ms[i]);
    } else {
      assert ms[i := m][..last] == prefix[i := m];
      assert prefix[i] == ms[i];
      SumUpdate(prefix, i, m);
      Rearrange(Sum(prefix[i := m]), ms[last], ms[i], Sum(prefix), m);
    }
  }

  /** Replacing one slot changes the total by what the two slots own. */
  lemma TotalUpdate(slots: seq<Slot>, i: nat, s: Slot)
    requires i < |slots|
    ensures Total(slots[i := s]) + SlotOwned(slots[i]) == Total(slots) + SlotOwned(s)
  {
    assert Owns(slots[i := s]) == Owns(slots)[i := SlotOwned(s)];
    SumUpdate(Owns(slots), i, SlotOwned(s));
  }

  /** A row of empty multisets sums to the empty multiset. */
  lemma {:induction false} SumAllEmpty(ms: seq<multiset<FunctorId>>)
    requires forall i :: 0 <= i < |ms| ==> ms[i] == multiset{}
    ensures Sum(ms) == multiset{}
    decreases |ms|
  {
    if ms != [] {
      SumAllEmpty(ms[..|ms| - 1]);
    }
  }

  /** Total of all-vacant slots is empty, whatever their number. */
  lemma TotalAllVacant(slots: seq<Slot>)
    requires forall i :: 0 <= i < |slots| ==> slots[i].Vacant?
    ensures Total(slots) == multiset{}
  {
    SumAllEmpty(Owns(slots));
  }

  lemma InitialInv(n: nat)
    ensures Inv(Initial(n))
  {
    TotalAllVacant(seq(n, _ => Vacant));
  }

  lemma AllOkUpdate(slots: seq<Slot>, i: nat, s: Slot)
    requires AllOk(slots) && i < |slots| && SlotOk(s)
    ensures AllOk(slots[i := s])
  {
    var t := slots[i := s];
    forall k | 0 <= k < |t| ensures SlotOk(t[k]) {
      if k != i { assert t[k] == slots[k]; }
    }
  }

  /** If the new slots own what the old ones did minus `released`, moving `released` to
      `destroyed` keeps the accounting. */
  lemma Transfer(w: World, slots': seq<Slot>, released: multiset<FunctorId>)
    requires w.created == w.destroyed + Total(w.slots)
    requires Total(slots') + released == Total(w.slots)
    ensures w.created == (w.destroyed + released) + Total(slots')
  {
    forall x ensures w.created[x] == ((w.destroyed + released) + Total(slots'))[x] {
      assert (Total(slots') + released)[x] == Total(w.slots)[x];
    }
  }

  /** Replacing slot `i` by `s`, which owns `gained` more than `lost`. */
  lemma Update(slots: seq<Slot>, i: nat, s: Slot, lost: multiset<FunctorId>, gained: multiset<FunctorId>)
    requires i < |slots| && SlotOwned(slots[i]) == lost && SlotOwned(s) == gained
    ensures Total(slots[i := s]) + lost == Total(slots) + gained
  {
    TotalUpdate(slots, i, s);
  }

  lemma ConstructKeepsInv(w: World, at: nat, s: CellState, invoker: EmptyInvoker)
    requires Inv(w) && Consistent(s, invoker) && Owned(s) == multiset{}
    ensures Inv(Construct(w, at, s, invoker))
    ensures Construct(w, at, s, invoker).destroyed == w.destroyed
  {
    if IsVacant(w, at) {
      var slots' := w.slots[at := Live(s, invoker)];
      TotalUpdate(w.slots, at, Live(s, invoker));
      assert Total(slots') + multiset{} == Total(w.slots);
      Transfer(w, slots', multiset{});
      AllOkUpdate(w.slots, at, Live(s, invoker));
    }
  }

  lemma CreateFunctorKeepsInv(w: World, at: nat, inv: EmptyInvoker, p: Platform, f: Functor)
    requires Inv(w)
    ensures Inv(CreateFunctorStep(w, at, inv, p, f))
    ensures CreateFunctorStep(w, at, inv, p, f).destroyed == w.destroyed
  {
    if IsVacant(w, at) && f.id !in w.created {
      var slot := Live(MakeFunctor(p, f), inv);
      var slots' := w.slots[at := slot];
      TotalUpdate(w.slots, at, slot);
      assert Total(slots') == Total(w.slots) + multiset{f.id};
      var w' := CreateFunctorStep(w, at, inv, p, f);
      forall x ensures w'.created[x] == (w'.destroyed + Total(w'.slots))[x] {
        assert w'.created[x] == w.created[x] + multiset{f.id}[x];
      }
      forall id | id in w'.created ensures w'.created[id] <= 1 {
        if id == f.id { assert w.created[id] == 0; }
      }
      AllOkUpdate(w.slots, at, slot);
    }
  }

  lemma MoveConstructKeepsInv(w: World, at: nat, from: nat)
    requires Inv(w)
    ensures Inv(MoveConstructStep(w, at, from))
    ensures MoveConstructStep(w, at, from).destroyed == w.destroyed
  {
    if IsVacant(w, at) && IsLive(w, from) {
      var src := w.slots[from];
      var empty := Live(Empty(src.invoker), src.invoker);
      var mid := w.slots[at := src];
      var slots' := mid[from := empty];
      Update(w.slots, at, src, multiset{}, SlotOwned(src));
      Update(mid, from, empty, SlotOwned(src), multiset{});
      forall x ensures (Total(slots') + multiset{})[x] == Total(w.slots)[x] {
        assert (Total(slots') + SlotOwned(src))[x] == (Total(mid) + multiset{})[x];
        assert (Total(mid) + multiset{})[x] == (Total(w.slots) + SlotOwned(src))[x];
      }
      Transfer(w, slots', multiset{});
      AllOkUpdate(w.slots, at, src);
      AllOkUpdate(mid, from, empty);
    }
  }

  lemma MoveAssignKeepsInv(w: World, to: nat, from: nat)
    requires Inv(w)
    ensures Inv(MoveAssignStep(w, to, from))
    ensures w.destroyed <= MoveAssignStep(w, to, from).destroyed
  {
    if IsLive(w, to) && IsLive(w, from) && w.slots[to].invoker == w.slots[from].invoker && to != from {
      var dst, src := w.slots[to], w.slots[from];
      var empty := Live(Empty(src.invoker), src.invoker);
      var mid := w.slots[to := src];
      var slots' := mid[from := empty];
      Update(w.slots, to, src, SlotOwned(dst), SlotOwned(src));
      Update(mid, from, empty, SlotOwned(src), multiset{});
      forall x ensures (Total(slots') + Owned(dst.state))[x] == Total(w.slots)[x] {
        assert (Total(slots') + SlotOwned(src))[x] == (Total(mid) + multiset{})[x];
        assert (Total(mid) + SlotOwned(dst))[x] == (Total(w.slots) + SlotOwned(src))[x];
      }
      Transfer(w, slots', Owned(dst.state));
      AllOkUpdate(w.slots, to, src);
      AllOkUpdate(mid, from, empty);
    }
  }

  lemma AssignNullKeepsInv(w: World, at: nat)
    requires Inv(w)
    ensures Inv(AssignNullStep(w, at))
    ensures w.destroyed <= AssignNullStep(w, at).destroyed
  {
    if IsLive(w, at) {
      var dst := w.slots[at];
      var empty := Live(Empty(dst.invoker), dst.invoker);
      Update(w.slots, at, empty, SlotOwned(dst), multiset{});
      assert Total(w.slots[at := empty]) + Owned(dst.state) == Total(w.slots);
      Transfer(w, w.slots[at := empty], Owned(dst.state));
      AllOkUpdate(w.slots, at, empty);
    }
  }

  lemma Cancel(a: multiset<FunctorId>, b: multiset<FunctorId>, c: multiset<FunctorId>)
    requires a + c == b + c
    ensures a == b
  {
    forall x ensures a[x] == b[x] {
      assert (a + c)[x] == (b + c)[x];
    }
  }

  lemma SwapKeepsInv(w: World, a: nat, b: nat)
    requires Inv(w)
    ensures Inv(SwapStep(w, a, b))
    ensures SwapStep(w, a, b).destroyed == w.destroyed
  {
    if a == b && IsLive(w, a) {
      assert SwapStep(w, a, b).slots == w.slots;
    } else if IsLive(w, a) && IsLive(w, b) && w.slots[a].invoker == w.slots[b].invoker {
      var sa, sb := w.slots[a], w.slots[b];
      var mid := w.slots[a := sb];
      var slots' := mid[b := sa];
      Update(w.slots, a, sb, SlotOwned(sa), SlotOwned(sb));
      Update(mid, b, sa, SlotOwned(sb), SlotOwned(sa));
      var t0, t1, t2 := Total(w.slots), Total(mid), Total(slots');
      assert t2 + SlotOwned(sb) == t0 + SlotOwned(sb);
      Cancel(t2, t0, SlotOwned(sb));
      AllOkUpdate(w.slots, a, sb);
      AllOkUpdate(mid, b, sa);
      assert SwapStep(w, a, b) == w.(slots := slots');
    }
  }

  lemma DestroyKeepsInv(w: World, at: nat)
    requires Inv(w)
    ensures Inv(DestroyStep(w, at))
    ensures w.destroyed <= DestroyStep(w, at).destroyed
  {
    if IsLive(w, at) {
      var dst := w.slots[at];
      Update(w.slots, at, Vacant, SlotOwned(dst), multiset{});
      assert Total(w.slots[at := Vacant]) + Owned(dst.state) == Total(w.slots);
      Transfer(w, w.slots[at := Vacant], Owned(dst.state));
      AllOkUpdate(w.slots, at, Vacant);
    }
  }

  /** Each operation keeps the invariant and never undoes a destruction. */
  lemma StepKeepsInv(w: World, op: Op)
    requires Inv(w)
    ensures Inv(Step(w, op))
    ensures w.destroyed <= Step(w, op).destroyed
  {
    match op
    case DefaultConstruct(at, inv) => ConstructKeepsInv(w, at, Empty(inv), inv);
    case CreateFunction(at, inv, fn) => ConstructKeepsInv(w, at, MakeFunction(fn), inv);
    case CreateMethod(at, inv, obj, m) => ConstructKeepsInv(w, at, MakeMethod(obj, m), inv);
    case CreateFunctor(at, inv, p, f) => CreateFunctorKeepsInv(w, at, inv, p, f);
    case CreateFunctionPointer(at, inv, p, fn) =>
      if IsSmallBufferOptimizable(p, p.functionPointerSize, p.functionPointerAlign) {
        ConstructKeepsInv(w, at, MakeFunctionPointer(p, fn), inv);
      }
    case MoveConstruct(at, from) => MoveConstructKeepsInv(w, at, from);
    case MoveAssign(to, from) => MoveAssignKeepsInv(w, to, from);
    case AssignNull(at) => AssignNullKeepsInv(w, at);
    case Swap(a, b) => SwapKeepsInv(w, a, b);
    case Destroy(at) => DestroyKeepsInv(w, at);
  }

  lemma {:induction false} RunKeepsInv(w: World, ops: seq<Op>)
    requires Inv(w)
    ensures Inv(Run(w, ops))
    ensures w.destroyed <= Run(w, ops).destroyed
    decreases |ops|
  {
    if ops != [] {
      StepKeepsInv(w, ops[0]);
      RunKeepsInv(Step(w, ops[0]), ops[1..]);
    }
  }

  /** For every program started with `n` empty slots: no functor is destroyed twice, only stored
      functors are destroyed, and once every delegate is destroyed every stored functor has been
      destroyed (nothing leaks). */
  lemma ExactlyOnce(n: nat, ops: seq<Op>)
    ensures forall id :: Run(Initial(n), ops).destroyed[id] <= 1
    ensures Run(Initial(n), ops).destroyed <= Run(Initial(n), ops).created
    ensures (forall i :: 0 <= i < |Run(Initial(n), ops).slots| ==> Run(Initial(n), ops).slots[i].Vacant?) ==>
              Run(Initial(n), ops).destroyed == Run(Initial(n), ops).created
  {
    InitialInv(n);
    RunKeepsInv(Initial(n), ops);
    var w := Run(Initial(n), ops);
    forall id ensures w.destroyed[id] <= 1 {
      assert w.destroyed[id] <= w.created[id];
    }
    if forall i :: 0 <= i < |w.slots| ==> w.slots[i].Vacant? {
      TotalAllVacant(w.slots);
    }
  }
}
