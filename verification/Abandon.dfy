/**
 The attempt-abandon signal: any number of `on_abandon` and `abandon` calls on
 clones of one signal, interleaved at every lock, flag and list access. A call's
 index is also the name of the hook it registers.
 */
module Abandon {

  import opened Wrappers

  datatype Phase =
    | Waiting                    // before taking the lock
    | Locked                     // holds the lock
    | Clear                      // `on_abandon`, holds the lock, saw the flag down
    | Marked                     // `abandon`, holds the lock, raised the flag
    | Running(todo: seq<nat>)    // released the lock; hooks it still has to run
    | Returned
    | Panicked(dropped: seq<nat>)  // a hook panicked; the rest are dropped unrun

  datatype Call = Call(registers: bool, phase: Phase)

  datatype Signal = Signal(
    flag: bool,
    hooks: seq<nat>,
    lock: Option<nat>,
    calls: seq<Call>,
    ran: seq<nat>)

  const NEW := Signal(false, [], None, [], [])

  datatype Step =
    | Begin(registers: bool)
    | Lock(c: nat)
    | Check(c: nat)      // `on_abandon` reads the flag under the lock
    | Push(c: nat)       // adds its hook and unlocks
    | Mark(c: nat)       // `abandon` raises the flag under the lock
    | Take(c: nat)       // takes the whole list and unlocks
    | RunHook(c: nat)
    | PanicHook(c: nat)
    | Return(c: nat)

  predicate At(s: Signal, c: nat, registers: bool, phase: Phase) {
    c < |s.calls| && s.calls[c] == Call(registers, phase)
  }

  predicate RunsHook(s: Signal, c: nat) {
    c < |s.calls| && s.calls[c].phase.Running? && s.calls[c].phase.todo != []
  }

  predicate Enabled(s: Signal, step: Step) {
    match step
    case Begin(_) => true
    case Lock(c) => c < |s.calls| && s.calls[c].phase.Waiting? && s.lock == None
    case Check(c) => At(s, c, true, Locked)
    case Push(c) => At(s, c, true, Clear)
    case Mark(c) => At(s, c, false, Locked)
    case Take(c) => At(s, c, false, Marked)
    case RunHook(c) => RunsHook(s, c)
    case PanicHook(c) => RunsHook(s, c)
    case Return(c) => c < |s.calls| && s.calls[c].phase == Running([])
  }

  function To(s: Signal, c: nat, phase: Phase): seq<Call>
    requires c < |s.calls|
  {
    s.calls[c := s.calls[c].(phase := phase)]
  }

  function Apply(s: Signal, step: Step): Signal
    requires Enabled(s, step)
  {
    match step
    case Begin(registers) => s.(calls := s.calls + [Call(registers, Waiting)])
    case Lock(c) => s.(lock := Some(c), calls := To(s, c, Locked))
    case Check(c) =>
      if s.flag then s.(lock := None, calls := To(s, c, Running([c]))) else s.(calls := To(s, c, Clear))
    case Push(c) => s.(hooks := s.hooks + [c], lock := None, calls := To(s, c, Returned))
    case Mark(c) => s.(flag := true, calls := To(s, c, Marked))
    case Take(c) => s.(hooks := [], lock := None, calls := To(s, c, Running(s.hooks)))
    case RunHook(c) =>
      var todo := s.calls[c].phase.todo;
      s.(ran := s.ran + [todo[0]], calls := To(s, c, Running(todo[1..])))
    case PanicHook(c) =>
      var todo := s.calls[c].phase.todo;
      s.(ran := s.ran + [todo[0]], calls := To(s, c, Panicked(todo[1..])))
    case Return(c) => s.(calls := To(s, c, Returned))
  }

  predicate IsRun(s: Signal, steps: seq<Step>, t: Signal)
    decreases |steps|
  {
    if steps == [] then s == t
    else Enabled(s, steps[0]) && IsRun(Apply(s, steps[0]), steps[1..], t)
  }

  // -- where every hook is ------------------------------------------------

  function Count(hooks: seq<nat>, h: nat): nat {
    if hooks == [] then 0 else (if hooks[0] == h then 1 else 0) + Count(hooks[1..], h)
  }

  lemma {:induction false} CountAppend(hooks: seq<nat>, x: nat, h: nat)
    ensures Count(hooks + [x], h) == Count(hooks, h) + if x == h then 1 else 0
  {
    if hooks != [] {
      assert (hooks + [x])[1..] == hooks[1..] + [x];
      CountAppend(hooks[1..], x, h);
    }
  }

  lemma {:induction false} CountPositive(hooks: seq<nat>, h: nat)
    ensures Count(hooks, h) > 0 <==> h in hooks
  {
    if hooks != [] { CountPositive(hooks[1..], h); }
  }

  /** How often a call holds hook `h`: its own before it is listed, those it still has to run, or
      those it dropped. */
  function Held(c: nat, call: Call, h: nat): nat {
    match call.phase
    case Running(todo) => Count(todo, h)
    case Panicked(dropped) => Count(dropped, h)
    case Returned => 0
    case _ => if call.registers && c == h then 1 else 0
  }

  function AllHeld(calls: seq<Call>, h: nat): nat {
    if calls == [] then 0
    else var n := |calls| - 1; AllHeld(calls[..n], h) + Held(n, calls[n], h)
  }

  lemma {:induction false} HeldUpdate(calls: seq<Call>, c: nat, call: Call, h: nat)
    requires c < |calls|
    ensures AllHeld(calls[c := call], h) + Held(c, calls[c], h) == AllHeld(calls, h) + Held(c, call, h)
  {
    var n := |calls| - 1;
    if c == n {
      assert calls[c := call][..n] == calls[..n];
    } else {
      assert calls[c := call][..n] == calls[..n][c := call];
      HeldUpdate(calls[..n], c, call, h);
    }
  }

  lemma {:induction false} NoneHeld(calls: seq<Call>, h: nat)
    requires forall c | 0 <= c < |calls| :: calls[c].phase == Returned
    ensures AllHeld(calls, h) == 0
  {
    if calls != [] { NoneHeld(calls[..|calls| - 1], h); }
  }

  // -- the invariant ------------------------------------------------------

  predicate Registered(s: Signal, h: nat) { h < |s.calls| && s.calls[h].registers }

  /** The places a hook is in, counted. */
  function Places(s: Signal, h: nat): nat {
    Count(s.hooks, h) + Count(s.ran, h) + AllHeld(s.calls, h)
  }

  /** Each registered hook is in exactly one place, and no other hook anywhere. */
  ghost predicate Conserved(s: Signal) {
    forall h: nat :: Places(s, h) == if Registered(s, h) then 1 else 0
  }

  predicate HoldsLock(p: Phase) { p.Locked? || p.Clear? || p.Marked? }

  /** The lock excludes, the flag is down for whoever saw it down, and hooks stay listed past the
      flag only while the call that raised it still holds the lock. */
  ghost predicate Guarded(s: Signal) {
    && (forall c | 0 <= c < |s.calls| && HoldsLock(s.calls[c].phase) :: s.lock == Some(c))
    && (forall c | 0 <= c < |s.calls| && s.calls[c].phase.Clear? :: !s.flag)
    && (s.flag && s.hooks != [] ==>
          s.lock.Some? && s.lock.value < |s.calls| && s.calls[s.lock.value].phase.Marked?)
    && (s.ran != [] ==> s.flag)
    && (forall c | 0 <= c < |s.calls| && (s.calls[c].phase.Marked? || s.calls[c].phase.Running?) :: s.flag)
  }

  ghost predicate Inv(s: Signal) { Conserved(s) && Guarded(s) }

  lemma StepGuarded(s: Signal, step: Step)
    requires Guarded(s) && Enabled(s, step)
    ensures Guarded(Apply(s, step))
  {
    if step.Check? || step.Push? || step.Mark? || step.Take? {
      HolderGuarded(s, step);
    } else {
      OtherGuarded(s, step);
    }
  }

  /** Steps of the call that holds the lock. */
  lemma HolderGuarded(s: Signal, step: Step)
    requires Guarded(s) && Enabled(s, step) && (step.Check? || step.Push? || step.Mark? || step.Take?)
    ensures Guarded(Apply(s, step))
  {
    assert HoldsLock(s.calls[step.c].phase);
  }

  lemma OtherGuarded(s: Signal, step: Step)
    requires Guarded(s) && Enabled(s, step) && !(step.Check? || step.Push? || step.Mark? || step.Take?)
    ensures Guarded(Apply(s, step))
  {
  }

  /** Running a hook moves it from the call to the hooks that ran. */
  lemma RunPlaces(s: Signal, step: Step, h: nat)
    requires Enabled(s, step) && (step.RunHook? || step.PanicHook?)
    ensures Places(Apply(s, step), h) == Places(s, h)
  {
    HeldUpdate(s.calls, step.c, Apply(s, step).calls[step.c], h);
    CountAppend(s.ran, s.calls[step.c].phase.todo[0], h);
  }

  /** Every other step moves hooks between their caller, the list and the taker. */
  lemma StepPlaces(s: Signal, step: Step, h: nat)
    requires Enabled(s, step) && !step.Begin? && !step.RunHook? && !step.PanicHook?
    ensures Places(Apply(s, step), h) == Places(s, h)
  {
    HeldUpdate(s.calls, step.c, Apply(s, step).calls[step.c], h);
    CountAppend(s.hooks, step.c, h);
    CountAppend([], step.c, h);
    assert [] + [step.c] == [step.c];
  }

  lemma StepConserved(s: Signal, step: Step)
    requires Conserved(s) && Enabled(s, step)
    ensures Conserved(Apply(s, step))
  {
    var t := Apply(s, step);
    forall h: nat ensures Places(t, h) == if Registered(t, h) then 1 else 0 {
      assert Places(s, h) == if Registered(s, h) then 1 else 0;
      if step.Begin? {
        assert t.calls[..|s.calls|] == s.calls;
      } else if step.RunHook? || step.PanicHook? {
        RunPlaces(s, step, h);
      } else {
        StepPlaces(s, step, h);
      }
    }
  }

  lemma {:induction false} RunInv(s: Signal, steps: seq<Step>, t: Signal)
    requires Inv(s) && IsRun(s, steps, t)
    ensures Inv(t)
    decreases |steps|
  {
    if steps != [] {
      StepConserved(s, steps[0]);
      StepGuarded(s, steps[0]);
      RunInv(Apply(s, steps[0]), steps[1..], t);
    }
  }

  // -- what it guarantees -------------------------------------------------

  /** In every reachable state no hook has run twice, none that was not registered has run, and none
      has run before the attempt was abandoned. */
  lemma NoHookRunsTwice(steps: seq<Step>, s: Signal, h: nat)
    requires IsRun(NEW, steps, s)
    ensures Count(s.ran, h) <= 1
    ensures h in s.ran ==> s.flag && Registered(s, h)
  {
    RunInv(NEW, steps, s);
    CountPositive(s.ran, h);
    assert Places(s, h) <= 1;
  }

  /** Once the attempt is abandoned and every call has returned without a panic, every registered
      hook has run exactly once and the list is empty. */
  lemma EveryHookRunsOnce(steps: seq<Step>, s: Signal, h: nat)
    requires IsRun(NEW, steps, s)
    requires s.flag && forall c | 0 <= c < |s.calls| :: s.calls[c].phase == Returned
    ensures s.hooks == []
    ensures Count(s.ran, h) == if Registered(s, h) then 1 else 0
  {
    RunInv(NEW, steps, s);
    NoneHeld(s.calls, h);
    assert Places(s, h) == if Registered(s, h) then 1 else 0;
  }

  /** Once empty after abandonment, the list stays empty through every further step. */
  lemma {:induction false} ListStaysEmpty(before: seq<Step>, s: Signal, after: seq<Step>, t: Signal)
    requires IsRun(NEW, before, s) && s.flag && s.hooks == []
    requires IsRun(s, after, t)
    ensures t.flag && t.hooks == []
  {
    RunInv(NEW, before, s);
    StaysEmpty(s, after, t);
  }

  lemma {:induction false} StaysEmpty(s: Signal, steps: seq<Step>, t: Signal)
    requires Inv(s) && s.flag && s.hooks == [] && IsRun(s, steps, t)
    ensures t.flag && t.hooks == []
    decreases |steps|
  {
    if steps != [] {
      StepConserved(s, steps[0]);
      StepGuarded(s, steps[0]);
      StaysEmpty(Apply(s, steps[0]), steps[1..], t);
    }
  }

  ghost predicate DroppedBy(s: Signal, c: nat, h: nat) {
    c < |s.calls| && s.calls[c].phase.Panicked? && h in s.calls[c].phase.dropped
  }

  /** With nothing in progress, a registered hook is neither listed nor run exactly when a call whose
      earlier hook panicked dropped it. */
  lemma {:induction false} LostOnlyByPanic(steps: seq<Step>, s: Signal, h: nat)
    requires IsRun(NEW, steps, s) && Registered(s, h)
    requires forall c | 0 <= c < |s.calls| :: s.calls[c].phase.Returned? || s.calls[c].phase.Panicked?
    ensures h !in s.ran && h !in s.hooks <==> exists c: nat :: DroppedBy(s, c, h)
  {
    RunInv(NEW, steps, s);
    assert Places(s, h) == 1;
    CountPositive(s.ran, h);
    CountPositive(s.hooks, h);
    if AllHeld(s.calls, h) > 0 {
      var c := HeldBySome(s.calls, h);
      CountPositive(s.calls[c].phase.dropped, h);
      assert DroppedBy(s, c, h);
    } else {
      forall c: nat ensures !DroppedBy(s, c, h) { NotHeldNotDropped(s, c, h); }
    }
  }

  lemma NotHeldNotDropped(s: Signal, c: nat, h: nat)
    requires AllHeld(s.calls, h) == 0
    ensures !DroppedBy(s, c, h)
  {
    if c < |s.calls| && s.calls[c].phase.Panicked? {
      HeldCounts(s.calls, c, h);
      CountPositive(s.calls[c].phase.dropped, h);
    }
  }

  lemma {:induction false} HeldCounts(calls: seq<Call>, c: nat, h: nat)
    requires c < |calls|
    ensures AllHeld(calls, h) >= Held(c, calls[c], h)
  {
    var n := |calls| - 1;
    if c < n { HeldCounts(calls[..n], c, h); }
  }

  lemma {:induction false} HeldBySome(calls: seq<Call>, h: nat) returns (c: nat)
    requires AllHeld(calls, h) > 0
    ensures c < |calls| && Held(c, calls[c], h) > 0
  {
    var n := |calls| - 1;
    if Held(n, calls[n], h) > 0 {
      c := n;
    } else {
      c := HeldBySome(calls[..n], h);
    }
  }

  // -- hooks run in the order they were registered ------------------------

  predicate Precedes(hooks: seq<nat>, g: nat, h: nat) {
    exists i, j :: 0 <= i < j < |hooks| && hooks[i] == g && hooks[j] == h
  }

  predicate InTodo(s: Signal, c: nat, g: nat, h: nat) {
    c < |s.calls| && s.calls[c].phase.Running? && Precedes(s.calls[c].phase.todo, g, h)
  }

  /** Hook `g` is ahead of `h`: in the list, in one call's hands, dropped with it, or run already. */
  ghost predicate InLine(s: Signal, g: nat, h: nat) {
    || Precedes(s.hooks, g, h)
    || (exists c: nat :: InTodo(s, c, g, h))
    || (exists c: nat :: DroppedBy(s, c, h))
    || (g in s.ran && (h in s.ran ==> Precedes(s.ran, g, h)))
  }

  lemma PrecedesIn(hooks: seq<nat>, g: nat, h: nat)
    requires Precedes(hooks, g, h)
    ensures g in hooks && h in hooks
  {
  }

  lemma PrecedesAppend(hooks: seq<nat>, x: nat, g: nat, h: nat)
    ensures Precedes(hooks, g, h) ==> Precedes(hooks + [x], g, h)
    ensures g in hooks && x == h ==> Precedes(hooks + [x], g, h)
  {
    var more := hooks + [x];
    if Precedes(hooks, g, h) {
      var i, j :| 0 <= i < j < |hooks| && hooks[i] == g && hooks[j] == h;
      assert more[i] == g && more[j] == h;
    }
    if g in hooks && x == h {
      var i :| 0 <= i < |hooks| && hooks[i] == g;
      assert more[i] == g && more[|hooks|] == h;
    }
  }

  /** Taking the first hook leaves the pair in order, or takes the hook ahead. */
  lemma PrecedesRest(todo: seq<nat>, g: nat, h: nat)
    requires Precedes(todo, g, h)
    ensures h in todo[1..] && (todo[0] == g || Precedes(todo[1..], g, h))
  {
    var i, j :| 0 <= i < j < |todo| && todo[i] == g && todo[j] == h;
    assert todo[1..][j - 1] == h;
    if i > 0 { assert todo[1..][i - 1] == g; }
  }

  /** A hook in a call's hands has not run. */
  lemma HeldNotRan(s: Signal, c: nat, h: nat)
    requires Conserved(s) && c < |s.calls| && Held(c, s.calls[c], h) > 0
    ensures h !in s.ran && h !in s.hooks
  {
    HeldCounts(s.calls, c, h);
    CountPositive(s.ran, h);
    CountPositive(s.hooks, h);
    assert Places(s, h) <= 1;
  }

  lemma ListedNotRan(s: Signal, h: nat)
    requires Conserved(s) && h in s.hooks
    ensures h !in s.ran
  {
    CountPositive(s.ran, h);
    CountPositive(s.hooks, h);
    assert Places(s, h) <= 1;
  }

  /** What a hook in line is not: run before the one ahead of it. */
  lemma InLineMeaning(s: Signal, g: nat, h: nat)
    requires Conserved(s) && InLine(s, g, h) && h in s.ran
    ensures Precedes(s.ran, g, h)
  {
    if Precedes(s.hooks, g, h) {
      PrecedesIn(s.hooks, g, h);
      ListedNotRan(s, h);
    } else if c: nat :| InTodo(s, c, g, h) {
      PrecedesIn(s.calls[c].phase.todo, g, h);
      CountPositive(s.calls[c].phase.todo, h);
      HeldNotRan(s, c, h);
    } else if c: nat :| DroppedBy(s, c, h) {
      CountPositive(s.calls[c].phase.dropped, h);
      HeldNotRan(s, c, h);
    }
  }

  /** The call runs its first hook, and stops there if the hook panics. */
  lemma RunInLine(s: Signal, step: Step, g: nat, h: nat)
    requires Conserved(s) && Enabled(s, step) && (step.RunHook? || step.PanicHook?) && InLine(s, g, h)
    ensures InLine(Apply(s, step), g, h)
  {
    var t, todo := Apply(s, step), s.calls[step.c].phase.todo;
    PrecedesAppend(s.ran, todo[0], g, h);
    if c: nat :| InTodo(s, c, g, h) {
      if c == step.c {
        OwnTodoInLine(s, step, g, h);
      } else {
        assert InTodo(t, c, g, h);
      }
    } else if c: nat :| DroppedBy(s, c, h) {
      assert DroppedBy(t, c, h);
    }
  }

  lemma OwnTodoInLine(s: Signal, step: Step, g: nat, h: nat)
    requires Conserved(s) && Enabled(s, step) && (step.RunHook? || step.PanicHook?) && InTodo(s, step.c, g, h)
    ensures InLine(Apply(s, step), g, h)
  {
    var t, todo := Apply(s, step), s.calls[step.c].phase.todo;
    PrecedesIn(todo, g, h);
    CountPositive(todo, h);
    HeldNotRan(s, step.c, h);
    PrecedesRest(todo, g, h);
    if step.PanicHook? {
      assert DroppedBy(t, step.c, h);
    } else if todo[0] == g {
      assert g in t.ran;
      if h in t.ran { OnceInTodo(s, step.c, h); }
    } else {
      assert InTodo(t, step.c, g, h);
    }
  }

  /** A hook still to run is not also the one being run. */
  lemma OnceInTodo(s: Signal, c: nat, h: nat)
    requires Conserved(s) && c < |s.calls| && s.calls[c].phase.Running? && s.calls[c].phase.todo != []
    requires h in s.calls[c].phase.todo[1..]
    ensures s.calls[c].phase.todo[0] != h
  {
    CountPositive(s.calls[c].phase.todo[1..], h);
    HeldCounts(s.calls, c, h);
    assert Places(s, h) <= 1;
  }

  lemma OtherInLine(s: Signal, step: Step, g: nat, h: nat)
    requires Conserved(s) && Enabled(s, step) && !step.RunHook? && !step.PanicHook? && InLine(s, g, h)
    ensures InLine(Apply(s, step), g, h)
  {
    var t := Apply(s, step);
    if Precedes(s.hooks, g, h) {
      if step.Push? { PrecedesAppend(s.hooks, step.c, g, h); }
      if step.Take? { assert InTodo(t, step.c, g, h); }
    } else if c: nat :| InTodo(s, c, g, h) {
      PrecedesIn(s.calls[c].phase.todo, g, h);
      assert InTodo(t, c, g, h);
    } else if c: nat :| DroppedBy(s, c, h) {
      assert DroppedBy(t, c, h);
    }
  }

  lemma {:induction false} LineKept(s: Signal, steps: seq<Step>, t: Signal, g: nat, h: nat)
    requires Inv(s) && IsRun(s, steps, t) && InLine(s, g, h)
    ensures InLine(t, g, h) && Conserved(t)
    decreases |steps|
  {
    if steps != [] {
      var step := steps[0];
      if step.RunHook? || step.PanicHook? { RunInLine(s, step, g, h); } else { OtherInLine(s, step, g, h); }
      StepConserved(s, step);
      StepGuarded(s, step);
      LineKept(Apply(s, step), steps[1..], t, g, h);
    }
  }

  /** Of two hooks that were listed, the one registered first runs first, in every interleaving. */
  lemma HooksRunInOrder(before: seq<Step>, s: Signal, after: seq<Step>, t: Signal, g: nat, h: nat)
    requires IsRun(NEW, before, s) && IsRun(s, after, t) && Precedes(s.hooks, g, h) && h in t.ran
    ensures Precedes(t.ran, g, h)
  {
    RunInv(NEW, before, s);
    LineKept(s, after, t, g, h);
    InLineMeaning(t, g, h);
  }
}
