/** The multi-core physical page allocator as a machine of small steps.

    A locked global stack of free pages feeds one local stack per core. A refill moves pages one at a
    time while the lock is held, so a page can be in the global stack, in a local stack, in transit, or
    held by a caller. The machine interleaves the steps of all cores freely.
    Source: source/kernel/hardware/devices/memory/physical_memory.c */
module PageAllocator {

  type Page = nat

  const LOCAL_CAPACITY: nat := 255
  const REFILL_BATCH: nat := 64
  const SPILL_BATCH: nat := 128

  /** What a core is doing inside the allocator.
      `Loading` and `Storing` are the two loops under the global lock; `Popping` is the tail of an
      allocation after the lock has been released. */
  datatype Pc = Idle | Loading(moved: nat) | Popping | Storing(page: Page, moved: nat)

  /** `transit` holds the pages a refill has copied while the stored stack size is still zero. */
  datatype Core = Core(stack: seq<Page>, transit: seq<Page>, pc: Pc)

  datatype Panic = Running | OutOfPages(core: nat) | StackOverflow

  datatype State = State(
    free: seq<Page>,        // the global stack, top at the end
    capacity: nat,          // distance from the stack base to pm_stack_last_entry
    lock: int,              // the core that holds pm_stack_mutex, or -1
    cores: seq<Core>,
    held: multiset<Page>,   // pages handed out and not yet given back
    panic: Panic)

  datatype Step =
    | AllocFast(c: nat)
    | AllocBegin(c: nat)
    | LoadOne(c: nat)
    | LoadEnd(c: nat)
    | AllocPop(c: nat)
    | FreeFast(c: nat, p: Page)
    | FreeBegin(c: nat, p: Page)
    | StoreOne(c: nat)
    | StoreEnd(c: nat)
    | DirectAlloc(c: nat)
    | DirectFree(c: nat, p: Page)

  // ----- the steps

  function Top(s: seq<Page>): Page
    requires s != []
  {
    s[|s| - 1]
  }

  function Pop(s: seq<Page>): seq<Page>
    requires s != []
  {
    s[..|s| - 1]
  }

  /** When a step may be taken. Callers give back only pages they hold. */
  predicate Enabled(s: State, st: Step) {
    && s.panic.Running?
    && st.c < |s.cores|
    && var core := s.cores[st.c];
       match st
       case AllocFast(c) => core.pc.Idle? && core.stack != []
       case AllocBegin(c) => core.pc.Idle? && core.stack == [] && s.lock == -1
       case LoadOne(c) => core.pc.Loading? && core.pc.moved < REFILL_BATCH && s.free != []
       case LoadEnd(c) => core.pc.Loading? && (core.pc.moved == REFILL_BATCH || s.free == [])
       case AllocPop(c) => core.pc.Popping? && core.stack != []
       case FreeFast(c, p) => core.pc.Idle? && |core.stack| != LOCAL_CAPACITY && p in s.held
       case FreeBegin(c, p) => core.pc.Idle? && |core.stack| == LOCAL_CAPACITY && s.lock == -1 && p in s.held
       case StoreOne(c) => core.pc.Storing? && core.pc.moved < SPILL_BATCH && core.stack != []
       case StoreEnd(c) => core.pc.Storing? && core.pc.moved == SPILL_BATCH
       case DirectAlloc(c) => core.pc.Idle? && s.lock == -1
       case DirectFree(c, p) => core.pc.Idle? && s.lock == -1 && p in s.held
  }

  function Apply(s: State, st: Step): State
    requires Enabled(s, st)
  {
    var c := st.c;
    var core := s.cores[c];
    match st
    case AllocFast(_) =>
      s.(cores := s.cores[c := core.(stack := Pop(core.stack))],
         held := s.held + multiset{Top(core.stack)})
    case AllocBegin(_) =>
      if s.free == [] then s.(panic := OutOfPages(c))
      else s.(lock := c, cores := s.cores[c := core.(pc := Loading(0))])
    case LoadOne(_) =>
      s.(free := Pop(s.free),
         cores := s.cores[c := core.(transit := core.transit + [Top(s.free)], pc := Loading(core.pc.moved + 1))])
    case LoadEnd(_) =>
      s.(lock := -1, cores := s.cores[c := Core(core.stack + core.transit, [], Popping)])
    case AllocPop(_) =>
      s.(cores := s.cores[c := core.(stack := Pop(core.stack), pc := Idle)],
         held := s.held + multiset{Top(core.stack)})
    case FreeFast(_, p) =>
      s.(cores := s.cores[c := core.(stack := core.stack + [p])], held := s.held - multiset{p})
    case FreeBegin(_, p) =>
      s.(lock := c, cores := s.cores[c := core.(pc := Storing(p, 0))], held := s.held - multiset{p})
    case StoreOne(_) =>
      if |s.free| == s.capacity then s.(panic := StackOverflow)
      else s.(free := s.free + [Top(core.stack)],
              cores := s.cores[c := core.(stack := Pop(core.stack), pc := Storing(core.pc.page, core.pc.moved + 1))])
    case StoreEnd(_) =>
      s.(lock := -1, cores := s.cores[c := core.(stack := core.stack + [core.pc.page], pc := Idle)])
    case DirectAlloc(_) =>
      if s.free == [] then s.(panic := OutOfPages(c))
      else s.(free := Pop(s.free), held := s.held + multiset{Top(s.free)})
    case DirectFree(_, p) =>
      if |s.free| == s.capacity then s.(panic := StackOverflow)
      else s.(free := s.free + [p], held := s.held - multiset{p})
  }

  // ----- where every page is

  /** How often page `x` occurs in `s`. */
  function Occurs(s: seq<Page>, x: Page): nat {
    if s == [] then 0 else Occurs(Pop(s), x) + (if Top(s) == x then 1 else 0)
  }

  function CoreTally(core: Core, x: Page): nat {
    Occurs(core.stack, x) + Occurs(core.transit, x) + (if core.pc.Storing? && core.pc.page == x then 1 else 0)
  }

  function CoresTally(cores: seq<Core>, x: Page): nat {
    if cores == [] then 0 else CoreTally(cores[0], x) + CoresTally(cores[1..], x)
  }

  /** The places page `x` has on one core, in the global stack and with the callers. */
  function LocalTally(s: State, c: nat, x: Page): nat
    requires c < |s.cores|
  {
    Occurs(s.free, x) + CoreTally(s.cores[c], x) + s.held[x]
  }

  /** The number of places page `x` is in: global stack, local stacks, in transit, held by a caller. */
  function Tally(s: State, x: Page): nat {
    Occurs(s.free, x) + CoresTally(s.cores, x) + s.held[x]
  }

  lemma PushOccurs(s: seq<Page>, p: Page, x: Page)
    ensures Occurs(s + [p], x) == Occurs(s, x) + (if p == x then 1 else 0)
  {
    assert Pop(s + [p]) == s;
  }

  lemma {:induction false} ConcatOccurs(s: seq<Page>, t: seq<Page>, x: Page)
    ensures Occurs(s + t, x) == Occurs(s, x) + Occurs(t, x)
  {
    if t == [] {
      assert s + t == s;
    } else {
      assert Pop(s + t) == s + Pop(t);
      ConcatOccurs(s, Pop(t), x);
    }
  }

  lemma {:induction false} UpdateCore(cores: seq<Core>, i: nat, core: Core, x: Page)
    requires i < |cores|
    ensures CoresTally(cores[i := core], x) + CoreTally(cores[i], x) == CoresTally(cores, x) + CoreTally(core, x)
  {
    if i == 0 {
      assert cores[i := core][1..] == cores[1..];
    } else {
      assert cores[i := core][1..] == cores[1..][i - 1 := core];
      UpdateCore(cores[1..], i - 1, core, x);
    }
  }

  lemma {:induction false} CoreBelowAll(cores: seq<Core>, i: nat, x: Page)
    requires i < |cores|
    ensures CoreTally(cores[i], x) <= CoresTally(cores, x)
  {
    if i > 0 {
      CoreBelowAll(cores[1..], i - 1, x);
    }
  }

  /** A step touches the stepping core only. */
  lemma StepTouchesOneCore(s: State, st: Step)
    requires Enabled(s, st)
    ensures |Apply(s, st).cores| == |s.cores|
    ensures Apply(s, st).cores == s.cores[st.c := Apply(s, st).cores[st.c]]
  {
    var t := Apply(s, st);
    if t.cores == s.cores {
      assert s.cores[st.c := s.cores[st.c]] == s.cores;
    } else {
      assert t.cores[st.c] != s.cores[st.c];
    }
  }

  /** Every step leaves every page in exactly as many places as before: none is lost, none is doubled. */
  lemma StepConserves(s: State, st: Step, x: Page)
    requires Enabled(s, st)
    ensures Tally(Apply(s, st), x) == Tally(s, x)
  {
    StepTouchesOneCore(s, st);
    var core := Apply(s, st).cores[st.c];
    UpdateCore(s.cores, st.c, core, x);
    if st.AllocFast? || st.AllocBegin? || st.LoadOne? || st.LoadEnd? || st.AllocPop? {
      RefillMoves(s, st, x);
    } else if st.FreeFast? || st.FreeBegin? || st.DirectFree? {
      FreeMoves(s, st, x);
    } else {
      SpillMoves(s, st, x);
    }
  }

  /** The stepping core, the global stack and the callers together keep every page: allocating steps. */
  lemma RefillMoves(s: State, st: Step, x: Page)
    requires Enabled(s, st)
    requires st.AllocFast? || st.AllocBegin? || st.LoadOne? || st.LoadEnd? || st.AllocPop?
    ensures LocalTally(Apply(s, st), st.c, x) == LocalTally(s, st.c, x)
  {
    var core := s.cores[st.c];
    if st.LoadOne? {
      PushOccurs(core.transit, Top(s.free), x);
    } else if st.LoadEnd? {
      ConcatOccurs(core.stack, core.transit, x);
    }
  }

  /** The same for the steps by which a caller gives a page back. */
  lemma FreeMoves(s: State, st: Step, x: Page)
    requires Enabled(s, st)
    requires st.FreeFast? || st.FreeBegin? || st.DirectFree?
    ensures LocalTally(Apply(s, st), st.c, x) == LocalTally(s, st.c, x)
  {
    var t := Apply(s, st);
    match st {
      case FreeFast(c, p) =>
        GivenBack(s.held, p, x);
        PushOccurs(s.cores[c].stack, p, x);
        assert t.cores[c] == s.cores[c].(stack := s.cores[c].stack + [p]);
      case FreeBegin(c, p) =>
        GivenBack(s.held, p, x);
        assert t.cores[c] == s.cores[c].(pc := Storing(p, 0));
      case DirectFree(c, p) =>
        GivenBack(s.held, p, x);
        PushOccurs(s.free, p, x);
        assert t.cores[c] == s.cores[c];
    }
  }

  lemma GivenBack(held: multiset<Page>, p: Page, x: Page)
    requires p in held
    ensures (held - multiset{p})[x] == held[x] - (if p == x then 1 else 0)
  {
  }

  /** The same for the spill loop and the direct allocation. */
  lemma SpillMoves(s: State, st: Step, x: Page)
    requires Enabled(s, st)
    requires st.StoreOne? || st.StoreEnd? || st.DirectAlloc?
    ensures LocalTally(Apply(s, st), st.c, x) == LocalTally(s, st.c, x)
  {
    var core := s.cores[st.c];
    if st.StoreOne? {
      PushOccurs(s.free, Top(core.stack), x);
    } else if st.StoreEnd? {
      PushOccurs(core.stack, core.pc.page, x);
    }
  }

  // ----- how many pages there are

  function CoreSize(core: Core): nat {
    |core.stack| + |core.transit| + (if core.pc.Storing? then 1 else 0)
  }

  function CoresSize(cores: seq<Core>): nat {
    if cores == [] then 0 else CoreSize(cores[0]) + CoresSize(cores[1..])
  }

  function Size(s: State): nat {
    |s.free| + CoresSize(s.cores) + |s.held|
  }

  lemma {:induction false} UpdateSize(cores: seq<Core>, i: nat, core: Core)
    requires i < |cores|
    ensures CoresSize(cores[i := core]) + CoreSize(cores[i]) == CoresSize(cores) + CoreSize(core)
  {
    if i == 0 {
      assert cores[i := core][1..] == cores[1..];
    } else {
      assert cores[i := core][1..] == cores[1..][i - 1 := core];
      UpdateSize(cores[1..], i - 1, core);
    }
  }

  lemma {:induction false} SizeBelowAll(cores: seq<Core>, i: nat)
    requires i < |cores|
    ensures CoreSize(cores[i]) <= CoresSize(cores)
  {
    if i > 0 {
      SizeBelowAll(cores[1..], i - 1);
    }
  }

  lemma StepKeepsSize(s: State, st: Step)
    requires Enabled(s, st)
    ensures Size(Apply(s, st)) == Size(s)
  {
    var t := Apply(s, st);
    UpdateSize(s.cores, st.c, t.cores[st.c]);
    assert t.cores == s.cores[st.c := t.cores[st.c]];
  }

  // ----- the invariant

  /** What each core looks like in each phase. */
  predicate CoreOk(core: Core, free: seq<Page>) {
    match core.pc
    case Idle => |core.stack| <= LOCAL_CAPACITY && core.transit == []
    case Loading(m) => core.stack == [] && |core.transit| == m <= REFILL_BATCH && (m == 0 ==> free != [])
    case Popping => 1 <= |core.stack| <= REFILL_BATCH && core.transit == []
    case Storing(_, m) => m <= SPILL_BATCH && |core.stack| == LOCAL_CAPACITY - m && core.transit == []
  }

  predicate Locking(core: Core) {
    core.pc.Loading? || core.pc.Storing?
  }

  predicate Phases(s: State) {
    && -1 <= s.lock < |s.cores|
    && (forall i :: 0 <= i < |s.cores| ==> CoreOk(s.cores[i], s.free))
    && (forall i :: 0 <= i < |s.cores| ==> (Locking(s.cores[i]) <==> s.lock == i))
  }

  /** A page is in at most one place. */
  ghost predicate NoDuplicates(s: State) {
    forall x: Page :: Tally(s, x) <= 1
  }

  ghost predicate Inv(s: State) {
    && Phases(s)
    && NoDuplicates(s)
    && Size(s) == s.capacity
    && !s.panic.StackOverflow?
  }

  /** One core has moved on; the others keep their phases if the lock is not taken from them and nobody empties the
      stack they are about to load from. */
  lemma OneCoreMoves(s: State, t: State, c: nat)
    requires Phases(s) && c < |s.cores| == |t.cores| && t.cores == s.cores[c := t.cores[c]] && -1 <= t.lock < |s.cores|
    requires CoreOk(t.cores[c], t.free) && (Locking(t.cores[c]) <==> t.lock == c)
    requires s.lock == t.lock || (s.lock == -1 && t.lock == c) || (s.lock == c && t.lock == -1)
    requires t.free == s.free || s.lock == c || s.lock == -1
    ensures Phases(t)
  {
    forall i | 0 <= i < |t.cores|
      ensures CoreOk(t.cores[i], t.free) && (Locking(t.cores[i]) <==> t.lock == i)
    {
      assert CoreOk(s.cores[i], s.free) && (Locking(s.cores[i]) <==> s.lock == i);
    }
  }

  lemma RefillKeepsPhases(s: State, st: Step)
    requires Phases(s) && Enabled(s, st)
    requires st.AllocFast? || st.AllocBegin? || st.LoadOne? || st.LoadEnd? || st.AllocPop?
    ensures Phases(Apply(s, st))
  {
    StepTouchesOneCore(s, st);
    assert CoreOk(s.cores[st.c], s.free) && (Locking(s.cores[st.c]) <==> s.lock == st.c);
    OneCoreMoves(s, Apply(s, st), st.c);
  }

  lemma SpillKeepsPhases(s: State, st: Step)
    requires Phases(s) && Enabled(s, st)
    requires st.FreeFast? || st.FreeBegin? || st.StoreOne? || st.StoreEnd? || st.DirectAlloc? || st.DirectFree?
    ensures Phases(Apply(s, st))
  {
    StepTouchesOneCore(s, st);
    assert CoreOk(s.cores[st.c], s.free) && (Locking(s.cores[st.c]) <==> s.lock == st.c);
    OneCoreMoves(s, Apply(s, st), st.c);
  }

  lemma StepKeepsPhases(s: State, st: Step)
    requires Phases(s) && Enabled(s, st)
    ensures Phases(Apply(s, st))
  {
    if st.AllocFast? || st.AllocBegin? || st.LoadOne? || st.LoadEnd? || st.AllocPop? {
      RefillKeepsPhases(s, st);
    } else {
      SpillKeepsPhases(s, st);
    }
  }

  /** The global stack never outgrows its area, so neither panic of the free paths can be reached. */
  lemma StepDoesNotOverflow(s: State, st: Step)
    requires Inv(s) && Enabled(s, st)
    ensures !Apply(s, st).panic.StackOverflow?
  {
    SizeBelowAll(s.cores, st.c);
  }

  lemma StepKeepsInv(s: State, st: Step)
    requires Inv(s) && Enabled(s, st)
    ensures Inv(Apply(s, st)) && Apply(s, st).capacity == s.capacity && |Apply(s, st).cores| == |s.cores|
  {
    StepKeepsPhases(s, st);
    StepDoesNotOverflow(s, st);
    StepKeepsSize(s, st);
    forall x: Page
      ensures Tally(Apply(s, st), x) <= 1
    {
      StepConserves(s, st, x);
    }
  }

  // ----- whole runs

  /** Boot fills the global stack with distinct free pages. */
  predicate Init(s: State) {
    && (forall i, j :: 0 <= i < j < |s.free| ==> s.free[i] != s.free[j])
    && s.capacity == |s.free|
    && s.lock == -1
    && (forall i :: 0 <= i < |s.cores| ==> s.cores[i] == Core([], [], Idle))
    && s.held == multiset{}
    && s.panic == Running
  }

  /** `steps` can be taken one after another from `s`, in any interleaving of the cores. */
  predicate CanRun(s: State, steps: seq<Step>)
    decreases |steps|
  {
    steps == [] || (Enabled(s, steps[0]) && CanRun(Apply(s, steps[0]), steps[1..]))
  }

  function Run(s: State, steps: seq<Step>): State
    requires CanRun(s, steps)
    decreases |steps|
  {
    if steps == [] then s else Run(Apply(s, steps[0]), steps[1..])
  }

  lemma {:induction false} EmptyCores(cores: seq<Core>)
    requires forall i :: 0 <= i < |cores| ==> cores[i] == Core([], [], Idle)
    ensures CoresSize(cores) == 0 && forall x: Page :: CoresTally(cores, x) == 0
  {
    if cores != [] {
      EmptyCores(cores[1..]);
    }
  }

  lemma {:induction false} DistinctOccurs(s: seq<Page>, x: Page)
    requires forall i, j :: 0 <= i < j < |s| ==> s[i] != s[j]
    ensures Occurs(s, x) == if x in s then 1 else 0
  {
    if s != [] {
      DistinctOccurs(Pop(s), x);
    }
  }

  lemma InitEstablishesInv(s: State)
    requires Init(s)
    ensures Inv(s) && forall x: Page :: Tally(s, x) == if x in s.free then 1 else 0
  {
    EmptyCores(s.cores);
    forall x: Page
      ensures Tally(s, x) == if x in s.free then 1 else 0
    {
      DistinctOccurs(s.free, x);
    }
  }

  lemma {:induction false} RunKeepsInv(s: State, steps: seq<Step>)
    requires Inv(s) && CanRun(s, steps)
    ensures Inv(Run(s, steps)) && Run(s, steps).capacity == s.capacity && |Run(s, steps).cores| == |s.cores|
    ensures forall x: Page :: Tally(Run(s, steps), x) == Tally(s, x)
    decreases |steps|
  {
    if steps != [] {
      StepKeepsInv(s, steps[0]);
      RunKeepsInv(Apply(s, steps[0]), steps[1..]);
      forall x: Page
        ensures Tally(Apply(s, steps[0]), x) == Tally(s, x)
      {
        StepConserves(s, steps[0], x);
      }
    }
  }

  /** Page conservation over every run of every interleaving: each boot page is in exactly one of the
      global stack, a local stack, transit, or a caller's hands, and nothing else is in any of them. */
  lemma PagesArePartitioned(s: State, steps: seq<Step>, x: Page)
    requires Init(s) && CanRun(s, steps)
    ensures Tally(Run(s, steps), x) == if x in s.free then 1 else 0
  {
    InitEstablishesInv(s);
    RunKeepsInv(s, steps);
  }

  /** The page an allocating step takes out of a stack. */
  function Taken(s: State, st: Step): Page
    requires Enabled(s, st)
    requires st.AllocFast? || st.AllocPop? || (st.DirectAlloc? && s.free != [])
  {
    if st.DirectAlloc? then Top(s.free) else Top(s.cores[st.c].stack)
  }

  /** No allocation, in any reachable state, hands out a page some caller still holds. */
  lemma HeldPageIsNotHandedOutAgain(s: State, steps: seq<Step>, st: Step)
    requires Init(s) && CanRun(s, steps) && Enabled(Run(s, steps), st)
    requires st.AllocFast? || st.AllocPop? || (st.DirectAlloc? && Run(s, steps).free != [])
    ensures var t := Run(s, steps);
            var p := Taken(t, st);
            p !in t.held && p in s.free && Apply(t, st).held == t.held + multiset{p}
  {
    var t := Run(s, steps);
    var p := Taken(t, st);
    PagesArePartitioned(s, steps, p);
    CoreBelowAll(t.cores, st.c, p);
  }

  /** No run whose callers free only what they hold reaches the overflow panic. */
  lemma OverflowPanicIsUnreachable(s: State, steps: seq<Step>)
    requires Init(s) && CanRun(s, steps)
    ensures !Run(s, steps).panic.StackOverflow?
    ensures |Run(s, steps).free| <= |s.free|
  {
    InitEstablishesInv(s);
    RunKeepsInv(s, steps);
  }

  lemma {:induction false} HoardBound(cores: seq<Core>)
    requires forall i :: 0 <= i < |cores| ==> CoreSize(cores[i]) <= LOCAL_CAPACITY
    ensures CoresSize(cores) <= LOCAL_CAPACITY * |cores|
  {
    if cores != [] {
      HoardBound(cores[1..]);
    }
  }

  /** When a run stops for lack of pages the global stack is empty, nobody holds the lock, every core
      hoards at most 255 pages, and callers hold all the rest. A refilling core itself hoards none. */
  lemma OutOfPagesHoard(s: State, steps: seq<Step>, st: Step)
    requires Init(s) && CanRun(s, steps)
    requires Enabled(Run(s, steps), st) && Apply(Run(s, steps), st).panic.OutOfPages?
    ensures var t := Run(s, steps);
            && t.free == [] && t.lock == -1
            && (forall i :: 0 <= i < |t.cores| ==> CoreSize(t.cores[i]) <= LOCAL_CAPACITY)
            && (st.AllocBegin? ==> CoreSize(t.cores[st.c]) == 0)
            && |t.held| + LOCAL_CAPACITY * |s.cores| >= |s.free|
  {
    var t := Run(s, steps);
    InitEstablishesInv(s);
    RunKeepsInv(s, steps);
    assert forall i :: 0 <= i < |t.cores| ==> !Locking(t.cores[i]) && CoreOk(t.cores[i], t.free);
    HoardBound(t.cores);
  }
}
