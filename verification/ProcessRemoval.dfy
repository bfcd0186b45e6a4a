/** Core 0 takes a process out of the list the other cores are walking.
    Every core walks with its own cursor, which its lock protects; new processes are pushed at the head.
    Cores that create something count processes along the same list, without a lock.
    Source: source/kernel/hardware/devices/cpu/scheduler.c:82-95, 117-125, 212-227, 911-1003 */
module ProcessRemoval {
  import opened Chain

  /** Where a core is in its walk. Core 0 goes on from `Looking` when it finds a process without threads. */
  datatype Pc =
    | Idle
    | Locked
    | Got(prev: int, temp: int)
    | Looking(prev: int)
    | Repairing(victim: nat, core: nat)
    | Holding(victim: nat, core: nat)
    | Repaired(victim: nat, core: nat)
    | Cleared(victim: nat)

  /** What freeing a process leaves in its first word, the link: the head of a list of blocks to be freed. */
  const JUNK: int := -2

  /** `next` and `freed` are per process; `cursors`, `locks` (the holder, or NIL), `pcs` and `readers` (where a core
      counting processes stands) per core. `order` is the list from the head on; no step looks at it. */
  datatype State = State(
    head: int,
    next: seq<int>,
    freed: seq<bool>,
    cursors: seq<int>,
    locks: seq<int>,
    pcs: seq<Pc>,
    readers: seq<int>,
    order: seq<nat>)

  /** `Remove` is taken by core 0 instead of `Advance` when the process it looks at has no threads; `Count` is one
      move of a core that counts processes. */
  datatype Step = Push | Lock(core: nat) | Advance(core: nat) | Remove | Count(core: nat)

  // ----- the invariant

  predicate Unfreed(s: State, p: nat)
    requires |s.freed| == |s.next|
  {
    p < |s.freed| && !s.freed[p]
  }

  predicate Listed(s: State)
    requires |s.freed| == |s.next|
  {
    Chained(s.head, s.next, s.order) && forall p :: p in s.order ==> Unfreed(s, p)
  }

  predicate InList(s: State, p: int) {
    p == NIL || (p >= 0 && p in s.order)
  }

  /** The process being removed, if its removal has begun and it is not freed yet. */
  function Victim(pc: Pc): int {
    match pc
    case Repairing(v, _) => v
    case Holding(v, _) => v
    case Repaired(v, _) => v
    case Cleared(v) => v
    case _ => NIL
  }

  /** Core `i` may still be on the way over the victim: it has not been repaired. */
  predicate Unrepaired(pc: Pc, i: nat) {
    match pc
    case Repairing(_, j) => i >= j || i == 0
    case Holding(_, j) => i >= j || i == 0
    case Repaired(_, j) => i > j || i == 0
    case _ => false
  }

  predicate PointsWell(s: State, p: int, i: nat)
    requires |s.pcs| > 0
  {
    InList(s, p) || (p != NIL && p == Victim(s.pcs[0]) && Unrepaired(s.pcs[0], i))
  }

  predicate CoreOk(s: State, i: nat)
    requires i < |s.pcs| == |s.cursors| == |s.locks| && |s.freed| == |s.next|
  {
    && PointsWell(s, s.cursors[i], i)
    && (s.pcs[i].Got? ==> s.pcs[i].prev == s.cursors[i] && PointsWell(s, s.pcs[i].temp, i))
    && (i != 0 ==> Victim(s.pcs[i]) == NIL)
  }

  /** Lock `i` is held by core `i` while it walks and by core 0 while it repairs. */
  predicate LockOk(s: State, i: nat)
    requires i < |s.pcs| == |s.cursors| == |s.locks|
  {
    && (s.locks[i] == i <==> !s.pcs[i].Idle?)
    && (s.locks[i] == NIL || s.locks[i] == i || s.locks[i] == 0)
    && (i != 0 ==> (s.locks[i] == 0 <==> (s.pcs[0].Holding? || s.pcs[0].Repaired?) && s.pcs[0].core == i))
  }

  /** What core 0 knows while it looks or removes: the process before its cursor still points at it. */
  predicate RemoverOk(s: State)
    requires 0 < |s.pcs| == |s.cursors| && |s.freed| == |s.next|
  {
    match s.pcs[0]
    case Got(prev, temp) => prev == NIL || temp == SuccessorOf(s, prev)
    case Looking(prev) => InList(s, prev) && (prev == NIL || s.cursors[0] == SuccessorOf(s, prev))
    case Repairing(v, j) => VictimOk(s, v) && 1 <= j <= |s.pcs|
    case Holding(v, j) => VictimOk(s, v) && 1 <= j < |s.pcs|
    case Repaired(v, j) => VictimOk(s, v) && 1 <= j < |s.pcs|
    case Cleared(v) => VictimOk(s, v)
    case _ => true
  }

  function SuccessorOf(s: State, p: int): int {
    if 0 <= p < |s.next| then s.next[p] else NIL
  }

  /** The victim is out of the list, not freed, and still leads back into it. */
  predicate VictimOk(s: State, v: nat)
    requires |s.freed| == |s.next|
  {
    v < |s.next| && v !in s.order && !s.freed[v] && InList(s, s.next[v])
  }

  predicate Inv(s: State) {
    && 0 < |s.pcs| == |s.cursors| == |s.locks| == |s.readers|
    && |s.freed| == |s.next|
    && Listed(s)
    && (forall i :: 0 <= i < |s.pcs| ==> CoreOk(s, i))
    && (forall i :: 0 <= i < |s.pcs| ==> LockOk(s, i))
    && RemoverOk(s)
  }

  // ----- the steps

  predicate Enabled(s: State, step: Step)
    requires Inv(s)
  {
    match step
    case Push => true
    case Lock(i) => i < |s.pcs| && s.pcs[i].Idle? && s.locks[i] == NIL
    case Advance(i) =>
      i < |s.pcs| && !s.pcs[i].Idle? &&
      (s.pcs[i].Repairing? && s.pcs[i].core < |s.pcs| ==> s.locks[s.pcs[i].core] == NIL)
    case Remove => s.pcs[0].Looking? && s.cursors[0] != NIL
    case Count(i) => i < |s.pcs| && s.pcs[i].Idle?
  }

  /** A new process, linked before the head. */
  function Pushed(s: State): State {
    s.(head := |s.next|, next := s.next + [s.head], freed := s.freed + [false], order := [|s.next|] + s.order)
  }

  function At(s: State, i: nat, pc: Pc): State
    requires i < |s.pcs|
  {
    s.(pcs := s.pcs[i := pc])
  }

  function Advanced(s: State, i: nat): State
    requires Inv(s) && Enabled(s, Advance(i))
  {
    match s.pcs[i]
    case Locked =>
      At(s, i, Got(s.cursors[i], if s.cursors[i] == NIL then s.head else SuccessorOf(s, s.cursors[i])))
    case Got(prev, temp) => At(s.(cursors := s.cursors[i := temp]), i, Looking(prev))
    case Looking(_) => At(s.(locks := s.locks[i := NIL]), i, Idle)
    case Repairing(v, j) =>
      if j < |s.pcs| then At(s.(locks := s.locks[j := 0]), i, Holding(v, j))
      else At(s.(cursors := s.cursors[i := NIL]), i, Cleared(v))
    case Holding(v, j) =>
      if i == 0 && 0 <= j < |s.cursors| && s.cursors[j] == v
      then At(s.(cursors := s.cursors[j := SuccessorOf(s, v)]), i, Repaired(v, j))
      else At(s, i, Repaired(v, j))
    case Repaired(v, j) =>
      if j < |s.locks| then At(s.(locks := s.locks[j := NIL]), i, Repairing(v, j + 1)) else s
    case Cleared(v) =>
      if v < |s.freed| == |s.next| then At(s.(freed := s.freed[v := true], next := s.next[v := JUNK]), i, Looking(NIL))
      else s
  }

  /** Takes the process core 0 looks at out of the list: behind `prev`, or, when the walk had just begun at the
      head, from wherever it has come to stand since. */
  function Unlinked(s: State): State
    requires Inv(s) && Enabled(s, Remove)
  {
    var v := s.cursors[0];
    var prev := s.pcs[0].prev;
    var t := s.(order := if v >= 0 then Without(s.order, v) else s.order);
    var after := SuccessorOf(s, v);
    if v < 0 then s
    else if prev == NIL && s.head == v then t.(head := after)
    else
      var pred := if prev == NIL then Before(s.next, s.head, v, |s.next|) else prev;
      if 0 <= pred < |s.next| then t.(next := s.next[pred := after]) else t
  }

  function Apply(s: State, step: Step): State
    requires Inv(s) && Enabled(s, step)
  {
    match step
    case Push => Pushed(s)
    case Lock(i) => At(s.(locks := s.locks[i := i]), i, Locked)
    case Advance(i) => Advanced(s, i)
    case Remove => if s.cursors[0] < 0 then s else At(Unlinked(s), 0, Repairing(s.cursors[0], 1))
    case Count(i) =>
      s.(readers := s.readers[i := if s.readers[i] == NIL then s.head else SuccessorOf(s, s.readers[i])])
  }

  /** `cores` cores, none of them walking, and no process. */
  function Start(cores: nat): State
    requires cores > 0
  {
    State(NIL, [], [], seq(cores, i => NIL), seq(cores, i => NIL), seq(cores, i => Idle),
          seq(cores, i => NIL), [])
  }

  // ----- the list under unlinking

  /** The victim stands at some place of the list, and whichever way it is found, the list closes over it. */
  lemma {:induction false} UnlinkCloses(s: State, k: nat)
    requires Inv(s) && Enabled(s, Remove) && k < |s.order| && s.order[k] == s.cursors[0]
    ensures s.order[k] < |s.next| && (k > 0 ==> s.order[k - 1] < |s.next|)
    ensures Unlinked(s) == s.(head := HeadWithout(s.head, s.next, s.order, k), next := NextWithout(s.next, s.order, k),
                              order := Without(s.order, s.order[k]))
  {
    assert Link(s.next, s.order, k);
    var prev := s.pcs[0].prev;
    if prev == NIL {
      if k > 0 {
        ChainFits(s.head, s.next, s.order);
        WalkFinds(s.head, s.next, s.order, 0, k, |s.next|);
        assert Link(s.next, s.order, k - 1);
      }
    } else {
      var l := IndexIn(s.order, prev);
      assert Link(s.next, s.order, l);
      assert s.next[prev] == s.order[k];
      assert l + 1 == k;
    }
  }

  lemma {:induction false} ListedAfterUnlink(s: State, k: nat)
    requires Inv(s) && Enabled(s, Remove) && k < |s.order| && s.order[k] == s.cursors[0]
    ensures var t := Unlinked(s);
            |t.freed| == |t.next| && Listed(t) && VictimOk(t, s.order[k])
  {
    UnlinkCloses(s, k);
    UnlinkChained(s.head, s.next, s.order, k);
    LeadsBack(s.head, s.next, s.order, k);
    var t := Unlinked(s);
    var v := s.order[k];
    assert Unfreed(s, v) && t.next[v] == s.next[v];
    assert forall p :: p in t.order ==> Unfreed(s, p) && Unfreed(t, p);
  }

  // ----- every step keeps the invariant

  lemma {:induction false} PushKeepsInv(s: State)
    requires Inv(s)
    ensures Inv(Pushed(s))
  {
    var t := Pushed(s);
    PushChained(s.head, s.next, s.order);
    assert forall p :: p in s.order ==> Unfreed(s, p) && p in t.order;
    assert forall p :: p in t.order ==> p == |s.next| || p in s.order;
    assert forall p :: p in t.order ==> Unfreed(t, p);
    forall i | 0 <= i < |s.pcs|
      ensures CoreOk(t, i) && LockOk(t, i)
    {
      assert CoreOk(s, i) && LockOk(s, i);
    }
    assert CoreOk(s, 0);
    assert forall p: nat :: p in s.order ==> p < |s.next|;
  }

  lemma {:induction false} ReadKeepsInv(s: State, i: nat)
    requires Inv(s) && Enabled(s, Advance(i)) && s.pcs[i].Locked?
    ensures Inv(Advanced(s, i))
  {
    var t := Advanced(s, i);
    NextIsKnown(s, i);
    assert forall p :: p in t.order ==> Unfreed(s, p) && Unfreed(t, p);
    forall j | 0 <= j < |s.pcs|
      ensures CoreOk(t, j) && LockOk(t, j)
    {
      assert CoreOk(s, j) && LockOk(s, j);
    }
  }

  lemma {:induction false} WalkKeepsInv(s: State, i: nat)
    requires Inv(s) && Enabled(s, Advance(i)) && (s.pcs[i].Got? || s.pcs[i].Looking?)
    ensures Inv(Advanced(s, i))
  {
    var t := Advanced(s, i);
    assert CoreOk(s, i) && LockOk(s, i) && CoreOk(s, 0);
    assert forall p :: p in t.order ==> Unfreed(s, p) && Unfreed(t, p);
    forall j | 0 <= j < |s.pcs|
      ensures CoreOk(t, j) && LockOk(t, j)
    {
      assert CoreOk(s, j) && LockOk(s, j);
    }
  }

  /** What the walk reads next is in the list, or the victim, or where the victim leads. */
  lemma {:induction false} NextIsKnown(s: State, i: nat)
    requires Inv(s) && i < |s.pcs|
    ensures PointsWell(s, if s.cursors[i] == NIL then s.head else SuccessorOf(s, s.cursors[i]), i)
    ensures s.cursors[i] != NIL ==> 0 <= s.cursors[i] < |s.next| && !s.freed[s.cursors[i]]
  {
    assert CoreOk(s, i);
    var p := s.cursors[i];
    if p != NIL && InList(s, p) {
      var k := IndexIn(s.order, p);
      assert Link(s.next, s.order, k) && Unfreed(s, p);
    }
  }

  lemma {:induction false} LockKeepsInv(s: State, i: nat)
    requires Inv(s) && Enabled(s, Lock(i))
    ensures Inv(Apply(s, Lock(i)))
  {
    var t := Apply(s, Lock(i));
    assert forall p :: p in t.order ==> Unfreed(s, p) && Unfreed(t, p);
    forall j | 0 <= j < |s.pcs|
      ensures CoreOk(t, j) && LockOk(t, j)
    {
      assert CoreOk(s, j) && LockOk(s, j);
    }
  }

  lemma {:induction false} CountKeepsInv(s: State, i: nat)
    requires Inv(s) && Enabled(s, Count(i))
    ensures Inv(Apply(s, Count(i)))
  {
    var t := Apply(s, Count(i));
    assert forall p :: p in t.order ==> Unfreed(s, p) && Unfreed(t, p);
    forall j | 0 <= j < |s.pcs|
      ensures CoreOk(t, j) && LockOk(t, j)
    {
      assert CoreOk(s, j) && LockOk(s, j);
    }
  }

  lemma {:induction false} RepairKeepsInv(s: State)
    requires Inv(s) && Enabled(s, Advance(0)) && (s.pcs[0].Repairing? || s.pcs[0].Holding? || s.pcs[0].Repaired?)
    ensures Inv(Advanced(s, 0))
  {
    var t := Advanced(s, 0);
    assert CoreOk(s, 0) && LockOk(s, 0);
    assert forall p :: p in t.order ==> Unfreed(s, p) && Unfreed(t, p);
    var v := Victim(s.pcs[0]);
    forall j | 0 <= j < |s.pcs|
      ensures CoreOk(t, j) && LockOk(t, j)
    {
      assert CoreOk(s, j) && LockOk(s, j);
    }
  }

  lemma {:induction false} FreeKeepsInv(s: State)
    requires Inv(s) && s.pcs[0].Cleared?
    ensures Inv(Advanced(s, 0))
  {
    var t := Advanced(s, 0);
    assert CoreOk(s, 0) && LockOk(s, 0);
    forall p | p in t.order ensures Unfreed(t, p) { assert Unfreed(s, p); }
    forall k | 0 <= k < |s.order| ensures Link(t.next, t.order, k) { assert Link(s.next, s.order, k); }
    forall j | 0 <= j < |s.pcs|
      ensures CoreOk(t, j) && LockOk(t, j)
    {
      assert CoreOk(s, j) && LockOk(s, j);
    }
  }

  lemma {:induction false} CoreAfterRemove(s: State, t: State, v: nat, j: nat)
    requires |s.freed| == |s.next| && |t.freed| == |t.next|
    requires j < |s.pcs| == |s.cursors| == |s.locks| && CoreOk(s, j) && LockOk(s, j) && LockOk(s, 0)
    requires s.pcs[0].Looking? && t.cursors == s.cursors && t.locks == s.locks && t.pcs == s.pcs[0 := Repairing(v, 1)]
    requires forall p :: p in s.order && p != v ==> p in t.order
    ensures CoreOk(t, j) && LockOk(t, j)
  {
  }

  lemma {:induction false} RemoveKeepsInv(s: State)
    requires Inv(s) && Enabled(s, Remove)
    ensures s.cursors[0] >= 0 && Inv(Apply(s, Remove))
  {
    assert CoreOk(s, 0) && LockOk(s, 0);
    var v := s.cursors[0];
    var k := IndexIn(s.order, v);
    UnlinkCloses(s, k);
    ListedAfterUnlink(s, k);
    var u := Unlinked(s);
    var t := Apply(s, Remove);
    assert forall p :: p in t.order ==> Unfreed(u, p) && Unfreed(t, p);
    UnlinkChained(s.head, s.next, s.order, k);
    forall p | p in s.order && p != v
      ensures p in t.order
    {
      OthersStay(s.order, k, p);
    }
    forall j | 0 <= j < |s.pcs|
      ensures CoreOk(t, j) && LockOk(t, j)
    {
      assert CoreOk(s, j) && LockOk(s, j);
      CoreAfterRemove(s, t, v, j);
    }
  }

  lemma {:induction false} StepKeepsInv(s: State, step: Step)
    requires Inv(s) && Enabled(s, step)
    ensures Inv(Apply(s, step))
  {
    match step {
      case Push => PushKeepsInv(s);
      case Lock(i) => LockKeepsInv(s, i);
      case Remove => RemoveKeepsInv(s);
      case Count(i) => CountKeepsInv(s, i);
      case Advance(i) =>
        assert CoreOk(s, i);
        if s.pcs[i].Locked? {
          ReadKeepsInv(s, i);
        } else if s.pcs[i].Got? || s.pcs[i].Looking? {
          WalkKeepsInv(s, i);
        } else if s.pcs[i].Cleared? {
          FreeKeepsInv(s);
        } else {
          RepairKeepsInv(s);
        }
    }
  }

  // ----- runs

  ghost predicate CanRun(s: State, steps: seq<Step>)
    decreases |steps|
  {
    steps == [] || (Inv(s) && Enabled(s, steps[0]) && CanRun(Apply(s, steps[0]), steps[1..]))
  }

  function Run(s: State, steps: seq<Step>): State
    requires CanRun(s, steps)
    decreases |steps|
  {
    if steps == [] then s else Run(Apply(s, steps[0]), steps[1..])
  }

  lemma {:induction false} RunKeepsInv(s: State, steps: seq<Step>)
    requires Inv(s) && CanRun(s, steps)
    ensures Inv(Run(s, steps))
    decreases |steps|
  {
    if steps != [] {
      StepKeepsInv(s, steps[0]);
      RunKeepsInv(Apply(s, steps[0]), steps[1..]);
    }
  }

  /** The invariant inside `CanRun` makes the steps well defined and never excludes one: any run can be followed
      by any step that is enabled where it ends. */
  lemma {:induction false} RunExtends(s: State, steps: seq<Step>, step: Step)
    requires Inv(s) && CanRun(s, steps) && Inv(Run(s, steps)) && Enabled(Run(s, steps), step)
    ensures CanRun(s, steps + [step]) && Run(s, steps + [step]) == Apply(Run(s, steps), step)
    decreases |steps|
  {
    if steps == [] {
      assert ([] + [step])[1..] == [] && ([] + [step])[0] == step;
      assert CanRun(Apply(s, step), []);
    } else {
      StepKeepsInv(s, steps[0]);
      RunExtends(Apply(s, steps[0]), steps[1..], step);
      assert (steps + [step])[1..] == steps[1..] + [step];
    }
  }

  lemma {:induction false} StartIsOk(cores: nat)
    requires cores > 0
    ensures Inv(Start(cores))
  {
  }

  predicate Alive(s: State, p: int)
    requires |s.freed| == |s.next|
  {
    p == NIL || (0 <= p < |s.next| && !s.freed[p])
  }

  lemma {:induction false} WellPointedIsAlive(s: State, p: int, i: nat)
    requires Inv(s) && PointsWell(s, p, i)
    ensures Alive(s, p)
  {
    if p != NIL && InList(s, p) {
      var k := IndexIn(s.order, p);
      assert Link(s.next, s.order, k) && Unfreed(s, p);
    }
  }

  /** In every reachable state every core's cursor, and what it is about to put there, is NULL or a process
      that has not been freed. */
  lemma {:induction false} CursorsAreAlive(cores: nat, steps: seq<Step>, i: nat)
    requires cores > 0 && CanRun(Start(cores), steps)
    ensures var t := Run(Start(cores), steps);
            |t.freed| == |t.next| && (i < |t.pcs| == |t.cursors| ==>
              Alive(t, t.cursors[i]) && (t.pcs[i].Got? ==> Alive(t, t.pcs[i].temp)))
  {
    StartIsOk(cores);
    RunKeepsInv(Start(cores), steps);
    var t := Run(Start(cores), steps);
    if i < |t.pcs| {
      assert CoreOk(t, i);
      WellPointedIsAlive(t, t.cursors[i], i);
      if t.pcs[i].Got? { WellPointedIsAlive(t, t.pcs[i].temp, i); }
    }
  }

  // ----- the removed process is out of reach

  /** Neither a cursor, nor what a core is about to put there, nor the list leads to `p`. */
  ghost predicate OutOfReach(s: State, p: nat) {
    && |s.cursors| == |s.pcs|
    && p !in s.order
    && (forall i :: 0 <= i < |s.cursors| ==> NotAt(s, i, p))
    && (forall q :: q in s.order ==> SuccessorOf(s, q) != p)
    && p < |s.next|
  }

  predicate NotAt(s: State, i: nat, p: nat)
    requires i < |s.cursors| == |s.pcs|
  {
    s.cursors[i] != p && (s.pcs[i].Got? ==> s.pcs[i].temp != p && s.pcs[i].prev != p)
  }

  /** When the repair loop has ended and core 0 has cleared its own cursor, no walk of a scheduler and no new walk
      along the list can come to the process. */
  lemma {:induction false} RepairedIsOutOfReach(s: State)
    requires Inv(s) && s.pcs[0].Cleared?
    ensures OutOfReach(s, s.pcs[0].victim)
  {
    var v := s.pcs[0].victim;
    forall i | 0 <= i < |s.cursors|
      ensures NotAt(s, i, v)
    {
      assert CoreOk(s, i);
    }
    forall q | q in s.order
      ensures SuccessorOf(s, q) != v
    {
      var k := IndexIn(s.order, q);
      assert Link(s.next, s.order, k);
    }
  }

  /** A freed process stays out of reach of the schedulers for good. */
  lemma {:induction false} FreedIsOutOfReach(s: State, p: nat)
    requires Inv(s) && p < |s.freed| && s.freed[p]
    ensures OutOfReach(s, p)
  {
    forall k | 0 <= k < |s.order|
      ensures s.order[k] != p && SuccessorOf(s, s.order[k]) != p
    {
      assert Link(s.next, s.order, k) && Unfreed(s, s.order[k]);
      if k + 1 < |s.order| { assert Unfreed(s, s.order[k + 1]); }
    }
    forall q | q in s.order
      ensures q != p && SuccessorOf(s, q) != p
    {
      var k := IndexIn(s.order, q);
    }
    forall i | 0 <= i < |s.cursors|
      ensures NotAt(s, i, p)
    {
      assert CoreOk(s, i);
      WellPointedIsAlive(s, s.cursors[i], i);
      if s.pcs[i].Got? { WellPointedIsAlive(s, s.pcs[i].temp, i); }
    }
  }

  lemma {:induction false} FreedStaysFreed(s: State, steps: seq<Step>, p: nat)
    requires Inv(s) && CanRun(s, steps) && p < |s.freed| && s.freed[p]
    ensures var t := Run(s, steps); p < |t.freed| && t.freed[p] && OutOfReach(t, p)
    decreases |steps|
  {
    if steps == [] {
      FreedIsOutOfReach(s, p);
    } else {
      StepKeepsInv(s, steps[0]);
      FreedStaysFreed(Apply(s, steps[0]), steps[1..], p);
    }
  }

  /** The repair never waits in vain: if the lock it needs is taken, its holder can go on and does not wait. */
  lemma {:induction false} RepairIsNotStuck(s: State)
    requires Inv(s) && s.pcs[0].Repairing?
    ensures Enabled(s, Advance(0)) || Enabled(s, Advance(s.pcs[0].core))
  {
    if s.pcs[0].core < |s.pcs| {
      assert LockOk(s, s.pcs[0].core) && CoreOk(s, s.pcs[0].core);
    }
  }

  // ----- the readers that take no lock

  /** A counting core stands nowhere, in the list, or on the process being removed. */
  predicate ReaderOk(s: State, i: nat)
    requires 0 < |s.pcs| == |s.readers| && i < |s.readers|
  {
    InList(s, s.readers[i]) || (s.readers[i] != NIL && s.readers[i] == Victim(s.pcs[0]))
  }

  ghost predicate ReadersOk(s: State)
    requires 0 < |s.pcs| == |s.readers|
  {
    forall i :: 0 <= i < |s.readers| ==> ReaderOk(s, i)
  }

  /** The process is freed while a counting core stands on it. */
  predicate FreesUnderReader(s: State, step: Step)
    requires 0 < |s.pcs|
  {
    step == Advance(0) && s.pcs[0].Cleared? && exists i :: 0 <= i < |s.readers| && s.readers[i] == s.pcs[0].victim
  }

  lemma {:induction false} ReaderIsAlive(s: State, i: nat)
    requires Inv(s) && i < |s.readers| && ReaderOk(s, i)
    ensures Alive(s, s.readers[i])
  {
    if s.readers[i] != NIL && InList(s, s.readers[i]) {
      var k := IndexIn(s.order, s.readers[i]);
      assert Link(s.next, s.order, k) && Unfreed(s, s.readers[i]);
    }
  }

  lemma {:induction false} CountKeepsReader(s: State, i: nat)
    requires Inv(s) && Enabled(s, Count(i)) && ReaderOk(s, i)
    ensures ReaderOk(Apply(s, Count(i)), i)
  {
    var p := s.readers[i];
    if p != NIL && InList(s, p) {
      var k := IndexIn(s.order, p);
      assert Link(s.next, s.order, k);
    }
  }

  lemma {:induction false} RemoveKeepsReader(s: State, i: nat)
    requires Inv(s) && Enabled(s, Remove) && i < |s.readers| && ReaderOk(s, i)
    ensures ReaderOk(Apply(s, Remove), i)
  {
    assert CoreOk(s, 0);
    var v := s.cursors[0];
    var k := IndexIn(s.order, v);
    UnlinkCloses(s, k);
    var t := Apply(s, Remove);
    assert t.pcs[0] == Repairing(v, 1) && t.order == Without(s.order, v);
    if s.readers[i] != NIL && s.readers[i] != v {
      UnlinkChained(s.head, s.next, s.order, k);
      OthersStay(s.order, k, s.readers[i]);
    }
  }

  lemma {:induction false} AdvanceKeepsReader(s: State, c: nat, i: nat)
    requires Inv(s) && Enabled(s, Advance(c)) && i < |s.readers| && ReaderOk(s, i)
    requires !(s.pcs[c].Cleared? && s.readers[i] == s.pcs[c].victim)
    ensures ReaderOk(Apply(s, Advance(c)), i)
  {
    assert CoreOk(s, c);
  }

  /** Every step keeps the counting cores on processes that are not freed if and only if it does not free one under
      them. */
  lemma {:induction false} StepKeepsReaders(s: State, step: Step)
    requires Inv(s) && Enabled(s, step) && ReadersOk(s)
    ensures Inv(Apply(s, step))
    ensures ReadersOk(Apply(s, step)) <==> !FreesUnderReader(s, step)
    ensures FreesUnderReader(s, step) ==> exists i :: 0 <= i < |s.readers| && OnFreed(Apply(s, step), i)
  {
    StepKeepsInv(s, step);
    var t := Apply(s, step);
    if FreesUnderReader(s, step) {
      var i :| 0 <= i < |s.readers| && s.readers[i] == s.pcs[0].victim;
      assert OnFreed(t, i) && !ReaderOk(t, i);
    } else {
      forall i | 0 <= i < |s.readers|
        ensures ReaderOk(t, i)
      {
        assert ReaderOk(s, i);
        if step.Count? && step.core == i {
          CountKeepsReader(s, i);
        } else if step.Remove? {
          RemoveKeepsReader(s, i);
        } else if step.Advance? {
          assert CoreOk(s, step.core);
          AdvanceKeepsReader(s, step.core, i);
        }
      }
    }
  }

  /** The core is about to read a freed process. */
  predicate OnFreed(s: State, i: int) {
    0 <= i < |s.readers| && 0 <= s.readers[i] < |s.freed| && s.freed[s.readers[i]]
  }

  /** No process is freed under a reader. */
  ghost predicate ReadersLeft(s: State, steps: seq<Step>)
    requires CanRun(s, steps)
    decreases |steps|
  {
    steps == [] || (!FreesUnderReader(s, steps[0]) && ReadersLeft(Apply(s, steps[0]), steps[1..]))
  }

  /** No reader is about to read a freed process. */
  ghost predicate ReadersSafe(s: State) {
    forall i :: 0 <= i < |s.readers| ==> !OnFreed(s, i)
  }

  /** So at every moment of the run. */
  ghost predicate SafeAlong(s: State, steps: seq<Step>)
    requires CanRun(s, steps)
    decreases |steps|
  {
    ReadersSafe(s) && (steps == [] || SafeAlong(Apply(s, steps[0]), steps[1..]))
  }

  lemma {:induction false} ReadersOkAreSafe(s: State)
    requires Inv(s) && ReadersOk(s)
    ensures ReadersSafe(s)
  {
    forall i | 0 <= i < |s.readers| ensures !OnFreed(s, i) { ReaderIsAlive(s, i); }
  }

  /** Over a whole run the counting cores read unfreed processes only, at every moment, if and only if no process is
      freed under one of them. */
  lemma {:induction false} RunKeepsReaders(s: State, steps: seq<Step>)
    requires Inv(s) && ReadersOk(s) && CanRun(s, steps)
    ensures SafeAlong(s, steps) <==> ReadersLeft(s, steps)
    ensures ReadersLeft(s, steps) ==> var t := Run(s, steps); Inv(t) && ReadersOk(t)
    decreases |steps|
  {
    ReadersOkAreSafe(s);
    if steps != [] {
      StepKeepsReaders(s, steps[0]);
      if FreesUnderReader(s, steps[0]) {
        assert !ReadersSafe(Apply(s, steps[0]));
      } else {
        RunKeepsReaders(Apply(s, steps[0]), steps[1..]);
      }
    }
  }

  // ----- a reader is overtaken

  /** One process, core 1 counting stands on it, and core 0 is at `pc` with its removal. */
  function Listed1(cursor: int, lock0: int, pc: Pc): State {
    State(0, [NIL], [false], [cursor, NIL], [lock0, NIL], [pc, Idle], [NIL, 0], [0])
  }

  function Removed1(cursor: int, lock1: int, pc: Pc): State {
    State(NIL, [NIL], [false], [cursor, NIL], [0, lock1], [pc, Idle], [NIL, 0], [])
  }

  /** The process is freed. */
  function Freed1(): State {
    State(NIL, [JUNK], [true], [NIL, NIL], [0, NIL], [Looking(NIL), Idle], [NIL, 0], [])
  }

  lemma {:induction false} RunStarts(s: State, step: Step, t: State, rest: seq<Step>)
    requires Inv(s) && Enabled(s, step) && Apply(s, step) == t && CanRun(t, rest)
    ensures CanRun(s, [step] + rest) && Run(s, [step] + rest) == Run(t, rest)
  {
    assert ([step] + rest)[1..] == rest;
  }

  predicate Hop(s: State, step: Step, t: State) {
    Inv(s) && Enabled(s, step) && Apply(s, step) == t && Inv(t)
  }

  lemma {:induction false} FindIt()
    ensures Inv(Listed1(NIL, NIL, Idle))
    ensures Hop(Listed1(NIL, NIL, Idle), Lock(0), Listed1(NIL, 0, Locked))
    ensures Hop(Listed1(NIL, 0, Locked), Advance(0), Listed1(NIL, 0, Got(NIL, 0)))
    ensures Hop(Listed1(NIL, 0, Got(NIL, 0)), Advance(0), Listed1(0, 0, Looking(NIL)))
  {
    var s := Listed1(NIL, NIL, Idle);
    assert Link(s.next, s.order, 0);
    assert CoreOk(s, 0) && CoreOk(s, 1) && LockOk(s, 0) && LockOk(s, 1);
    StepKeepsInv(s, Lock(0));
    assert Apply(s, Lock(0)) == Listed1(NIL, 0, Locked);
    StepKeepsInv(Listed1(NIL, 0, Locked), Advance(0));
    assert Apply(Listed1(NIL, 0, Locked), Advance(0)) == Listed1(NIL, 0, Got(NIL, 0));
    StepKeepsInv(Listed1(NIL, 0, Got(NIL, 0)), Advance(0));
    assert Apply(Listed1(NIL, 0, Got(NIL, 0)), Advance(0)) == Listed1(0, 0, Looking(NIL));
  }

  lemma {:induction false} RemoveIt()
    ensures Hop(Listed1(0, 0, Looking(NIL)), Remove, Removed1(0, NIL, Repairing(0, 1)))
    ensures Hop(Removed1(0, NIL, Repairing(0, 1)), Advance(0), Removed1(0, 0, Holding(0, 1)))
    ensures Hop(Removed1(0, 0, Holding(0, 1)), Advance(0), Removed1(0, 0, Repaired(0, 1)))
  {
    FindIt();
    var s := Listed1(0, 0, Looking(NIL));
    StepKeepsInv(s, Remove);
    assert Without([0], 0) == [];
    assert Apply(s, Remove) == Removed1(0, NIL, Repairing(0, 1));
    StepKeepsInv(Removed1(0, NIL, Repairing(0, 1)), Advance(0));
    assert Apply(Removed1(0, NIL, Repairing(0, 1)), Advance(0)) == Removed1(0, 0, Holding(0, 1));
    StepKeepsInv(Removed1(0, 0, Holding(0, 1)), Advance(0));
    assert Apply(Removed1(0, 0, Holding(0, 1)), Advance(0)) == Removed1(0, 0, Repaired(0, 1));
  }

  lemma {:induction false} ForgetIt()
    ensures Hop(Removed1(0, 0, Repaired(0, 1)), Advance(0), Removed1(0, NIL, Repairing(0, 2)))
    ensures Hop(Removed1(0, NIL, Repairing(0, 2)), Advance(0), Removed1(NIL, NIL, Cleared(0)))
    ensures Hop(Removed1(NIL, NIL, Cleared(0)), Advance(0), Freed1())
  {
    RemoveIt();
    var s := Removed1(0, 0, Repaired(0, 1));
    StepKeepsInv(s, Advance(0));
    assert Apply(s, Advance(0)) == Removed1(0, NIL, Repairing(0, 2));
    StepKeepsInv(Removed1(0, NIL, Repairing(0, 2)), Advance(0));
    assert Apply(Removed1(0, NIL, Repairing(0, 2)), Advance(0)) == Removed1(NIL, NIL, Cleared(0));
    StepKeepsInv(Removed1(NIL, NIL, Cleared(0)), Advance(0));
    assert Apply(Removed1(NIL, NIL, Cleared(0)), Advance(0)) == Freed1();
  }

  lemma {:induction false} CountIt()
    ensures Hop(Start(2), Push, Apply(Start(2), Push))
    ensures Hop(Apply(Start(2), Push), Count(1), Listed1(NIL, NIL, Idle))
  {
    StartIsOk(2);
    StepKeepsInv(Start(2), Push);
    var s := Apply(Start(2), Push);
    StepKeepsInv(s, Count(1));
    var t := Apply(s, Count(1));
    assert [0] + [] == [0] && [] + [NIL] == [NIL] && [] + [false] == [false];
    assert t == Listed1(NIL, NIL, Idle);
  }

  /** `n` times the next step of core 0's removal, then nothing. */
  function Advances(n: nat): seq<Step> {
    if n == 0 then [] else [Advance(0)] + Advances(n - 1)
  }

  lemma {:induction false} RemovalRuns()
    ensures CanRun(Listed1(0, 0, Looking(NIL)), [Remove] + Advances(5))
    ensures Run(Listed1(0, 0, Looking(NIL)), [Remove] + Advances(5)) == Freed1()
  {
    RemoveIt();
    ForgetIt();
    RunStarts(Removed1(NIL, NIL, Cleared(0)), Advance(0), Freed1(), Advances(0));
    RunStarts(Removed1(0, NIL, Repairing(0, 2)), Advance(0), Removed1(NIL, NIL, Cleared(0)), Advances(1));
    RunStarts(Removed1(0, 0, Repaired(0, 1)), Advance(0), Removed1(0, NIL, Repairing(0, 2)), Advances(2));
    RunStarts(Removed1(0, 0, Holding(0, 1)), Advance(0), Removed1(0, 0, Repaired(0, 1)), Advances(3));
    RunStarts(Removed1(0, NIL, Repairing(0, 1)), Advance(0), Removed1(0, 0, Holding(0, 1)), Advances(4));
    RunStarts(Listed1(0, 0, Looking(NIL)), Remove, Removed1(0, NIL, Repairing(0, 1)), Advances(5));
  }

  /** The walk that finds the process, then its removal. */
  function WalkAndRemove(): seq<Step> {
    [Lock(0)] + ([Advance(0)] + ([Advance(0)] + ([Remove] + Advances(5))))
  }

  lemma {:induction false} WalkRuns()
    ensures CanRun(Listed1(NIL, NIL, Idle), WalkAndRemove())
    ensures Run(Listed1(NIL, NIL, Idle), WalkAndRemove()) == Freed1()
  {
    FindIt();
    RemovalRuns();
    var last := [Remove] + Advances(5);
    RunStarts(Listed1(NIL, 0, Got(NIL, 0)), Advance(0), Listed1(0, 0, Looking(NIL)), last);
    RunStarts(Listed1(NIL, 0, Locked), Advance(0), Listed1(NIL, 0, Got(NIL, 0)), [Advance(0)] + last);
    RunStarts(Listed1(NIL, NIL, Idle), Lock(0), Listed1(NIL, 0, Locked), [Advance(0)] + ([Advance(0)] + last));
  }

  /** After these steps core 1 goes on counting from a freed process. */
  ghost predicate ReadsAfter(steps: seq<Step>) {
    CanRun(Start(2), steps) && OnFreed(Run(Start(2), steps), 1)
  }

  lemma {:induction false} CountThen(walk: seq<Step>)
    requires CanRun(Listed1(NIL, NIL, Idle), walk) && Run(Listed1(NIL, NIL, Idle), walk) == Freed1()
    ensures ReadsAfter([Push] + ([Count(1)] + walk))
  {
    CountIt();
    RunStarts(Apply(Start(2), Push), Count(1), Listed1(NIL, NIL, Idle), walk);
    RunStarts(Start(2), Push, Apply(Start(2), Push), [Count(1)] + walk);
  }

  /** A new process is pushed, core 1 begins to count and stands on it, core 0 finds it without threads, removes it
      and frees it, and core 1 goes on from there. */
  lemma {:induction false} ReadsFreed()
    ensures exists steps :: ReadsAfter(steps)
  {
    WalkRuns();
    CountThen(WalkAndRemove());
  }
}
