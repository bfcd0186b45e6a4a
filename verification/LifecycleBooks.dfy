/** The books of a process: its thread counts and TID bitmaps against what is listed and what is on its way into or
    out of the lists.
    Source: source/kernel/hardware/devices/cpu/scheduler.c:177-192, 254-265, 421-510, 512-632, 1043-1112 */
module LifecycleBooks {
  import opened Lifecycle

  /** What is counted: holders of a TID, users of a directory, threads of a core's list, all threads of the
      process, holders of any TID of a core, threads that are one incarnation, and threads kept in a block. */
  datatype Measure =
    Tid(tid: nat) | Dir(dir: nat) | Running(core: nat) | All | HomeOf(home: nat) | Self(id: nat) | Block(node: nat)

  function Weight(m: Measure, core: nat, x: Thread): nat {
    match m
    case Tid(tid) => if x.tid == tid then 1 else 0
    case Dir(dir) => if x.dir == dir then 1 else 0
    case Running(c) => if core == c then 1 else 0
    case All => 1
    case HomeOf(c) => if Home(x, c) then 1 else 0
    case Self(id) => if x.self == id then 1 else 0
    case Block(n) => if x.node == n then 1 else 0
  }

  predicate OfTid(m: Measure) {
    m.Tid? || m.HomeOf?
  }

  predicate OfThread(m: Measure) {
    m.Self? || m.Block?
  }

  /** What a core's unfinished operation holds. */
  function PcWeight(m: Measure, core: nat, pc: Pc): nat {
    match pc
    case Claimed(_, target, _, bit) =>
      if (m.Tid? && m.tid == TidOf(target, bit)) || (m.HomeOf? && m.home == target) then 1 else 0
    case Filled(_, child, target, _) => if OfTid(m) || OfThread(m) then Weight(m, target, child) else 0
    case Made(_, child, target) => if m.Running? || m.All? then 0 else Weight(m, target, child)
    case Counted(_, child, target) => if m.Running? then 0 else Weight(m, target, child)
    case Ready(_, child, target) => Weight(m, target, child)
    case Unlinked(_, x) => Weight(m, core, x)
    case NotRunning(_, x) => if m.Running? then 0 else Weight(m, core, x)
    case NotCounted(_, x) => if m.Running? || m.All? then 0 else Weight(m, core, x)
    case TidLoaded(_, x, _) => if m.Running? || m.All? then 0 else Weight(m, core, x)
    case TidFreed(x) => if m.Dir? || OfThread(m) then Weight(m, core, x) else 0
    case Released(x) => if OfThread(m) then Weight(m, core, x) else 0
    case Dropping(x) => if OfThread(m) then Weight(m, core, x) else 0
    case Checked(x) => if OfThread(m) then Weight(m, core, x) else 0
    case _ => 0
  }

  function ListWeight(m: Measure, core: nat, list: seq<Thread>): nat {
    if list == [] then 0 else Weight(m, core, list[0]) + ListWeight(m, core, list[1..])
  }

  function OverLists(m: Measure, lists: seq<seq<Thread>>, n: nat): nat
    requires n <= |lists|
  {
    if n == 0 then 0 else OverLists(m, lists, n - 1) + ListWeight(m, n - 1, lists[n - 1])
  }

  function OverPcs(m: Measure, pcs: seq<Pc>, n: nat): nat
    requires n <= |pcs|
  {
    if n == 0 then 0 else OverPcs(m, pcs, n - 1) + PcWeight(m, n - 1, pcs[n - 1])
  }

  function Total(m: Measure, s: Process): nat {
    OverLists(m, s.lists, |s.lists|) + OverPcs(m, s.pcs, |s.pcs|)
  }

  // ----- the invariant

  predicate BitSet(s: Process, tid: nat)
    requires Shaped(s)
  {
    tid >= 1 && (tid - 1) / TIDS < |s.bits| &&
    (assert BitsOk(s, (tid - 1) / TIDS); s.bits[(tid - 1) / TIDS][(tid - 1) % TIDS])
  }

  function SetBits(bits: seq<bool>): nat {
    if bits == [] then 0 else (if bits[0] then 1 else 0) + SetBits(bits[1..])
  }

  predicate TidBooked(s: Process, tid: nat)
    requires Shaped(s)
  {
    Total(Tid(tid), s) == if BitSet(s, tid) then 1 else 0
  }

  /** No incarnation occurs twice, and none from the future. */
  predicate SelfBooked(s: Process, id: nat) {
    Total(Self(id), s) <= if id < s.serial then 1 else 0
  }

  predicate RunBooked(s: Process, core: nat)
    requires Shaped(s) && core < |s.pcs|
  {
    Total(Running(core), s) == s.running[core]
  }

  predicate BitsBooked(s: Process, core: nat)
    requires Shaped(s) && core < |s.pcs|
  {
    Total(HomeOf(core), s) == SetBits(s.bits[core])
  }

  /** The thread counts count, and no incarnation occurs twice. */
  ghost predicate CountsRight(s: Process) {
    && Shaped(s)
    && (forall id: nat :: SelfBooked(s, id))
    && (forall core: nat :: core < |s.pcs| ==> RunBooked(s, core))
    && Total(All, s) == s.total
  }

  /** Moreover, a bit is set exactly when one thread holds its TID. */
  ghost predicate Booked(s: Process) {
    && CountsRight(s)
    && (forall tid: nat :: TidBooked(s, tid))
    && (forall core: nat :: core < |s.pcs| ==> BitsBooked(s, core))
  }

  /** The bitmap in memory differs from the word loaded in some other bit than `bit`. */
  predicate Stale(word: seq<bool>, bits: seq<bool>, bit: nat) {
    exists k :: 0 <= k < |word| && k < |bits| && k != bit && word[k] != bits[k]
  }

  /** A claim about to set a bit that somebody else has set since the bitmap was searched. */
  predicate Clash(s: Process, step: Step)
    requires Shaped(s)
  {
    step.Advance? && step.core < |s.pcs| && s.pcs[step.core].Loaded? &&
    (assert PcOk(s, step.core); assert BitsOk(s, s.pcs[step.core].target);
     s.bits[s.pcs[step.core].target][s.pcs[step.core].bit])
  }

  /** The store of a claim or of a kill that would undo another core's store to the same bitmap. */
  predicate Undoes(s: Process, step: Step)
    requires Shaped(s)
  {
    step.Advance? && step.core < |s.pcs| &&
    (assert PcOk(s, step.core);
     if s.pcs[step.core].Loaded? then
       Stale(s.pcs[step.core].word, s.bits[s.pcs[step.core].target], s.pcs[step.core].bit)
     else
       s.pcs[step.core].TidLoaded? &&
       Stale(s.pcs[step.core].word, s.bits[step.core], BitOf(s.pcs[step.core].tid)))
  }

  /** The store of a kill that unlinked another thread than the one whose bit it clears. */
  predicate Mistaken(s: Process, step: Step) {
    && step.Advance? && step.core < |s.pcs| && s.pcs[step.core].TidLoaded?
    && s.pcs[step.core].tid != s.pcs[step.core].victim.tid
  }

  predicate Overtaken(s: Process, step: Step)
    requires Shaped(s)
  {
    Clash(s, step) || Undoes(s, step) || Mistaken(s, step)
  }

  // ----- totals under updates

  lemma {:induction false} OverListsUpdate(m: Measure, lists: seq<seq<Thread>>, c: nat, list: seq<Thread>, n: nat)
    requires c < |lists| && n <= |lists|
    ensures OverLists(m, lists[c := list], n) ==
            OverLists(m, lists, n) + (if c < n then ListWeight(m, c, list) - ListWeight(m, c, lists[c]) else 0)
  {
    if n > 0 {
      OverListsUpdate(m, lists, c, list, n - 1);
    }
  }

  lemma {:induction false} OverPcsUpdate(m: Measure, pcs: seq<Pc>, c: nat, pc: Pc, n: nat)
    requires c < |pcs| && n <= |pcs|
    ensures OverPcs(m, pcs[c := pc], n) ==
            OverPcs(m, pcs, n) + (if c < n then PcWeight(m, c, pc) - PcWeight(m, c, pcs[c]) else 0)
  {
    if n > 0 {
      OverPcsUpdate(m, pcs, c, pc, n - 1);
    }
  }

  lemma {:induction false} PcChange(m: Measure, s: Process, t: Process, c: nat)
    requires c < |s.pcs| && |t.pcs| == |s.pcs| && t.lists == s.lists && t.pcs == s.pcs[c := t.pcs[c]]
    ensures Total(m, t) == Total(m, s) + PcWeight(m, c, t.pcs[c]) - PcWeight(m, c, s.pcs[c])
  {
    OverPcsUpdate(m, s.pcs, c, t.pcs[c], |s.pcs|);
  }

  lemma {:induction false} WithoutWeight(m: Measure, core: nat, list: seq<Thread>, x: Thread)
    requires x in list
    ensures ListWeight(m, core, list) == ListWeight(m, core, Without(list, x)) + Weight(m, core, x)
  {
    assert list == [list[0]] + list[1..];
    if list[0] != x {
      WithoutWeight(m, core, list[1..], x);
      assert ([list[0]] + Without(list[1..], x))[1..] == Without(list[1..], x);
    }
  }

  function CreateChange(m: Measure, s: Process, c: nat): int
    requires Shaped(s) && c < |s.pcs|
  {
    match s.pcs[c]
    case Loaded(_, target, _, bit, _) =>
      if (m.Tid? && m.tid == TidOf(target, bit)) || (m.HomeOf? && m.home == target) then 1 else 0
    case Claimed(_, _, _, _) =>
      if (m.Self? && m.id == s.serial) || (m.Block? && m.node == Top(s.nodePool, |s.nodes|)) then 1 else 0
    case Filled(_, child, _, _) => if m.Dir? && m.dir == child.dir then 1 else 0
    case Made(_, _, _) => if m.All? then 1 else 0
    case Counted(_, _, target) => if m.Running? && m.core == target then 1 else 0
    case _ => 0
  }

  function ReleaseChange(m: Measure, s: Process, c: nat): int
    requires Shaped(s) && c < |s.pcs|
  {
    match s.pcs[c]
    case Unlinked(_, _) => if m.Running? && m.core == c then -1 else 0
    case NotRunning(_, _) => if m.All? then -1 else 0
    case TidLoaded(_, x, _) => if (m.Tid? && m.tid == x.tid) || (m.HomeOf? && m.home == c) then -1 else 0
    case TidFreed(x) => if m.Dir? && m.dir == x.dir then -1 else 0
    case Checked(x) => if (m.Self? && m.id == x.self) || (m.Block? && m.node == x.node) then -1 else 0
    case _ => 0
  }

  /** What a step adds to a total. */
  function Change(m: Measure, s: Process, step: Step): int
    requires Shaped(s) && Enabled(s, step)
  {
    if !step.Advance? then 0 else CreateChange(m, s, step.core) + ReleaseChange(m, s, step.core)
  }

  lemma {:induction false} PushChange(m: Measure, s: Process, c: nat)
    requires Shaped(s) && c < |s.pcs| && s.pcs[c].Ready?
    ensures Total(m, CreateStep(s, c)) == Total(m, s)
  {
    assert PcOk(s, c);
    var t := CreateStep(s, c);
    var target, child := s.pcs[c].target, s.pcs[c].child;
    OverPcsUpdate(m, s.pcs, c, Idle, |s.pcs|);
    OverListsUpdate(m, s.lists, target, t.lists[target], |s.lists|);
    assert t.lists[target][1..] == s.lists[target];
  }

  /** A thread moves from the list of a core into the hands of its kill. */
  lemma {:induction false} UnlinkChange(m: Measure, s: Process, t: Process, c: nat, x: Thread)
    requires |s.lists| == |s.pcs| == |t.pcs| && c < |s.pcs| && x in s.lists[c] && PcWeight(m, c, s.pcs[c]) == 0
    requires t.lists == s.lists[c := Without(s.lists[c], x)] && t.pcs == s.pcs[c := t.pcs[c]]
    requires t.pcs[c].Unlinked? && t.pcs[c].victim == x
    ensures Total(m, t) == Total(m, s)
  {
    OverPcsUpdate(m, s.pcs, c, t.pcs[c], |s.pcs|);
    OverListsUpdate(m, s.lists, c, t.lists[c], |s.lists|);
    WithoutWeight(m, c, s.lists[c], x);
  }

  /** A core that walks through the lists, or has not unlinked its victim yet, holds nothing. */
  lemma {:induction false} WalkChange(m: Measure, s: Process, c: nat)
    requires Shaped(s) && c < |s.pcs| && Walking(s.pcs[c])
    ensures Total(m, WalkStep(s, c)) == Total(m, s)
  {
    assert PcOk(s, c);
    var t := WalkStep(s, c);
    if t.pcs[c].Unlinked? {
      UnlinkChange(m, s, t, c, s.pcs[c].victim);
    } else {
      assert Walking(t.pcs[c]) || t.pcs[c].Exchanging?;
      PcChange(m, s, t, c);
    }
  }

  lemma {:induction false} ExchangeChange(m: Measure, s: Process, c: nat)
    requires Shaped(s) && c < |s.pcs| && s.pcs[c].Exchanging?
    ensures Total(m, ExchangeStep(s, c)) == Total(m, s)
  {
    assert PcOk(s, c);
    var t := ExchangeStep(s, c);
    if t.pcs[c].Unlinked? {
      UnlinkChange(m, s, t, c, s.pcs[c].current);
    } else {
      PcChange(m, s, t, c);
    }
  }

  lemma TidIsHome(target: nat, bit: nat, k: nat)
    requires bit < TIDS
    ensures k * TIDS < TidOf(target, bit) <= k * TIDS + TIDS <==> k == target
    ensures (TidOf(target, bit) - 1) / TIDS == target && (TidOf(target, bit) - 1) % TIDS == bit
  {
    if k < target {
      assert (k + 1) * TIDS <= target * TIDS;
    } else if k > target {
      assert (target + 1) * TIDS <= k * TIDS;
    }
  }

  lemma HomeIsUnique(x: Thread, c: nat, d: nat)
    requires Home(x, c)
    ensures Home(x, d) <==> c == d
    ensures x.tid == TidOf(c, BitOf(x.tid)) && BitOf(x.tid) < TIDS
  {
    if d < c {
      assert (d + 1) * TIDS <= c * TIDS;
    } else if d > c {
      assert (c + 1) * TIDS <= d * TIDS;
    }
    assert (x.tid - 1) / TIDS == c;
  }

  lemma {:induction false} FillChange(m: Measure, s: Process, c: nat)
    requires Shaped(s) && c < |s.pcs| && s.pcs[c].Claimed?
    ensures Total(m, CreateStep(s, c)) == Total(m, s) + CreateChange(m, s, c)
  {
    assert PcOk(s, c);
    if m.HomeOf? { TidIsHome(s.pcs[c].target, s.pcs[c].bit, m.home); }
    PcChange(m, s, CreateStep(s, c), c);
  }

  lemma {:induction false} ClaimChange(m: Measure, s: Process, c: nat)
    requires Shaped(s) && c < |s.pcs| && (s.pcs[c].Chosen? || s.pcs[c].Picked? || s.pcs[c].Loaded?)
    ensures Total(m, CreateStep(s, c)) == Total(m, s) + CreateChange(m, s, c)
  {
    assert PcOk(s, c);
    PcChange(m, s, CreateStep(s, c), c);
  }

  lemma {:induction false} JoinChange(m: Measure, s: Process, c: nat)
    requires Shaped(s) && c < |s.pcs| && s.pcs[c].Filled?
    ensures Total(m, CreateStep(s, c)) == Total(m, s) + CreateChange(m, s, c)
  {
    assert PcOk(s, c);
    PcChange(m, s, CreateStep(s, c), c);
  }

  lemma {:induction false} CountChange(m: Measure, s: Process, c: nat)
    requires Shaped(s) && c < |s.pcs| && (s.pcs[c].Made? || s.pcs[c].Counted?)
    ensures Total(m, CreateStep(s, c)) == Total(m, s) + CreateChange(m, s, c)
  {
    assert PcOk(s, c);
    PcChange(m, s, CreateStep(s, c), c);
  }

  lemma {:induction false} UncountChange(m: Measure, s: Process, c: nat)
    requires Shaped(s) && c < |s.pcs| && (s.pcs[c].Unlinked? || s.pcs[c].NotRunning?)
    ensures Total(m, ReleaseStep(s, c)) == Total(m, s) + ReleaseChange(m, s, c)
  {
    assert PcOk(s, c);
    PcChange(m, s, ReleaseStep(s, c), c);
  }

  lemma {:induction false} LoadChange(m: Measure, s: Process, c: nat)
    requires Shaped(s) && c < |s.pcs| && s.pcs[c].NotCounted?
    ensures Total(m, ReleaseStep(s, c)) == Total(m, s) + ReleaseChange(m, s, c)
  {
    assert PcOk(s, c);
    PcChange(m, s, ReleaseStep(s, c), c);
  }

  lemma {:induction false} ClearChange(m: Measure, s: Process, c: nat)
    requires Shaped(s) && c < |s.pcs| && s.pcs[c].TidLoaded?
    ensures Total(m, ReleaseStep(s, c)) == Total(m, s) + ReleaseChange(m, s, c)
  {
    assert PcOk(s, c);
    if m.HomeOf? { HomeIsUnique(s.pcs[c].victim, c, m.home); }
    PcChange(m, s, ReleaseStep(s, c), c);
  }

  lemma {:induction false} DropChange(m: Measure, s: Process, c: nat)
    requires Shaped(s) && c < |s.pcs| && (s.pcs[c].TidFreed? || s.pcs[c].Released?)
    ensures Total(m, ReleaseStep(s, c)) == Total(m, s) + ReleaseChange(m, s, c)
  {
    assert PcOk(s, c);
    PcChange(m, s, ReleaseStep(s, c), c);
  }

  lemma {:induction false} LeaveChange(m: Measure, s: Process, c: nat)
    requires Shaped(s) && c < |s.pcs| && (s.pcs[c].Dropping? || s.pcs[c].Checked?)
    ensures Total(m, ReleaseStep(s, c)) == Total(m, s) + ReleaseChange(m, s, c)
  {
    assert PcOk(s, c);
    PcChange(m, s, ReleaseStep(s, c), c);
  }

  lemma {:induction false} CreationChange(m: Measure, s: Process, c: nat)
    requires Shaped(s) && c < |s.pcs| && Creating(s.pcs[c])
    ensures Total(m, CreateStep(s, c)) == Total(m, s) + CreateChange(m, s, c)
  {
    match s.pcs[c] {
      case Claimed(_, _, _, _) => FillChange(m, s, c);
      case Filled(_, _, _, _) => JoinChange(m, s, c);
      case Made(_, _, _) => CountChange(m, s, c);
      case Counted(_, _, _) => CountChange(m, s, c);
      case Ready(_, _, _) => PushChange(m, s, c);
      case _ => ClaimChange(m, s, c);
    }
  }

  lemma {:induction false} ReleasesChange(m: Measure, s: Process, c: nat)
    requires Shaped(s) && c < |s.pcs| && Releasing(s.pcs[c])
    ensures Total(m, ReleaseStep(s, c)) == Total(m, s) + ReleaseChange(m, s, c)
  {
    if s.pcs[c].TidLoaded? {
      ClearChange(m, s, c);
    } else if s.pcs[c].NotCounted? {
      LoadChange(m, s, c);
    } else if Uncounting(s.pcs[c]) {
      UncountChange(m, s, c);
    } else if s.pcs[c].TidFreed? || s.pcs[c].Released? {
      DropChange(m, s, c);
    } else {
      LeaveChange(m, s, c);
    }
  }

  lemma {:induction false} StepChange(m: Measure, s: Process, step: Step)
    requires Shaped(s) && Enabled(s, step)
    ensures Total(m, Apply(s, step)) == Total(m, s) + Change(m, s, step)
  {
    var c := step.core;
    if !step.Advance? {
      PcChange(m, s, Apply(s, step), c);
    } else if Walking(s.pcs[c]) {
      WalkChange(m, s, c);
    } else if s.pcs[c].Exchanging? {
      ExchangeChange(m, s, c);
    } else if Creating(s.pcs[c]) {
      CreationChange(m, s, c);
    } else {
      ReleasesChange(m, s, c);
    }
  }

  // ----- the books are kept

  lemma {:induction false} SetBitsUpdate(bits: seq<bool>, i: nat, b: bool)
    requires i < |bits|
    ensures SetBits(bits[i := b]) == SetBits(bits) - (if bits[i] then 1 else 0) + (if b then 1 else 0)
  {
    if i == 0 {
      assert bits[i := b][1..] == bits[1..];
    } else {
      assert bits[i := b][1..] == bits[1..][i - 1 := b];
      SetBitsUpdate(bits[1..], i - 1, b);
    }
  }

  /** The core whose bitmap the step stores, the bit it means to change, and the word it stores. */
  predicate Stores(s: Process, step: Step, core: nat, bit: nat, word: seq<bool>) {
    step.Advance? && step.core < |s.pcs| &&
    if s.pcs[step.core].Loaded? then
      core == s.pcs[step.core].target && bit == s.pcs[step.core].bit && bit < |s.pcs[step.core].word| &&
      word == s.pcs[step.core].word[bit := true]
    else
      s.pcs[step.core].TidLoaded? && core == step.core && bit == BitOf(s.pcs[step.core].tid) &&
      bit < |s.pcs[step.core].word| && word == s.pcs[step.core].word[bit := false]
  }

  /** A store of a claim or of a kill replaces all bits of one core's bitmap by the word loaded earlier, changed in
      one bit; no other step changes a bit. */
  lemma {:induction false} BitAfterStep(s: Process, step: Step, core: nat, bit: nat)
    requires Shaped(s) && Enabled(s, step) && core < |s.pcs| && bit < TIDS
    ensures var t := Apply(s, step);
            && |t.bits| == |s.bits| && |t.bits[core]| == |s.bits[core]| == TIDS
            && (forall own, word :: Stores(s, step, core, own, word) ==> t.bits[core] == word)
            && ((forall own, word :: !Stores(s, step, core, own, word)) ==> t.bits[core] == s.bits[core])
  {
    assert PcOk(s, step.core) && BitsOk(s, step.core) && BitsOk(s, core);
    var pc := s.pcs[step.core];
    if step.Advance? && pc.Loaded? {
      assert BitsOk(s, pc.target);
      assert Stores(s, step, pc.target, pc.bit, pc.word[pc.bit := true]);
    } else if step.Advance? && pc.TidLoaded? {
      assert BitOf(pc.tid) < TIDS;
      assert Stores(s, step, step.core, BitOf(pc.tid), pc.word[BitOf(pc.tid) := false]);
    }
  }

  /** What an unfinished operation holds is part of the total. */
  lemma {:induction false} HeldByPc(m: Measure, pcs: seq<Pc>, c: nat, n: nat)
    requires c < n <= |pcs|
    ensures OverPcs(m, pcs, n) >= PcWeight(m, c, pcs[c])
  {
    if c < n - 1 {
      HeldByPc(m, pcs, c, n - 1);
    }
  }

  lemma {:induction false} SelvesStayBooked(s: Process, step: Step, id: nat)
    requires CountsRight(s) && Enabled(s, step)
    ensures SelfBooked(Apply(s, step), id)
  {
    StepChange(Self(id), s, step);
    assert SelfBooked(s, id);
    assert PcOk(s, step.core);
  }

  /** The counters move as the counts do. */
  lemma {:induction false} CreationCounts(s: Process, c: nat, core: nat)
    requires Shaped(s) && c < |s.pcs| && Creating(s.pcs[c]) && core < |s.pcs|
    ensures var t := CreateStep(s, c);
            && |t.running| == |s.running| && t.running[core] == s.running[core] + CreateChange(Running(core), s, c)
            && t.total == s.total + CreateChange(All, s, c)
  {
    assert PcOk(s, c);
  }

  lemma {:induction false} ReleaseCounts(s: Process, c: nat, core: nat)
    requires Shaped(s) && c < |s.pcs| && Releasing(s.pcs[c]) && core < |s.pcs|
    ensures var t := ReleaseStep(s, c);
            && |t.running| == |s.running| && t.running[core] == s.running[core] + ReleaseChange(Running(core), s, c)
            && t.total == s.total + ReleaseChange(All, s, c)
  {
  }

  lemma {:induction false} StepCounts(s: Process, step: Step, core: nat)
    requires Shaped(s) && Enabled(s, step) && core < |s.pcs|
    ensures var t := Apply(s, step);
            && |t.running| == |s.running| && t.running[core] == s.running[core] + Change(Running(core), s, step)
            && t.total == s.total + Change(All, s, step)
  {
    var c := step.core;
    if step.Advance? {
      if Creating(s.pcs[c]) {
        CreationCounts(s, c, core);
      } else if Releasing(s.pcs[c]) {
        ReleaseCounts(s, c, core);
      }
    }
  }

  lemma {:induction false} RunsStayBooked(s: Process, step: Step, core: nat)
    requires CountsRight(s) && Enabled(s, step) && Shaped(Apply(s, step)) && core < |s.pcs|
    ensures RunBooked(Apply(s, step), core)
  {
    StepChange(Running(core), s, step);
    StepCounts(s, step, core);
    assert RunBooked(s, core);
  }

  /** Every step keeps the counts right. */
  lemma {:induction false} StepKeepsCounts(s: Process, step: Step)
    requires CountsRight(s) && Enabled(s, step)
    ensures CountsRight(Apply(s, step))
  {
    StepKeepsShape(s, step);
    var t := Apply(s, step);
    forall id: nat ensures SelfBooked(t, id) { SelvesStayBooked(s, step, id); }
    forall core: nat | core < |s.pcs| ensures RunBooked(t, core) { RunsStayBooked(s, step, core); }
    StepChange(All, s, step);
    StepCounts(s, step, step.core);
  }

  lemma TidSplits(tid: nat)
    requires tid >= 1
    ensures (tid - 1) % TIDS < TIDS && tid == TidOf((tid - 1) / TIDS, (tid - 1) % TIDS)
  {
  }

  /** Changing one bit of the bitmap in memory, and the holders of its TID with it, keeps the rest booked. */
  lemma {:induction false} OneBitBooked(s: Process, t: Process, core: nat, bit: nat, b: bool, tid: nat)
    requires Booked(s) && Shaped(t) && core < |s.pcs| && bit < TIDS && |s.bits[core]| == TIDS
    requires t.bits == s.bits[core := s.bits[core][bit := b]]
    requires Total(Tid(tid), t) ==
             if tid == TidOf(core, bit) then (if b then 1 else 0) else Total(Tid(tid), s)
    ensures TidBooked(t, tid)
  {
    assert TidBooked(s, tid);
    TidIsHome(core, bit, core);
    if tid >= 1 { TidSplits(tid); }
  }

  /** If the word loaded agrees with memory, the store changes nothing but its own bit. */
  lemma {:induction false} FreshStore(word: seq<bool>, bits: seq<bool>, bit: nat, b: bool)
    requires |word| == |bits| && bit < |bits| && !Stale(word, bits, bit)
    ensures word[bit := b] == bits[bit := b]
  {
    var stored, meant := word[bit := b], bits[bit := b];
    assert forall k :: 0 <= k < |bits| ==> stored[k] == meant[k];
  }

  lemma {:induction false} UndoneIsUnbooked(s: Process, t: Process, core: nat, bit: nat, k: nat)
    requires Booked(s) && Shaped(t) && core < |s.pcs| == |t.pcs| && bit < TIDS && k < TIDS && k != bit
    requires |s.bits[core]| == TIDS == |t.bits[core]| && t.bits[core][k] != s.bits[core][k]
    requires Total(Tid(TidOf(core, k)), t) == Total(Tid(TidOf(core, k)), s)
    ensures !Booked(t)
  {
    TidIsHome(core, k, core);
    assert TidBooked(s, TidOf(core, k));
    assert !TidBooked(t, TidOf(core, k));
  }

  /** What a claim's store does to the holders of the bit's TID. */
  lemma {:induction false} ClashIsTwice(s: Process, c: nat)
    requires Booked(s) && c < |s.pcs| && s.pcs[c].Loaded?
    ensures var tid := TidOf(s.pcs[c].target, s.pcs[c].bit);
            Total(Tid(tid), CreateStep(s, c)) == if Clash(s, Advance(c)) then 2 else 1
  {
    assert PcOk(s, c) && BitsOk(s, s.pcs[c].target);
    var tid := TidOf(s.pcs[c].target, s.pcs[c].bit);
    TidIsHome(s.pcs[c].target, s.pcs[c].bit, 0);
    StepChange(Tid(tid), s, Advance(c));
    assert TidBooked(s, tid);
  }

  lemma {:induction false} OvertakenClaim(s: Process, c: nat)
    requires Booked(s) && c < |s.pcs| && s.pcs[c].Loaded? && Overtaken(s, Advance(c))
    ensures !Booked(CreateStep(s, c))
  {
    StepKeepsShape(s, Advance(c));
    var t := CreateStep(s, c);
    assert PcOk(s, c) && BitsOk(s, s.pcs[c].target);
    var target, bit, word := s.pcs[c].target, s.pcs[c].bit, s.pcs[c].word;
    if Clash(s, Advance(c)) {
      ClashIsTwice(s, c);
      assert !TidBooked(t, TidOf(target, bit));
    } else {
      var k :| 0 <= k < |word| && k < |s.bits[target]| && k != bit && word[k] != s.bits[target][k];
      StepChange(Tid(TidOf(target, k)), s, Advance(c));
      UndoneIsUnbooked(s, t, target, bit, k);
    }
  }

  lemma {:induction false} FreshClaim(s: Process, c: nat)
    requires Booked(s) && c < |s.pcs| && s.pcs[c].Loaded? && !Overtaken(s, Advance(c))
    ensures Booked(CreateStep(s, c))
  {
    var step := Advance(c);
    StepKeepsCounts(s, step);
    var t := CreateStep(s, c);
    assert PcOk(s, c) && BitsOk(s, s.pcs[c].target);
    var target, bit := s.pcs[c].target, s.pcs[c].bit;
    FreshStore(s.pcs[c].word, s.bits[target], bit, true);
    forall tid: nat ensures TidBooked(t, tid) {
      StepChange(Tid(tid), s, step);
      ClashIsTwice(s, c);
      OneBitBooked(s, t, target, bit, true, tid);
    }
    SetBitsUpdate(s.bits[target], bit, true);
    forall core: nat | core < |s.pcs| ensures BitsBooked(t, core) {
      StepChange(HomeOf(core), s, step);
      assert BitsBooked(s, core);
    }
  }

  /** A victim's bit is set until its own kill clears it. */
  lemma {:induction false} VictimHoldsItsBit(s: Process, c: nat)
    requires Booked(s) && c < |s.pcs| && s.pcs[c].TidLoaded? && s.pcs[c].tid == s.pcs[c].victim.tid
    ensures BitsOk(s, c) && BitOf(s.pcs[c].tid) < TIDS && s.bits[c][BitOf(s.pcs[c].tid)]
    ensures s.pcs[c].tid == TidOf(c, BitOf(s.pcs[c].tid)) && Total(Tid(s.pcs[c].tid), s) == 1
  {
    assert PcOk(s, c) && BitsOk(s, c);
    var victim := s.pcs[c].victim;
    HomeIsUnique(victim, c, c);
    TidIsHome(c, BitOf(victim.tid), 0);
    HeldByPc(Tid(victim.tid), s.pcs, c, |s.pcs|);
    assert TidBooked(s, victim.tid);
  }

  /** What a list holds is part of the total. */
  lemma {:induction false} ListedWeight(m: Measure, core: nat, list: seq<Thread>, p: nat)
    requires p < |list|
    ensures ListWeight(m, core, list) >= Weight(m, core, list[p])
  {
    if p > 0 { ListedWeight(m, core, list[1..], p - 1); }
  }

  lemma {:induction false} OverOneList(m: Measure, lists: seq<seq<Thread>>, c: nat, n: nat)
    requires c < n <= |lists|
    ensures OverLists(m, lists, n) >= ListWeight(m, c, lists[c])
  {
    if c < n - 1 { OverOneList(m, lists, c, n - 1); }
  }

  /** The thread that was to be killed is listed still, and its bit is clear. */
  lemma {:induction false} MistakenRelease(s: Process, c: nat)
    requires Booked(s) && c < |s.pcs| && Mistaken(s, Advance(c))
    ensures !Booked(ReleaseStep(s, c))
  {
    StepKeepsShape(s, Advance(c));
    var t := ReleaseStep(s, c);
    var tid := s.pcs[c].tid;
    assert PcOk(s, c) && BitsOk(s, c) && ListOk(s, c) && GoneOk(s, c, tid, s.pcs[c].victim);
    var p :| 0 <= p < |s.lists[c]| && s.lists[c][p].tid == tid;
    assert ThreadOk(s, c, s.lists[c][p]);
    HomeIsUnique(s.lists[c][p], c, c);
    TidIsHome(c, BitOf(tid), 0);
    ListedWeight(Tid(tid), c, t.lists[c], p);
    OverOneList(Tid(tid), t.lists, c, |t.lists|);
    assert !BitSet(t, tid);
    assert !TidBooked(t, tid);
  }

  lemma {:induction false} OvertakenRelease(s: Process, c: nat)
    requires Booked(s) && c < |s.pcs| && s.pcs[c].TidLoaded? && Undoes(s, Advance(c)) && !Mistaken(s, Advance(c))
    ensures !Booked(ReleaseStep(s, c))
  {
    StepKeepsShape(s, Advance(c));
    var t := ReleaseStep(s, c);
    assert PcOk(s, c) && BitsOk(s, c);
    VictimHoldsItsBit(s, c);
    var word, bit := s.pcs[c].word, BitOf(s.pcs[c].tid);
    var k :| 0 <= k < |word| && k < |s.bits[c]| && k != bit && word[k] != s.bits[c][k];
    StepChange(Tid(TidOf(c, k)), s, Advance(c));
    UndoneIsUnbooked(s, t, c, bit, k);
  }

  lemma {:induction false} FreshRelease(s: Process, c: nat)
    requires Booked(s) && c < |s.pcs| && s.pcs[c].TidLoaded? && !Overtaken(s, Advance(c))
    ensures Booked(ReleaseStep(s, c))
  {
    var step := Advance(c);
    StepKeepsCounts(s, step);
    var t := ReleaseStep(s, c);
    assert PcOk(s, c) && BitsOk(s, c);
    VictimHoldsItsBit(s, c);
    var bit := BitOf(s.pcs[c].tid);
    FreshStore(s.pcs[c].word, s.bits[c], bit, false);
    forall tid: nat ensures TidBooked(t, tid) {
      StepChange(Tid(tid), s, step);
      OneBitBooked(s, t, c, bit, false, tid);
    }
    SetBitsUpdate(s.bits[c], bit, false);
    forall core: nat | core < |s.pcs| ensures BitsBooked(t, core) {
      StepChange(HomeOf(core), s, step);
      assert BitsBooked(s, core);
    }
  }

  /** A step that stores no bitmap keeps the TID books. */
  lemma {:induction false} OtherStepsKeepBooks(s: Process, step: Step)
    requires Booked(s) && Enabled(s, step)
    requires step.Advance? ==> !s.pcs[step.core].Loaded? && !s.pcs[step.core].TidLoaded?
    ensures Booked(Apply(s, step))
  {
    StepKeepsCounts(s, step);
    var t := Apply(s, step);
    assert PcOk(s, step.core);
    assert t.bits == s.bits;
    forall tid: nat ensures TidBooked(t, tid) {
      StepChange(Tid(tid), s, step);
      assert TidBooked(s, tid);
    }
    forall core: nat | core < |s.pcs| ensures BitsBooked(t, core) {
      StepChange(HomeOf(core), s, step);
      assert BitsBooked(s, core);
    }
  }

  /** Every step keeps the TID bits right too if and only if it is not a bitmap store that was overtaken: one that
      sets a bit set since the search, whose word is not what memory holds outside its own bit, or which clears the
      bit of a thread that was not unlinked because another had been pushed before it. */
  lemma {:induction false} StepKeepsBooks(s: Process, step: Step)
    requires Booked(s) && Enabled(s, step)
    ensures Booked(Apply(s, step)) <==> !Overtaken(s, step)
  {
    var c := step.core;
    if step.Advance? && s.pcs[c].Loaded? {
      if Overtaken(s, step) { OvertakenClaim(s, c); } else { FreshClaim(s, c); }
    } else if step.Advance? && s.pcs[c].TidLoaded? {
      if Mistaken(s, step) { MistakenRelease(s, c); }
      else if Undoes(s, step) { OvertakenRelease(s, c); }
      else { FreshRelease(s, c); }
    } else {
      OtherStepsKeepBooks(s, step);
    }
  }

  /** No TID has two holders. */
  ghost predicate TidsDistinct(s: Process) {
    forall tid: nat :: HeldOnce(s, tid)
  }

  predicate HeldOnce(s: Process, tid: nat) {
    Total(Tid(tid), s) <= 1
  }

  /** With right books, a step makes two holders of one TID exactly when it is a claim's store and the bit is
      already set in memory. */
  lemma {:induction false} TidsCollideIffClash(s: Process, step: Step)
    requires Booked(s) && Enabled(s, step)
    ensures TidsDistinct(Apply(s, step)) <==> !Clash(s, step)
  {
    var t := Apply(s, step);
    assert PcOk(s, step.core);
    if Clash(s, step) {
      ClashIsTwice(s, step.core);
      assert !HeldOnce(t, TidOf(s.pcs[step.core].target, s.pcs[step.core].bit));
    } else {
      forall tid: nat ensures HeldOnce(t, tid) {
        StepChange(Tid(tid), s, step);
        assert TidBooked(s, tid);
        if step.Advance? && s.pcs[step.core].Loaded? { ClashIsTwice(s, step.core); }
      }
    }
  }

  // ----- runs

  /** No store of the run is overtaken. */
  ghost predicate StoresFresh(s: Process, steps: seq<Step>)
    requires CanRun(s, steps)
    decreases |steps|
  {
    steps == [] || (!Overtaken(s, steps[0]) && StoresFresh(Apply(s, steps[0]), steps[1..]))
  }

  /** The books are right at every moment of the run. */
  ghost predicate BookedAlong(s: Process, steps: seq<Step>)
    requires CanRun(s, steps)
    decreases |steps|
  {
    Booked(s) && (steps == [] || BookedAlong(Apply(s, steps[0]), steps[1..]))
  }

  lemma {:induction false} RunKeepsCounts(s: Process, steps: seq<Step>)
    requires CountsRight(s) && CanRun(s, steps)
    ensures CountsRight(Run(s, steps))
    decreases |steps|
  {
    if steps != [] {
      StepKeepsCounts(s, steps[0]);
      RunKeepsCounts(Apply(s, steps[0]), steps[1..]);
    }
  }

  /** Over a whole run the books stay right if and only if no store of it is overtaken. */
  lemma {:induction false} RunKeepsBooks(s: Process, steps: seq<Step>)
    requires Booked(s) && CanRun(s, steps)
    ensures BookedAlong(s, steps) <==> StoresFresh(s, steps)
    ensures StoresFresh(s, steps) ==> Booked(Run(s, steps))
    decreases |steps|
  {
    if steps != [] {
      StepKeepsBooks(s, steps[0]);
      if Booked(Apply(s, steps[0])) {
        RunKeepsBooks(Apply(s, steps[0]), steps[1..]);
      }
    }
  }
}
