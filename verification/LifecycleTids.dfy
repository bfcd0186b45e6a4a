/** What the books of a process mean: distinct thread IDs, when the IDs of a core run out, what a quiet
    process looks like, and that a process without threads never gets one again.
    Source: source/kernel/hardware/devices/cpu/scheduler.c:171-192, 254-265, 421-455, 961, 1043-1112 */
module LifecycleTids {
  import opened Lifecycle
  import opened LifecycleBooks

  // ----- a new process

  lemma {:induction false} StartLists(m: Measure, cores: nat, target: nat, n: nat)
    requires target < cores && n <= cores
    ensures var s := Start(cores, target);
            OverLists(m, s.lists, n) == if target < n then Weight(m, target, s.lists[target][0]) else 0
  {
    if n > 0 {
      StartLists(m, cores, target, n - 1);
      var s := Start(cores, target);
      if n - 1 == target {
        assert s.lists[target][1..] == [];
        assert ListWeight(m, target, s.lists[target]) == Weight(m, target, s.lists[target][0]);
      } else {
        assert s.lists[n - 1] == [];
      }
    }
  }

  lemma {:induction false} IdlePcs(m: Measure, pcs: seq<Pc>, n: nat)
    requires n <= |pcs| && forall c :: 0 <= c < |pcs| ==> pcs[c].Idle?
    ensures OverPcs(m, pcs, n) == 0
  {
    if n > 0 { IdlePcs(m, pcs, n - 1); }
  }

  lemma {:induction false} NoBits(bits: seq<bool>)
    requires forall i :: 0 <= i < |bits| ==> !bits[i]
    ensures SetBits(bits) == 0
  {
    if bits != [] { NoBits(bits[1..]); }
  }

  lemma {:induction false} StartIsBooked(cores: nat, target: nat)
    requires target < cores
    ensures Booked(Start(cores, target))
  {
    StartIsShaped(cores, target);
    var s := Start(cores, target);
    var main := s.lists[target][0];
    TidIsHome(target, 0, 0);
    forall tid: nat ensures TidBooked(s, tid) {
      StartLists(Tid(tid), cores, target, cores);
      IdlePcs(Tid(tid), s.pcs, cores);
      if tid >= 1 { assert tid == TidOf((tid - 1) / TIDS, (tid - 1) % TIDS); }
    }
    forall id: nat ensures SelfBooked(s, id) {
      StartLists(Self(id), cores, target, cores);
      IdlePcs(Self(id), s.pcs, cores);
    }
    forall core: nat | core < cores ensures RunBooked(s, core) && BitsBooked(s, core) {
      StartLists(Running(core), cores, target, cores);
      StartLists(HomeOf(core), cores, target, cores);
      IdlePcs(Running(core), s.pcs, cores);
      IdlePcs(HomeOf(core), s.pcs, cores);
      NoBits(s.bits[core][1..]);
      TidIsHome(target, 0, core);
    }
    StartLists(All, cores, target, cores);
    IdlePcs(All, s.pcs, cores);
  }

  /** In every reachable state of every process, as long as no store of a bitmap is overtaken, the books are right. */
  lemma {:induction false} ReachableIsBooked(cores: nat, target: nat, steps: seq<Step>)
    requires target < cores && CanRun(Start(cores, target), steps) && StoresFresh(Start(cores, target), steps)
    ensures Booked(Run(Start(cores, target), steps)) && TidsDistinct(Run(Start(cores, target), steps))
  {
    StartIsBooked(cores, target);
    RunKeepsBooks(Start(cores, target), steps);
    var t := Run(Start(cores, target), steps);
    forall tid: nat ensures HeldOnce(t, tid) { assert TidBooked(t, tid); }
  }

  /** In every reachable state of every process, whatever the stores, the counts are right. */
  lemma {:induction false} ReachableCountsAreRight(cores: nat, target: nat, steps: seq<Step>)
    requires target < cores && CanRun(Start(cores, target), steps)
    ensures CountsRight(Run(Start(cores, target), steps))
  {
    StartIsBooked(cores, target);
    RunKeepsCounts(Start(cores, target), steps);
  }

  // ----- distinct thread IDs

  lemma {:induction false} TwoListed(m: Measure, core: nat, list: seq<Thread>, p: nat, q: nat)
    requires p < q < |list|
    ensures ListWeight(m, core, list) >= Weight(m, core, list[p]) + Weight(m, core, list[q])
  {
    if p > 0 {
      TwoListed(m, core, list[1..], p - 1, q - 1);
    } else {
      ListedWeight(m, core, list[1..], q - 1);
    }
  }

  lemma {:induction false} OverTwoLists(m: Measure, lists: seq<seq<Thread>>, c: nat, d: nat, n: nat)
    requires c < d < n <= |lists|
    ensures OverLists(m, lists, n) >= ListWeight(m, c, lists[c]) + ListWeight(m, d, lists[d])
  {
    if d < n - 1 { OverTwoLists(m, lists, c, d, n - 1); } else { OverOneList(m, lists, c, n - 1); }
  }

  lemma {:induction false} CountedOnce(m: Measure, s: Process, c: nat, p: nat, d: nat, q: nat)
    requires c < |s.lists| && d < |s.lists| && p < |s.lists[c]| && q < |s.lists[d]| && Total(m, s) <= 1
    requires Weight(m, c, s.lists[c][p]) == 1 && Weight(m, d, s.lists[d][q]) == 1
    ensures c == d && p == q
  {
    ListedWeight(m, c, s.lists[c], p);
    ListedWeight(m, d, s.lists[d], q);
    if c < d {
      OverTwoLists(m, s.lists, c, d, |s.lists|);
    } else if d < c {
      OverTwoLists(m, s.lists, d, c, |s.lists|);
    } else {
      OverOneList(m, s.lists, c, |s.lists|);
      if p < q { TwoListed(m, c, s.lists[c], p, q); }
      if q < p { TwoListed(m, c, s.lists[c], q, p); }
    }
  }

  /** Two listed threads with one TID are one thread, and so are two with one incarnation. */
  lemma {:induction false} ListedTidsDiffer(s: Process, c: nat, p: nat, d: nat, q: nat)
    requires Booked(s) && c < |s.lists| && d < |s.lists| && p < |s.lists[c]| && q < |s.lists[d]|
    requires s.lists[c][p].tid == s.lists[d][q].tid || s.lists[c][p].self == s.lists[d][q].self
    ensures c == d && p == q
  {
    if s.lists[c][p].tid == s.lists[d][q].tid {
      assert TidBooked(s, s.lists[c][p].tid);
      CountedOnce(Tid(s.lists[c][p].tid), s, c, p, d, q);
    } else {
      assert SelfBooked(s, s.lists[c][p].self);
      CountedOnce(Self(s.lists[c][p].self), s, c, p, d, q);
    }
  }

  /** An incarnation is listed once. */
  lemma {:induction false} OneParent(s: Process, c: nat, y: Thread, d: nat, z: Thread)
    requires CountsRight(s) && c < |s.lists| && d < |s.lists| && y in s.lists[c] && z in s.lists[d] && y.self == z.self
    ensures c == d && y == z
  {
    var p :| 0 <= p < |s.lists[c]| && s.lists[c][p] == y;
    var q :| 0 <= q < |s.lists[d]| && s.lists[d][q] == z;
    assert SelfBooked(s, y.self);
    CountedOnce(Self(y.self), s, c, p, d, q);
  }

  lemma {:induction false} ListedIsOld(s: Process, j: nat, x: Thread)
    requires CountsRight(s) && j < |s.lists| && x in s.lists[j]
    ensures x.self < s.serial
  {
    var p :| 0 <= p < |s.lists[j]| && s.lists[j][p] == x;
    ListedWeight(Self(x.self), j, s.lists[j], p);
    OverOneList(Self(x.self), s.lists, j, |s.lists|);
    assert SelfBooked(s, x.self);
  }

  // ----- when the IDs of a core run out

  function LagOf(core: nat, at: nat, pc: Pc): nat {
    match pc
    case Claimed(_, target, _, _) => if target == core then 1 else 0
    case Filled(_, _, target, _) => if target == core then 1 else 0
    case Made(_, _, target) => if target == core then 1 else 0
    case Counted(_, _, target) => if target == core then 1 else 0
    case NotRunning(_, _) => if at == core then 1 else 0
    case NotCounted(_, _) => if at == core then 1 else 0
    case TidLoaded(_, _, _) => if at == core then 1 else 0
    case _ => 0
  }

  /** The IDs of `core` that are taken but not in its thread count: claimed for a thread that is not counted
      yet, or still held by a thread that is no longer counted. */
  function Lag(core: nat, pcs: seq<Pc>, n: nat): nat
    requires n <= |pcs|
  {
    if n == 0 then 0 else Lag(core, pcs, n - 1) + LagOf(core, n - 1, pcs[n - 1])
  }

  lemma {:induction false} ListedAreHome(s: Process, core: nat, c: nat, list: seq<Thread>)
    requires forall x :: x in list ==> ThreadOk(s, c, x)
    ensures ListWeight(HomeOf(core), c, list) == ListWeight(Running(core), c, list)
  {
    if list != [] {
      assert ThreadOk(s, c, list[0]);
      HomeIsUnique(list[0], c, core);
      forall x | x in list[1..] ensures ThreadOk(s, c, x) { assert x in list; }
      ListedAreHome(s, core, c, list[1..]);
    }
  }

  lemma {:induction false} ListsAreHome(s: Process, core: nat, n: nat)
    requires Shaped(s) && n <= |s.lists|
    ensures OverLists(HomeOf(core), s.lists, n) == OverLists(Running(core), s.lists, n)
  {
    if n > 0 {
      assert ListOk(s, n - 1);
      ListedAreHome(s, core, n - 1, s.lists[n - 1]);
      ListsAreHome(s, core, n - 1);
    }
  }

  lemma {:induction false} PcsLag(s: Process, core: nat, n: nat)
    requires Shaped(s) && n <= |s.pcs|
    ensures OverPcs(HomeOf(core), s.pcs, n) == OverPcs(Running(core), s.pcs, n) + Lag(core, s.pcs, n)
  {
    if n > 0 {
      var pc := s.pcs[n - 1];
      assert PcOk(s, n - 1);
      if pc.Filled? || pc.Made? || pc.Counted? || pc.Ready? {
        HomeIsUnique(pc.child, pc.target, core);
      } else if Uncounting(pc) {
        HomeIsUnique(pc.victim, n - 1, core);
      }
      PcsLag(s, core, n - 1);
    }
  }

  lemma {:induction false} BitsAreRunningPlusLag(s: Process, core: nat)
    requires Booked(s) && core < |s.pcs|
    ensures SetBits(s.bits[core]) == s.running[core] + Lag(core, s.pcs, |s.pcs|)
  {
    assert RunBooked(s, core) && BitsBooked(s, core);
    ListsAreHome(s, core, |s.lists|);
    PcsLag(s, core, |s.pcs|);
  }

  lemma {:induction false} AllBitsSet(bits: seq<bool>)
    ensures SetBits(bits) <= |bits|
    ensures SetBits(bits) == |bits| <==> LowestClear(bits) == |bits|
  {
    if bits != [] { AllBitsSet(bits[1..]); }
  }

  /** The exit "no available TIDs" is taken exactly when the counted threads of the chosen core and the
      operations still under way on it hold all 32 IDs. */
  lemma {:induction false} NoTidIff(s: Process, c: nat)
    requires Booked(s) && c < |s.pcs| && s.pcs[c].Chosen?
    ensures var target := s.pcs[c].target;
            target < |s.pcs| &&
            (Advanced(s, c).pcs[c].Idle? <==> s.running[target] + Lag(target, s.pcs, |s.pcs|) == TIDS)
  {
    assert PcOk(s, c);
    var target := s.pcs[c].target;
    assert BitsOk(s, target);
    BitsAreRunningPlusLag(s, target);
    AllBitsSet(s.bits[target]);
  }

  /** So with nothing under way on it, a core with fewer than 32 threads always has a free ID. */
  lemma {:induction false} RoomMeansTid(s: Process, c: nat)
    requires Booked(s) && c < |s.pcs| && s.pcs[c].Chosen?
    requires s.pcs[c].target < |s.pcs| && s.running[s.pcs[c].target] < TIDS
    requires forall d :: 0 <= d < |s.pcs| ==> LagOf(s.pcs[c].target, d, s.pcs[d]) == 0
    ensures Advanced(s, c).pcs[c].Picked?
  {
    NoTidIff(s, c);
    NoLag(s.pcs[c].target, s.pcs, |s.pcs|);
  }

  lemma {:induction false} NoLag(core: nat, pcs: seq<Pc>, n: nat)
    requires n <= |pcs| && forall d :: 0 <= d < |pcs| ==> LagOf(core, d, pcs[d]) == 0
    ensures Lag(core, pcs, n) == 0
  {
    if n > 0 { NoLag(core, pcs, n - 1); }
  }

  // ----- a quiet process

  ghost predicate Quiet(s: Process) {
    forall c :: 0 <= c < |s.pcs| ==> s.pcs[c].Idle?
  }

  function Lengths(lists: seq<seq<Thread>>, n: nat): nat
    requires n <= |lists|
  {
    if n == 0 then 0 else Lengths(lists, n - 1) + |lists[n - 1]|
  }

  lemma {:induction false} WeightIsLength(core: nat, c: nat, list: seq<Thread>)
    ensures ListWeight(Running(core), c, list) == if c == core then |list| else 0
    ensures ListWeight(All, c, list) == |list|
  {
    if list != [] { WeightIsLength(core, c, list[1..]); }
  }

  lemma {:induction false} ListsAreLengths(core: nat, lists: seq<seq<Thread>>, n: nat)
    requires n <= |lists|
    ensures OverLists(Running(core), lists, n) == if core < n then |lists[core]| else 0
    ensures OverLists(All, lists, n) == Lengths(lists, n)
  {
    if n > 0 {
      WeightIsLength(core, n - 1, lists[n - 1]);
      ListsAreLengths(core, lists, n - 1);
    }
  }

  /** Between operations: each core's thread count is the length of its list and the process's is their sum. */
  lemma {:induction false} QuietCounts(s: Process, core: nat)
    requires CountsRight(s) && Quiet(s) && core < |s.lists|
    ensures s.running[core] == |s.lists[core]|
    ensures s.total == Lengths(s.lists, |s.lists|)
  {
    assert RunBooked(s, core);
    ListsAreLengths(core, s.lists, |s.lists|);
    IdlePcs(Running(core), s.pcs, |s.pcs|);
    IdlePcs(All, s.pcs, |s.pcs|);
  }

  lemma {:induction false} SomeHolder(m: Measure, core: nat, list: seq<Thread>)
    requires ListWeight(m, core, list) > 0
    ensures exists p :: 0 <= p < |list| && Weight(m, core, list[p]) > 0
  {
    if Weight(m, core, list[0]) == 0 {
      SomeHolder(m, core, list[1..]);
      var p :| 0 <= p < |list[1..]| && Weight(m, core, list[1..][p]) > 0;
      assert Weight(m, core, list[p + 1]) > 0;
    }
  }

  lemma {:induction false} SomeList(m: Measure, lists: seq<seq<Thread>>, n: nat)
    requires n <= |lists| && OverLists(m, lists, n) > 0
    ensures exists c :: 0 <= c < n && ListWeight(m, c, lists[c]) > 0
  {
    if ListWeight(m, n - 1, lists[n - 1]) == 0 {
      SomeList(m, lists, n - 1);
    }
  }

  /** Between operations: a bit is set exactly when a thread of that core's list has the ID. */
  lemma {:induction false} QuietBits(s: Process, core: nat, bit: nat)
    requires Booked(s) && Quiet(s) && core < |s.lists| && bit < TIDS
    ensures |s.bits[core]| == TIDS
    ensures s.bits[core][bit] <==> exists p :: 0 <= p < |s.lists[core]| && s.lists[core][p].tid == TidOf(core, bit)
  {
    var m := Tid(TidOf(core, bit));
    assert BitsOk(s, core) && TidBooked(s, m.tid);
    TidIsHome(core, bit, core);
    IdlePcs(m, s.pcs, |s.pcs|);
    if s.bits[core][bit] {
      SomeList(m, s.lists, |s.lists|);
      var c :| 0 <= c < |s.lists| && ListWeight(m, c, s.lists[c]) > 0;
      SomeHolder(m, c, s.lists[c]);
      var p :| 0 <= p < |s.lists[c]| && Weight(m, c, s.lists[c][p]) > 0;
      assert ListOk(s, c) && ThreadOk(s, c, s.lists[c][p]);
      HomeIsUnique(s.lists[c][p], c, core);
    } else if p :| 0 <= p < |s.lists[core]| && s.lists[core][p].tid == TidOf(core, bit) {
      ListedWeight(m, core, s.lists[core], p);
      OverOneList(m, s.lists, core, |s.lists|);
    }
  }

  // ----- a process without threads

  /** Once the thread count is zero all lists are empty and no creation is under way, and so it stays: core 0 may
      take the process down. */
  lemma {:induction false} NoThreadsNoReturn(s: Process, step: Step)
    requires CountsRight(s) && s.total == 0
    ensures forall c :: 0 <= c < |s.lists| ==> s.lists[c] == [] && !Creating(s.pcs[c])
    ensures Enabled(s, step) ==> Apply(s, step).total == 0
  {
    forall c | 0 <= c < |s.lists|
      ensures s.lists[c] == []
    {
      OverOneList(All, s.lists, c, |s.lists|);
      WeightIsLength(0, c, s.lists[c]);
    }
    forall c | 0 <= c < |s.lists|
      ensures !Creating(s.pcs[c])
    {
      assert PcOk(s, c);
    }
    if Enabled(s, step) {
      assert PcOk(s, step.core);
      HeldByPc(All, s.pcs, step.core, |s.pcs|);
    }
  }
}
