/** Runs from a new process in which a kill looks for children while another core frees a block it stands on and a
    third reuses it: a child is never marked, or a stranger is.
    Source: source/kernel/hardware/devices/cpu/scheduler.c:455-456, 1045-1074, 1107;
    source/kernel/hardware/devices/memory/memory_allocators.c:775-835 */
module LifecycleCuts {
  import opened Lifecycle
  import opened LifecycleBooks
  import opened LifecycleTids
  import opened LifecycleNodes
  import opened LifecycleParents
  import opened LifecycleAlone
  import opened LifecycleRaces

  const FAR := Thread(3, TidOf(2, 0), 0, 0, TidOf(0, 0), 3)

  /** The main thread on core 0 has two children on core 1 and one on core 2; only core 0 may be at something. */
  ghost predicate Kin(s: Process, pc: Pc, marked: set<nat>) {
    && HeapOk(s) && Booked(s) && |s.pcs| == 3 && s.pcs[0] == pc && s.pcs[1].Idle? && s.pcs[2].Idle?
    && s.lists[0] == [MAIN] && s.lists[1] == [Child(1), Child(0)] && s.lists[2] == [FAR] && s.running[2] == 1
    && s.marked == marked && s.serial == 4 && s.nodePool == [] && |s.nodes| == 4
  }

  lemma {:induction false} KinFromStart(r: Along)
    requires Follows(r)
    ensures exists t :: r(Start(3, 0), t) && Kin(t, Idle, {})
  {
    Grow(r, 3, 2);
    var s :| r(Start(3, 0), s) && Grown(s, 3, 2);
    QuietCounts(s, 2);
    RoomToCreate(s, 0, MAIN, 2);
    CreateAlone(r, s, 0, MAIN, 2, false);
    var t := Created(s, 0, MAIN, 2, false);
    Then(r, Start(3, 0), s, t);
    Kept(r, s, t);
    FarIsMade(s);
  }

  lemma {:induction false} FarIsMade(s: Process)
    requires Grown(s, 3, 2) && s.running[2] == 0 && CanCreate(s, 0, MAIN, 2)
    requires Shaped(Claiming(s, 0, MAIN, 2, false))
    requires HeapOk(Created(s, 0, MAIN, 2, false)) && Booked(Created(s, 0, MAIN, 2, false))
    ensures Kin(Created(s, 0, MAIN, 2, false), Idle, {})
  {
    TwoChildren();
    CreatedIs(s, 0, MAIN, 2, false);
    QuietBits(s, 2, 0);
    assert LowestClear(s.bits[2]) == 0;
    assert NewThread(s, MAIN, 2, false, 0) == FAR;
    assert [FAR] + s.lists[2] == [FAR];
  }

  // ----- the kill of the main thread comes to the first child on core 1

  /** The walk to the end of a list, with what it has marked. */
  lemma {:induction false} WalkTo(r: Along, s: Process, c: nat, list: seq<Thread>, marked: set<nat>)
    requires Follows(r) && Shaped(s) && c < |s.pcs| && s.pcs[c].Standing? && s.pcs[c].at == HeadOf(list)
    requires Linked(s.nodes, list) && marked == s.marked + Named(list, s.pcs[c].victim.tid)
    ensures var pc := s.pcs[c];
            var t := At(s.(marked := marked), c, Standing(pc.victim, pc.prev, pc.since, pc.upTo, NIL));
            r(s, t) && Shaped(t)
  {
    ListWalkAlone(r, s, c, list);
  }

  lemma {:induction false} WalkFirstList(r: Along, s: Process)
    requires Follows(r) && Kin(s, Idle, {})
    ensures var t := At(s, 0, Standing(MAIN, NIL, 4, 0, NIL)); r(s, t) && Shaped(t)
  {
    First(r, s, BeginKill(0, MAIN));
    var a := At(s, 0, Marking(MAIN, NIL, 4, 0));
    assert Apply(s, BeginKill(0, MAIN)) == a;
    Forward(r, s, a, 0);
    var b := At(s, 0, Standing(MAIN, NIL, 4, 0, 0));
    assert Advanced(a, 0) == b;
    assert Named([MAIN], MAIN.tid) == {} + Named([], MAIN.tid);
    WalkTo(r, b, 0, [MAIN], {});
    var d := At(s, 0, Standing(MAIN, NIL, 4, 0, NIL));
    assert At(b.(marked := {}), 0, Standing(MAIN, NIL, 4, 0, NIL)) == d;
    Then(r, s, b, d);
  }

  lemma {:induction false} WalkToSecondList(r: Along, s: Process)
    requires Follows(r) && Kin(s, Idle, {})
    ensures var t := At(s, 0, Standing(MAIN, NIL, 4, 1, 2)); r(s, t) && Shaped(t)
  {
    WalkFirstList(r, s);
    var d := At(s, 0, Standing(MAIN, NIL, 4, 0, NIL));
    Forward(r, s, d, 0);
    var e := At(s, 0, Marking(MAIN, NIL, 4, 1));
    assert Advanced(d, 0) == e;
    Forward(r, s, e, 0);
    assert Advanced(e, 0) == At(s, 0, Standing(MAIN, NIL, 4, 1, 2));
  }

  lemma {:induction false} FirstChildSeen(r: Along, s: Process)
    requires Follows(r) && Kin(s, Idle, {})
    ensures var t := At(s, 0, Matching(MAIN, NIL, 4, 1, 2, 2)); r(s, t) && Kin(t, Matching(MAIN, NIL, 4, 1, 2, 2), {})
  {
    WalkToSecondList(r, s);
    var a := At(s, 0, Standing(MAIN, NIL, 4, 1, 2));
    LinkedPlace(s.nodes, s.lists[1], Child(1));
    Forward(r, s, a, 0);
    var t := At(s, 0, Matching(MAIN, NIL, 4, 1, 2, 2));
    assert Advanced(a, 0) == t;
    Kept(r, s, t);
  }

  lemma {:induction false} FirstChildMarked(r: Along, s: Process)
    requires Follows(r) && Kin(s, Matching(MAIN, NIL, 4, 1, 2, 2), {})
    ensures exists t :: r(s, t) && Kin(t, Passing(MAIN, NIL, 4, 1, 2), {2})
  {
    LinkedPlace(s.nodes, s.lists[1], Child(1));
    Onward(r, s, 0);
    Kept(r, s, Advanced(s, 0));
    assert Kin(Advanced(s, 0), Passing(MAIN, NIL, 4, 1, 2), {2});
  }

  // ----- meanwhile its block is freed and reused

  lemma {:induction false} NobodyNamed(list: seq<Thread>, tid: nat)
    requires forall x :: x in list ==> x.creatorTid != tid
    ensures Named(list, tid) == {}
  {
    if list != [] {
      forall x | x in list[1..] ensures x in list {}
      NobodyNamed(list[1..], tid);
    }
  }

  lemma {:induction false} NobodyNames(lists: seq<seq<Thread>>, n: nat, tid: nat)
    requires n <= |lists| && forall j, x :: 0 <= j < |lists| && x in lists[j] ==> x.creatorTid != tid
    ensures NamedFrom(lists, n, tid) == {}
    decreases |lists| - n
  {
    if n < |lists| {
      NobodyNamed(lists[n], tid);
      NobodyNames(lists, n + 1, tid);
    }
  }

  /** The first child on core 1 is gone and its block is free. */
  ghost predicate Bereft(s: Process, pc: Pc, marked: set<nat>) {
    && HeapOk(s) && Booked(s) && |s.pcs| == 3 && s.pcs[0] == pc && s.pcs[1].Idle? && s.pcs[2].Idle?
    && s.lists[0] == [MAIN] && s.lists[1] == [Child(0)] && s.lists[2] == [FAR] && s.running[2] == 1
    && s.marked == marked && s.serial == 4 && s.nodePool == [2] && |s.nodes| == 4
  }

  lemma {:induction false} KilledLeavesBereft(s: Process, pc: Pc, marked: set<nat>)
    requires Kin(s, pc, marked) && CanKill(s, 1, Child(1)) && BitOf(Child(1).tid) < |s.bits[1]|
    requires Shaped(Fading(s, 1, Child(1)))
    requires HeapOk(Killed(s, 1, Child(1))) && Booked(Killed(s, 1, Child(1)))
    ensures Bereft(Killed(s, 1, Child(1)), pc, marked)
  {
    KilledIs(s, 1, Child(1));
    NobodyNames(s.lists, 0, Child(1).tid);
    assert Without(s.lists[1], Child(1)) == [Child(0)];
    assert s.nodePool + [2] == [2] && s.marked + {} == marked;
  }

  lemma {:induction false} FirstChildDies(r: Along, s: Process, pc: Pc, marked: set<nat>)
    requires Follows(r) && Kin(s, pc, marked)
    ensures exists t :: r(s, t) && Bereft(t, pc, marked)
  {
    KillAlone(r, s, 1, Child(1));
    Kept(r, s, Killed(s, 1, Child(1)));
    KilledLeavesBereft(s, pc, marked);
  }

  /** Its block holds a new child of the thread on core 2. */
  ghost predicate Refilled(s: Process, pc: Pc, marked: set<nat>, y: Thread) {
    && HeapOk(s) && Booked(s) && |s.pcs| == 3 && s.pcs[0] == pc && s.pcs[1].Idle? && s.pcs[2].Idle?
    && s.lists[0] == [MAIN] && s.lists[1] == [Child(0)] && s.lists[2] == [y, FAR]
    && s.marked == marked && y.self == 4 && y.node == 2 && y.creator == 3 && y.creatorTid == FAR.tid
  }

  lemma {:induction false} BlockReused(r: Along, s: Process, pc: Pc, marked: set<nat>)
    requires Follows(r) && Bereft(s, pc, marked) && Walking(pc)
    ensures exists t, y :: r(s, t) && Refilled(t, pc, marked, y)
  {
    RoomToCreate(s, 2, FAR, 2);
    CreateAlone(r, s, 2, FAR, 2, false);
    var t := Created(s, 2, FAR, 2, false);
    Kept(r, s, t);
    CreatedIs(s, 2, FAR, 2, false);
    var y := NewThread(s, FAR, 2, false, LowestClear(s.bits[2]));
    assert [y] + [FAR] == [y, FAR];
    assert Refilled(t, pc, marked, y);
  }

  lemma {:induction false} RefilledFromStart(r: Along, early: bool)
    requires Follows(r)
    ensures early ==> exists t, y :: r(Start(3, 0), t) && Refilled(t, Matching(MAIN, NIL, 4, 1, 2, 2), {}, y)
    ensures !early ==> exists t, y :: r(Start(3, 0), t) && Refilled(t, Passing(MAIN, NIL, 4, 1, 2), {2}, y)
  {
    KinFromStart(r);
    var s :| r(Start(3, 0), s) && Kin(s, Idle, {});
    FirstChildSeen(r, s);
    var a := At(s, 0, Matching(MAIN, NIL, 4, 1, 2, 2));
    Then(r, Start(3, 0), s, a);
    if early {
      ReuseFrom(r, a, Matching(MAIN, NIL, 4, 1, 2, 2), {});
    } else {
      FirstChildMarked(r, a);
      var b :| r(a, b) && Kin(b, Passing(MAIN, NIL, 4, 1, 2), {2});
      Then(r, Start(3, 0), a, b);
      ReuseFrom(r, b, Passing(MAIN, NIL, 4, 1, 2), {2});
    }
  }

  lemma {:induction false} ReuseFrom(r: Along, s: Process, pc: Pc, marked: set<nat>)
    requires Follows(r) && r(Start(3, 0), s) && Kin(s, pc, marked) && Walking(pc)
    ensures exists t, y :: r(Start(3, 0), t) && Refilled(t, pc, marked, y)
  {
    FirstChildDies(r, s, pc, marked);
    var a :| r(s, a) && Bereft(a, pc, marked);
    BlockReused(r, a, pc, marked);
    var t, y :| r(a, t) && Refilled(t, pc, marked, y);
    Then(r, Start(3, 0), s, a);
    Then(r, Start(3, 0), a, t);
  }

  // ----- a stranger is marked

  /** A listed thread is told to go, and its creator is listed, not told to go, and not being killed. */
  ghost predicate StrangerMarked(s: Process) {
    && |s.lists| == |s.pcs| == 3 && s.pcs[2].Idle?
    && exists x, y :: x in s.lists[2] && x.self in s.marked && y in s.lists[2] && y.self == x.creator &&
                      y.tid == x.creatorTid && y.self !in s.marked
  }

  lemma {:induction false} MarkRefilled(r: Along, s: Process, y: Thread)
    requires Follows(r) && Refilled(s, Matching(MAIN, NIL, 4, 1, 2, 2), {}, y)
    ensures exists t :: r(s, t) && StrangerMarked(t)
  {
    LinkedPlace(s.nodes, s.lists[2], y);
    Onward(r, s, 0);
    var t := Advanced(s, 0);
    assert y in t.lists[2] && y.self in t.marked && FAR in t.lists[2] && FAR.self !in t.marked;
    assert StrangerMarked(t);
  }

  lemma {:induction false} StrangerFromStart(r: Along)
    requires Follows(r)
    ensures exists t :: r(Start(3, 0), t) && StrangerMarked(t)
  {
    RefilledFromStart(r, true);
    var s, y :| r(Start(3, 0), s) && Refilled(s, Matching(MAIN, NIL, 4, 1, 2, 2), {}, y);
    MarkRefilled(r, s, y);
    var t :| r(s, t) && StrangerMarked(t);
    Then(r, Start(3, 0), s, t);
  }

  /** A kill compares a block's creator, the block gets another thread, and the kill marks that one. */
  lemma {:induction false} MarksAStranger()
    ensures exists t :: Fresh(Start(3, 0), t) && StrangerMarked(t)
  {
    FreshFollows();
    StrangerFromStart(Fresh);
  }

  // ----- a child is never marked

  /** A listed thread is not told to go, and its creator is gone. */
  ghost predicate Orphaned(s: Process) {
    exists j: nat, x :: j < |s.lists| && x in s.lists[j] && Unmarked(s, x) &&
      forall c: nat, y :: c < |s.lists| && y in s.lists[c] ==> y.self != x.creator
  }

  /** The kill goes on from the reused block into the list of core 2, and from its end to that list itself. */
  lemma {:induction false} WalkAstray(r: Along, s: Process, y: Thread)
    requires Follows(r) && Refilled(s, Passing(MAIN, NIL, 4, 1, 2), {2}, y)
    ensures var t := At(s.(marked := {2, 3}), 0, Standing(MAIN, NIL, 4, 1, NIL)); r(s, t) && Shaped(t)
  {
    assert [y, FAR][1..] == [FAR] && Linked(s.nodes, s.lists[2]);
    assert s.nodes[2].next == 3 && Linked(s.nodes, [FAR]);
    Onward(r, s, 0);
    var a := At(s, 0, Standing(MAIN, NIL, 4, 1, 3));
    assert Advanced(s, 0) == a;
    assert [FAR][1..] == [] && Named([FAR], MAIN.tid) == {3};
    assert a.marked + {3} == {2, 3};
    WalkTo(r, a, 0, [FAR], {2, 3});
    var t := At(s.(marked := {2, 3}), 0, Standing(MAIN, NIL, 4, 1, NIL));
    assert At(a.(marked := {2, 3}), 0, Standing(MAIN, NIL, 4, 1, NIL)) == t;
    Then(r, s, a, t);
  }

  lemma {:induction false} NamedAfter(lists: seq<seq<Thread>>, y: Thread)
    requires |lists| == 3 && lists[2] == [y, FAR] && y.creatorTid == FAR.tid
    ensures NamedFrom(lists, 2, MAIN.tid) == {3}
  {
    assert lists[2][1..] == [FAR] && [FAR][1..] == [];
    assert NamedFrom(lists, 3, MAIN.tid) == {};
    assert Named([FAR], MAIN.tid) == {3};
    assert Named(lists[2], MAIN.tid) == {3};
  }

  /** Every list is walked, one child is not marked. */
  predicate Astray(s: Process, y: Thread) {
    && Shaped(s) && |s.pcs| == 3 && (forall j :: 0 <= j < 3 ==> Linked(s.nodes, s.lists[j]))
    && s.lists[0] == [MAIN] && s.lists[1] == [Child(0)] && s.lists[2] == [y, FAR] && s.marked == {2, 3}
    && y.creatorTid == FAR.tid && y.self == 4
  }

  lemma {:induction false} WalkToEnd(r: Along, s: Process, y: Thread)
    requires Follows(r) && Astray(s, y) && s.pcs[0] == Standing(MAIN, NIL, 4, 1, NIL)
    ensures var t := At(s, 0, Marking(MAIN, NIL, 4, 3)); r(s, t) && Astray(t, y)
  {
    Onward(r, s, 0);
    var a := At(s, 0, Marking(MAIN, NIL, 4, 2));
    assert Advanced(s, 0) == a;
    ListsWalkAlone(r, a, 0);
    NamedAfter(s.lists, y);
    var b := At(s, 0, Marking(MAIN, NIL, 4, 3));
    assert a.marked + {3} == s.marked;
    assert At(a.(marked := a.marked + NamedFrom(a.lists, 2, MAIN.tid)), 0, Marking(MAIN, NIL, 4, 3)) == b;
    Then(r, s, a, b);
  }

  lemma {:induction false} IsOrphaned(s: Process, y: Thread)
    requires |s.lists| == 3 && s.lists[0] == [] && s.lists[1] == [Child(0)] && s.lists[2] == [y, FAR]
    requires s.marked == {2, 3} && y.self == 4
    ensures Orphaned(s)
  {
    assert Child(0) in s.lists[1] && Unmarked(s, Child(0));
  }

  lemma {:induction false} UnlinkOrphans(r: Along, s: Process, y: Thread)
    requires Follows(r) && Astray(s, y) && s.pcs[0] == Marking(MAIN, NIL, 4, 3)
    ensures exists t :: r(s, t) && Orphaned(t)
  {
    Onward(r, s, 0);
    var t := Advanced(s, 0);
    assert Without([MAIN], MAIN) == [];
    IsOrphaned(t, y);
  }

  lemma {:induction false} AstrayIsOrphan(r: Along, s: Process, y: Thread)
    requires Follows(r) && Astray(s, y) && s.pcs[0] == Standing(MAIN, NIL, 4, 1, NIL)
    ensures exists t :: r(s, t) && Orphaned(t)
  {
    WalkToEnd(r, s, y);
    var a := At(s, 0, Marking(MAIN, NIL, 4, 3));
    UnlinkOrphans(r, a, y);
    var t :| r(a, t) && Orphaned(t);
    Then(r, s, a, t);
  }

  lemma {:induction false} OrphanFromStart(r: Along)
    requires Follows(r)
    ensures exists t :: r(Start(3, 0), t) && Orphaned(t)
  {
    RefilledFromStart(r, false);
    var s, y :| r(Start(3, 0), s) && Refilled(s, Passing(MAIN, NIL, 4, 1, 2), {2}, y);
    WalkAstray(r, s, y);
    var a := At(s.(marked := {2, 3}), 0, Standing(MAIN, NIL, 4, 1, NIL));
    assert Astray(a, y);
    Then(r, Start(3, 0), s, a);
    AstrayIsOrphan(r, a, y);
    var t :| r(a, t) && Orphaned(t);
    Then(r, Start(3, 0), a, t);
  }

  /** A kill stands on a block that is freed and reused, goes on in another list, and leaves a child unmarked: the
      child's creator is dead. */
  lemma {:induction false} LeavesAnOrphan()
    ensures exists t :: Fresh(Start(3, 0), t) && Orphaned(t)
  {
    FreshFollows();
    OrphanFromStart(Fresh);
  }
}
