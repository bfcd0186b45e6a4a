/** Runs from a new process that break the TID bitmap's books, and one that turns a creation away although the core
    has room.
    Source: source/kernel/hardware/devices/cpu/scheduler.c:254-265, 426-450, 1081 */
module LifecycleRaces {
  import opened Lifecycle
  import opened LifecycleBooks
  import opened LifecycleTids
  import opened LifecycleNodes
  import opened LifecycleAlone

  const MAIN := Thread(0, TidOf(0, 0), 0, 0, 0, 0)

  lemma {:induction false} StartIsFine(cores: nat)
    requires cores > 0
    ensures var s := Start(cores, 0);
            HeapOk(s) && Booked(s) && |s.pcs| == cores && s.lists[0] == [MAIN] && s.running[0] == 1
  {
    StartIsBooked(cores, 0);
    StartHasHeap(cores, 0);
  }

  /** What a creation that ran alone has changed. */
  lemma {:induction false} CreatedIs(s: Process, c: nat, maker: Thread, target: nat, spawn: bool)
    requires CanCreate(s, c, maker, target) && Shaped(Claiming(s, c, maker, target, spawn))
    ensures var t := Created(s, c, maker, target, spawn);
            var child := NewThread(s, maker, target, spawn, LowestClear(s.bits[target]));
            && t.pcs == s.pcs && t.marked == s.marked && t.serial == s.serial + 1
            && child.self == s.serial && child.creator == maker.self && child.creatorTid == maker.tid
            && child.tid == target * 32 + LowestClear(s.bits[target]) + 1
            && child.dir == (if spawn then s.serial else maker.dir)
            && t.lists == s.lists[target := [child] + s.lists[target]]
            && t.running == s.running[target := s.running[target] + 1]
            && t.bits == s.bits[target := s.bits[target][LowestClear(s.bits[target]) := true]]
            && t.nodePool == Popped(s.nodePool)
            && t.nodes == Put(s.nodes, child.node, Node(child, HeadOf(s.lists[target])))
  {
    assert BitsOk(s, target);
  }

  /** What a creation that ran alone has done to the counters. */
  lemma {:induction false} CreatedCounts(s: Process, c: nat, maker: Thread, target: nat, spawn: bool)
    requires CanCreate(s, c, maker, target) && Shaped(Claiming(s, c, maker, target, spawn)) && maker.dir in s.dirs
    ensures var t := Created(s, c, maker, target, spawn);
            && (spawn ==>
                  var cell := Top(s.cellPool, |s.cells|);
                  && cell <= |s.cells| && t.cells == Put(s.cells, cell, 1) && t.cellPool == Popped(s.cellPool)
                  && t.dirs == s.dirs[s.serial := Directory(cell, 0)])
            && (!spawn ==>
                  var cell := s.dirs[maker.dir].cell;
                  && cell < |s.cells| && t.cells == s.cells[cell := s.cells[cell] + 1]
                  && t.cellPool == s.cellPool && t.dirs == s.dirs)
  {
    assert BitsOk(s, target);
  }

  /** Where nothing is under way on a core with fewer than 32 threads, a creation can run. */
  lemma {:induction false} RoomToCreate(s: Process, c: nat, maker: Thread, target: nat)
    requires Booked(s) && c < |s.pcs| && s.pcs[c].Idle? && maker in s.lists[c]
    requires target < |s.pcs| && s.running[target] < TIDS
    requires forall d :: 0 <= d < |s.pcs| ==> LagOf(target, d, s.pcs[d]) == 0
    ensures CanCreate(s, c, maker, target)
  {
    assert BitsOk(s, target);
    NoLag(target, s.pcs, |s.pcs|);
    BitsAreRunningPlusLag(s, target);
    AllBitsSet(s.bits[target]);
  }

  // ----- two claims of one bit

  ghost predicate Collision(r: Along, s: Process, t: Process, d: nat) {
    r(s, t) && Shaped(t) && d < |t.pcs| && !t.pcs[d].Idle? && Clash(t, Advance(d))
  }

  /** From any state in which two cores may create on one core they can come to claim the same bit. */
  lemma {:induction false} TwoClaims(r: Along, s: Process, c: nat, d: nat, x: Thread, y: Thread, target: nat)
    requires Follows(r) && CanCreate(s, c, x, target) && CanCreate(s, d, y, target) && c != d
    ensures exists t :: Collision(r, s, t, d)
  {
    var bit := LowestClear(s.bits[target]);
    SearchAlone(r, s, c, x, target, false);
    var a := At(s, c, Loaded(x, target, false, bit, s.bits[target]));
    SearchAlone(r, a, d, y, target, false);
    var b := At(a, d, Loaded(y, target, false, bit, s.bits[target]));
    Then(r, s, a, b);
    First(r, b, Advance(c));
    var t := Apply(b, Advance(c));
    Then(r, s, b, t);
    assert t.bits[target][bit] && t.pcs[d] == b.pcs[d];
    assert Collision(r, s, t, d);
  }

  // ----- the main thread creates threads on core 1

  /** The thread the main thread creates on core 1 when it has created `n` there. */
  function Child(n: nat): Thread {
    Thread(n + 1, TidOf(1, n), 0, 0, TidOf(0, 0), n + 1)
  }

  function Children(n: nat): (list: seq<Thread>)
    ensures |list| == n
  {
    if n == 0 then [] else [Child(n - 1)] + Children(n - 1)
  }

  /** Nothing is under way, and there are the main thread and its children on core 1. */
  ghost predicate Grown(s: Process, cores: nat, n: nat) {
    && HeapOk(s) && Booked(s) && |s.pcs| == cores
    && (forall c :: 0 <= c < cores ==> s.pcs[c].Idle?)
    && cores > 1 && s.lists[0] == [MAIN] && s.lists[1] == Children(n)
    && (forall c :: 2 <= c < cores ==> s.lists[c] == [])
    && s.running[0] == 1 && s.running[1] == n
    && (forall i :: 0 <= i < TIDS && i < |s.bits[1]| ==> s.bits[1][i] == (i < n))
    && s.marked == {} && s.serial == n + 1 && s.nodePool == [] && |s.nodes| == n + 1
    && s.dirs == map[0 := Directory(0, 0)] && s.cells == [n + 1] && s.cellPool == []
  }

  lemma {:induction false} StartIsGrown(cores: nat)
    requires cores > 1
    ensures Grown(Start(cores, 0), cores, 0)
  {
    StartIsFine(cores);
  }

  lemma {:induction false} RoomToGrow(s: Process, cores: nat, n: nat)
    requires Grown(s, cores, n) && n < 32
    ensures CanCreate(s, 0, MAIN, 1) && LowestClear(s.bits[1]) == n
  {
    assert BitsOk(s, 1);
    RoomToCreate(s, 0, MAIN, 1);
    assert !s.bits[1][n];
  }

  lemma {:induction false} OneMoreChild(s: Process, cores: nat, n: nat, t: Process)
    requires Grown(s, cores, n) && n < 31 && CanCreate(s, 0, MAIN, 1) && LowestClear(s.bits[1]) == n
    requires Shaped(Claiming(s, 0, MAIN, 1, false)) && t == Created(s, 0, MAIN, 1, false)
    requires HeapOk(t) && Booked(t)
    ensures Grown(t, cores, n + 1)
  {
    CreatedIs(s, 0, MAIN, 1, false);
    CreatedCounts(s, 0, MAIN, 1, false);
    assert BitsOk(s, 1);
    assert NewThread(s, MAIN, 1, false, n) == Child(n);
    assert [Child(n)] + s.lists[1] == Children(n + 1);
  }

  lemma {:induction false} GrowOne(r: Along, s: Process, cores: nat, n: nat)
    requires Follows(r) && Grown(s, cores, n) && n < 31
    ensures exists t :: r(s, t) && Grown(t, cores, n + 1)
  {
    RoomToGrow(s, cores, n);
    CreateAlone(r, s, 0, MAIN, 1, false);
    var t := Created(s, 0, MAIN, 1, false);
    Kept(r, s, t);
    OneMoreChild(s, cores, n, t);
  }

  lemma {:induction false} Grow(r: Along, cores: nat, n: nat)
    requires Follows(r) && cores > 1 && n <= 31
    ensures exists t :: r(Start(cores, 0), t) && Grown(t, cores, n)
  {
    if n == 0 {
      StartIsGrown(cores);
      assert Stays(r, Start(cores, 0));
    } else {
      Grow(r, cores, n - 1);
      var s :| r(Start(cores, 0), s) && Grown(s, cores, n - 1);
      GrowOne(r, s, cores, n - 1);
      var t :| r(s, t) && Grown(t, cores, n);
      Then(r, Start(cores, 0), s, t);
    }
  }

  /** Two threads of one process, on two cores, come to hold one TID; nothing is overtaken but the last store. */
  lemma {:induction false} OneIdTwice()
    ensures exists t :: Fresh(Start(2, 0), t) && Booked(t) && Enabled(t, Advance(1)) && Clash(t, Advance(1)) &&
                        !TidsDistinct(Apply(t, Advance(1)))
  {
    FreshFollows();
    TwoClaimsFromStart(Fresh);
    StartIsFine(2);
    var t :| Collision(Fresh, Start(2, 0), t, 1);
    Kept(Fresh, Start(2, 0), t);
    TidsCollideIffClash(t, Advance(1));
  }

  lemma {:induction false} TwoClaimsFromStart(r: Along)
    requires Follows(r)
    ensures exists t :: Collision(r, Start(2, 0), t, 1)
  {
    Grow(r, 2, 1);
    var s :| r(Start(2, 0), s) && Grown(s, 2, 1);
    assert Children(1) == [Child(0)] + Children(0) && Child(0) in s.lists[1];
    RoomToCreate(s, 0, MAIN, 0);
    RoomToCreate(s, 1, Child(0), 0);
    TwoClaims(r, s, 0, 1, MAIN, Child(0), 0);
    var t :| Collision(r, s, t, 1);
    Then(r, Start(2, 0), s, t);
    assert Collision(r, Start(2, 0), t, 1);
  }

  // ----- a lost store

  /** A store that undoes another core's store and is no clash, and after it two holders of one TID without any
      further store being overtaken. */
  ghost predicate LostStore(r: Along, s: Process, t: Process, d: nat, u: Process) {
    && r(s, t) && Shaped(t) && d < |t.pcs| && !t.pcs[d].Idle?
    && Undoes(t, Advance(d)) && !Clash(t, Advance(d)) && !Mistaken(t, Advance(d))
    && r(Apply(t, Advance(d)), u) && !TidsDistinct(u)
  }

  lemma {:induction false} HeldTwice(s: Process, c: nat, d: nat, p: nat)
    requires c < |s.pcs| && s.pcs[c].Claimed? && d < |s.lists| && p < |s.lists[d]|
    requires s.lists[d][p].tid == TidOf(s.pcs[c].target, s.pcs[c].bit)
    ensures !TidsDistinct(s)
  {
    var m := Tid(s.lists[d][p].tid);
    ListedWeight(m, d, s.lists[d], p);
    OverOneList(m, s.lists, d, |s.lists|);
    HeldByPc(m, s.pcs, c, |s.pcs|);
    assert !HeldOnce(s, m.tid);
  }

  lemma {:induction false} LowestStays(bits: seq<bool>, i: nat)
    requires LowestClear(bits) < i < |bits|
    ensures LowestClear(bits[i := false]) == LowestClear(bits)
  {
    var a, b := LowestClear(bits[i := false]), LowestClear(bits);
    assert !bits[i := false][b];
    assert forall k :: 0 <= k < b ==> bits[i := false][k] == bits[k];
  }

  /** The kill has loaded the bitmap and the creation has claimed a bit lower than the victim's meanwhile. */
  function LoadedThenClaimed(s: Process, c: nat, d: nat, m: Thread, v: Thread): Process
    requires CanCreate(s, c, m, d) && CanKill(s, d, v) && c != d
    requires LowestClear(Loading(s, d, v).bits[d]) < |s.bits[d]|
  {
    Claiming(Loading(s, d, v), c, m, d, false)
  }

  lemma {:induction false} LoadThenClaim(r: Along, s: Process, c: nat, d: nat, m: Thread, v: Thread)
    requires Follows(r) && CanCreate(s, c, m, d) && CanKill(s, d, v) && c != d
    requires LowestClear(s.bits[d]) < BitOf(v.tid)
    ensures var t := LoadedThenClaimed(s, c, d, m, v);
            && r(s, t) && Shaped(t) && d < |t.pcs| && t.pcs[d] == TidLoaded(v.tid, v, s.bits[d])
            && Undoes(t, Advance(d)) && !Clash(t, Advance(d))
  {
    LoadAlone(r, s, d, v);
    var a := Loading(s, d, v);
    ClaimAlone(r, a, c, m, d, false);
    var t := LoadedThenClaimed(s, c, d, m, v);
    Then(r, s, a, t);
    var bit := LowestClear(s.bits[d]);
    assert PcOk(t, d) && !s.bits[d][bit] && t.bits[d][bit];
    assert Stale(s.bits[d], t.bits[d], BitOf(v.tid));
  }

  /** After the stale store the creation goes on; the bit it claimed is clear, so its thread and the next one get
      one TID. */
  lemma {:induction false} ClaimTwice(r: Along, s: Process, c: nat, d: nat, m: Thread)
    requires Follows(r) && Shaped(s) && c < |s.pcs| && d < |s.pcs| && c != d && m in s.lists[c]
    requires s.pcs[c] == Claimed(m, d, false, LowestClear(s.bits[d])) && s.running[d] + 1 < TIDS
    ensures exists u :: r(s, u) && !TidsDistinct(u)
  {
    assert PcOk(s, c) && BitsOk(s, d);
    var bit := LowestClear(s.bits[d]);
    FinishAlone(r, s, c);
    var a := Finished(s, c);
    assert a.lists[d][0].tid == TidOf(d, bit) && a.bits == s.bits && a.lists[c] == s.lists[c];
    ClaimAlone(r, a, c, m, d, false);
    var u := Claiming(a, c, m, d, false);
    Then(r, s, a, u);
    HeldTwice(u, c, d, 0);
  }

  /** The kill's stale store leaves the lowest clear bit as it was when the kill loaded the bitmap. */
  lemma {:induction false} StaleStore(s: Process, c: nat, d: nat, m: Thread, v: Thread)
    requires CanCreate(s, c, m, d) && CanKill(s, d, v) && c != d && LowestClear(s.bits[d]) < BitOf(v.tid)
    requires BitOf(v.tid) < |s.bits[d]| && Shaped(LoadedThenClaimed(s, c, d, m, v))
    ensures var t := LoadedThenClaimed(s, c, d, m, v);
            && d < |t.pcs| && t.pcs[d].TidLoaded?
            && var w := Advanced(t, d);
            && |w.pcs| == |s.pcs| == |w.lists| == |w.bits| == |w.running| && w.lists[c] == s.lists[c]
            && w.pcs[c] == Claimed(m, d, false, LowestClear(s.bits[d]))
            && w.running[d] == s.running[d] - 1 && LowestClear(w.bits[d]) == LowestClear(s.bits[d])
  {
    LowestStays(s.bits[d], BitOf(v.tid));
  }

  /** From any state in which one core may create on another, and that one may kill a thread whose bit is above the
      lowest clear one, the kill's store can be the only one overtaken and still two threads get one TID. */
  lemma {:induction false} LoseStore(r: Along, s: Process, c: nat, d: nat, m: Thread, v: Thread)
    requires Follows(r) && CanCreate(s, c, m, d) && CanKill(s, d, v) && c != d
    requires LowestClear(s.bits[d]) < BitOf(v.tid)
    ensures exists t, u :: LostStore(r, s, t, d, u)
  {
    assert BitsOk(s, d) && ListOk(s, d) && ThreadOk(s, d, v);
    HomeIsUnique(v, d, d);
    LoadThenClaim(r, s, c, d, m, v);
    var t := LoadedThenClaimed(s, c, d, m, v);
    StaleStore(s, c, d, m, v);
    StepKeepsShape(t, Advance(d));
    var w := Apply(t, Advance(d));
    ClaimTwice(r, w, c, d, m);
    var u :| r(w, u) && !TidsDistinct(u);
    assert LostStore(r, s, t, d, u);
  }

  /** The first child is gone; the second, with bit 1, is left on core 1. */
  ghost predicate OneLeft(r: Along, t: Process) {
    r(Start(2, 0), t) && CanCreate(t, 0, MAIN, 1) && CanKill(t, 1, Child(1)) && LowestClear(t.bits[1]) == 0
  }

  lemma {:induction false} KilledLeavesOne(s: Process)
    requires Grown(s, 2, 2) && CanKill(s, 1, Child(0)) && BitOf(Child(0).tid) < |s.bits[1]|
    requires Shaped(Fading(s, 1, Child(0)))
    requires HeapOk(Killed(s, 1, Child(0)))
    ensures var t := Killed(s, 1, Child(0));
            CanCreate(t, 0, MAIN, 1) && CanKill(t, 1, Child(1)) && LowestClear(t.bits[1]) == 0
  {
    TwoChildren();
    KilledIs(s, 1, Child(0));
    var t := Killed(s, 1, Child(0));
    assert BitsOk(s, 1) && BitOf(Child(0).tid) == 0 && !t.bits[1][0];
    assert t.lists[0] == [MAIN] && t.lists[1] == [Child(1)];
  }

  lemma {:induction false} LeaveOne(r: Along)
    requires Follows(r)
    ensures exists t :: OneLeft(r, t)
  {
    Grow(r, 2, 2);
    var s :| r(Start(2, 0), s) && Grown(s, 2, 2);
    TwoChildren();
    KillAlone(r, s, 1, Child(0));
    var t := Killed(s, 1, Child(0));
    Then(r, Start(2, 0), s, t);
    Kept(r, s, t);
    KilledLeavesOne(s);
    assert OneLeft(r, t);
  }

  lemma {:induction false} TwoChildren()
    ensures Children(2) == [Child(1), Child(0)] && Without(Children(2), Child(0)) == [Child(1)]
  {
    assert Children(2) == [Child(1)] + Children(1);
    assert Children(1) == [Child(0)] + Children(0);
    assert Without([Child(0)], Child(0)) == [];
    assert Children(2)[1..] == [Child(0)];
  }

  /** What a kill that ran alone has changed. */
  lemma {:induction false} KilledIs(s: Process, c: nat, x: Thread)
    requires CanKill(s, c, x) && c < |s.bits| && BitOf(x.tid) < |s.bits[c]| && Shaped(Fading(s, c, x))
    ensures var t := Killed(s, c, x);
            && t.pcs == s.pcs && t.serial == s.serial
            && t.marked == s.marked + NamedFrom(s.lists, 0, x.tid)
            && t.lists == s.lists[c := Without(s.lists[c], x)]
            && t.running == s.running[c := s.running[c] - 1]
            && t.bits == s.bits[c := s.bits[c][BitOf(x.tid) := false]]
            && t.nodePool == s.nodePool + [x.node] && t.nodes == Bridged(s.nodes, s.lists[c], x)
  {
  }

  /** Without any clash two threads come to hold one TID: the only store overtaken is a kill's, which undoes a claim
      made since it loaded the bitmap. */
  lemma {:induction false} OneIdTwiceWithoutClash()
    ensures exists t, u :: LostStore(Fresh, Start(2, 0), t, 1, u)
  {
    FreshFollows();
    LostFromStart(Fresh);
  }

  lemma {:induction false} LostFromStart(r: Along)
    requires Follows(r)
    ensures exists t, u :: LostStore(r, Start(2, 0), t, 1, u)
  {
    LeaveOne(r);
    var s :| OneLeft(r, s);
    assert BitOf(Child(1).tid) == 1;
    LoseStore(r, s, 0, 1, MAIN, Child(1));
    var t, u :| LostStore(r, s, t, 1, u);
    Then(r, Start(2, 0), s, t);
    assert LostStore(r, Start(2, 0), t, 1, u);
  }

  // ----- a thread taken in the victim's place

  /** Core `c` has begun to kill the first thread of its list when another core pushes one in front of it. */
  ghost predicate PushedAbove(s: Process, t: Process, c: nat, x: Thread, y: Thread) {
    && HeapOk(t) && Booked(t) && c < |s.pcs| == |s.lists| == |s.bits| == |s.running|
    && y.tid == TidOf(c, LowestClear(s.bits[c])) && LowestClear(s.bits[c]) < |s.bits[c]|
    && t.pcs == s.pcs[c := Marking(x, NIL, s.serial, 0)] && t.lists == s.lists[c := [y] + s.lists[c]]
    && t.bits == s.bits[c := s.bits[c][LowestClear(s.bits[c]) := true]]
    && t.running == s.running[c := s.running[c] + 1]
  }

  /** Core `c` may kill `x`, the first of its list, whose bit is below the lowest clear one; `m` on core `d` may
      create there; and nothing is under way on core `c`. */
  ghost predicate MayMiss(s: Process, c: nat, x: Thread, d: nat, m: Thread) {
    && HeapOk(s) && Booked(s) && c < |s.pcs| && d < |s.pcs| && c != d && s.pcs[c].Idle? && s.pcs[d].Idle?
    && s.lists[c] != [] && s.lists[c][0] == x && m in s.lists[d] && s.running[c] + 1 < TIDS
    && BitOf(x.tid) < LowestClear(s.bits[c]) && (forall k :: 0 <= k < |s.pcs| ==> LagOf(c, k, s.pcs[k]) == 0)
  }

  lemma {:induction false} CreatedAbove(s: Process, c: nat, x: Thread, d: nat, m: Thread, a: Process)
    requires Shaped(s) && c < |s.pcs| && a == At(s, c, Marking(x, NIL, s.serial, 0)) && CanCreate(a, d, m, c)
    requires Shaped(Claiming(a, d, m, c, false))
    requires HeapOk(Created(a, d, m, c, false)) && Booked(Created(a, d, m, c, false))
    ensures PushedAbove(s, Created(a, d, m, c, false), c, x, NewThread(a, m, c, false, LowestClear(a.bits[c])))
  {
    CreatedIs(a, d, m, c, false);
  }

  lemma {:induction false} PushAbove(r: Along, s: Process, c: nat, x: Thread, d: nat, m: Thread)
    requires Follows(r) && MayMiss(s, c, x, d, m)
    ensures exists t, y :: r(s, t) && PushedAbove(s, t, c, x, y)
  {
    First(r, s, BeginKill(c, x));
    var a := At(s, c, Marking(x, NIL, s.serial, 0));
    assert Apply(s, BeginKill(c, x)) == a;
    Kept(r, s, a);
    RoomToCreate(a, d, m, c);
    CreateAlone(r, a, d, m, c, false);
    Then(r, s, a, Created(a, d, m, c, false));
    Kept(r, a, Created(a, d, m, c, false));
    CreatedAbove(s, c, x, d, m, a);
  }

  /** The kill has unlinked the pushed thread in place of its victim, and loaded the bitmap. */
  ghost predicate TookOther(s: Process, t: Process, c: nat, x: Thread, y: Thread) {
    && Shaped(t) && c < |s.pcs| == |s.lists| == |s.bits| == |s.running|
    && y.tid == TidOf(c, LowestClear(s.bits[c])) && LowestClear(s.bits[c]) < |s.bits[c]|
    && t.bits == s.bits[c := s.bits[c][LowestClear(s.bits[c]) := true]]
    && t.pcs == s.pcs[c := TidLoaded(x.tid, y, t.bits[c])] && t.lists == s.lists && t.running == s.running
  }

  lemma {:induction false} ExchangeFails(r: Along, s: Process, c: nat, y: Thread)
    requires Follows(r) && HeapOk(s) && c < |s.pcs| && s.lists[c] != [] && s.lists[c][0] == y
    requires s.pcs[c].Marking? && s.pcs[c].upTo == 0 && s.pcs[c].prev == NIL && s.pcs[c].victim != y
    ensures var x := s.pcs[c].victim;
            var t := At(s.(marked := s.marked + NamedFrom(s.lists, 0, x.tid), lists := s.lists[c := s.lists[c][1..]]),
                        c, Unlinked(x.tid, y));
            r(s, t) && Shaped(t)
  {
    var x := s.pcs[c].victim;
    ListsWalkAlone(r, s, c);
    var a := AllWalked(s, c);
    Forward(r, s, a, c);
    var b := At(a, c, Exchanging(x, y));
    assert Advanced(a, c) == b;
    Forward(r, s, b, c);
    assert Without(s.lists[c], y) == s.lists[c][1..];
    assert Advanced(b, c) ==
      At(s.(marked := a.marked, lists := s.lists[c := s.lists[c][1..]]), c, Unlinked(x.tid, y));
  }

  lemma {:induction false} LoadAfter(r: Along, s: Process, c: nat)
    requires Follows(r) && Shaped(s) && c < |s.pcs| && s.pcs[c].Unlinked?
    ensures var t := At(s.(running := s.running[c := s.running[c] - 1], total := s.total - 1), c,
                        TidLoaded(s.pcs[c].tid, s.pcs[c].victim, s.bits[c]));
            r(s, t) && Shaped(t)
  {
    Onward(r, s, c);
    var a := Advanced(s, c);
    Forward(r, s, a, c);
    Forward(r, s, Advanced(a, c), c);
    assert Advanced(Advanced(a, c), c) ==
      At(s.(running := s.running[c := s.running[c] - 1], total := s.total - 1), c,
         TidLoaded(s.pcs[c].tid, s.pcs[c].victim, s.bits[c]));
  }

  /** The state a kill of `x` leaves that took the pushed thread `y` instead, up to its load of the bitmap. */
  function TakenInstead(s: Process, c: nat, x: Thread, y: Thread): Process
    requires c < |s.pcs| && c < |s.lists| && c < |s.running| && c < |s.bits| && s.lists[c] != []
  {
    At(s.(marked := s.marked + NamedFrom(s.lists, 0, x.tid), lists := s.lists[c := s.lists[c][1..]],
          running := s.running[c := s.running[c] - 1], total := s.total - 1), c, TidLoaded(x.tid, y, s.bits[c]))
  }

  lemma {:induction false} TakenIsOther(s: Process, b: Process, c: nat, x: Thread, y: Thread)
    requires PushedAbove(s, b, c, x, y) && Shaped(TakenInstead(b, c, x, y))
    ensures TookOther(s, TakenInstead(b, c, x, y), c, x, y)
  {
    assert b.lists[c][1..] == s.lists[c];
  }

  lemma {:induction false} TakeOther(r: Along, s: Process, b: Process, c: nat, x: Thread, y: Thread)
    requires Follows(r) && PushedAbove(s, b, c, x, y) && x != y
    ensures exists t :: r(b, t) && TookOther(s, t, c, x, y)
  {
    ExchangeFails(r, b, c, y);
    var a := At(b.(marked := b.marked + NamedFrom(b.lists, 0, x.tid), lists := b.lists[c := b.lists[c][1..]]),
                c, Unlinked(x.tid, y));
    LoadAfter(r, a, c);
    var t := TakenInstead(b, c, x, y);
    assert t == At(a.(running := a.running[c := a.running[c] - 1], total := a.total - 1), c, t.pcs[c]);
    Then(r, b, a, t);
    TakenIsOther(s, b, c, x, y);
  }

  /** A store that clears the bit of a thread which is listed still, undoes nothing and is no clash, and after it two
      holders of one TID without any further store being overtaken. */
  ghost predicate MistakenStore(r: Along, s: Process, t: Process, c: nat, u: Process) {
    && r(s, t) && Shaped(t) && c < |t.pcs| && !t.pcs[c].Idle?
    && Mistaken(t, Advance(c)) && !Undoes(t, Advance(c)) && !Clash(t, Advance(c))
    && r(Apply(t, Advance(c)), u) && !TidsDistinct(u)
  }

  lemma {:induction false} LowestCleared(bits: seq<bool>, i: nat)
    requires i < LowestClear(bits) < |bits|
    ensures LowestClear(bits[LowestClear(bits) := true][i := false]) == i
  {
    var after := bits[LowestClear(bits) := true][i := false];
    assert !after[i];
    assert forall k :: 0 <= k < i ==> after[k] == bits[k];
  }

  /** The bit that was cleared by mistake is claimed again. */
  lemma {:induction false} ClaimCleared(r: Along, s: Process, c: nat, x: Thread, d: nat, m: Thread)
    requires Follows(r) && Shaped(s) && c < |s.pcs| && d < |s.pcs| && c != d && s.pcs[d].Idle? && m in s.lists[d]
    requires s.lists[c] != [] && s.lists[c][0] == x && s.running[c] < TIDS
    requires LowestClear(s.bits[c]) == BitOf(x.tid) < |s.bits[c]| && x.tid == TidOf(c, BitOf(x.tid))
    ensures exists u :: r(s, u) && !TidsDistinct(u)
  {
    ClaimAlone(r, s, d, m, c, false);
    HeldTwice(Claiming(s, d, m, c, false), d, c, 0);
  }

  /** From any state of that kind a thread pushed meanwhile can be unlinked in the victim's place, so that the
      victim's ID is given back although it is listed still, and goes to a second thread. */
  lemma {:induction false} MissIt(r: Along, s: Process, c: nat, x: Thread, d: nat, m: Thread)
    requires Follows(r) && MayMiss(s, c, x, d, m)
    ensures exists t, u :: MistakenStore(r, s, t, c, u)
  {
    assert ListOk(s, c) && ThreadOk(s, c, x) && BitsOk(s, c);
    HomeIsUnique(x, c, c);
    PushAbove(r, s, c, x, d, m);
    var b, y :| r(s, b) && PushedAbove(s, b, c, x, y);
    TakeOther(r, s, b, c, x, y);
    var t :| r(b, t) && TookOther(s, t, c, x, y);
    Then(r, s, b, t);
    StoreByMistake(s, t, c, x, y);
    StepKeepsShape(t, Advance(c));
    ClaimCleared(r, Apply(t, Advance(c)), c, x, d, m);
    var u :| r(Apply(t, Advance(c)), u) && !TidsDistinct(u);
    assert MistakenStore(r, s, t, c, u);
  }

  lemma {:induction false} StoreByMistake(s: Process, t: Process, c: nat, x: Thread, y: Thread)
    requires TookOther(s, t, c, x, y) && BitOf(x.tid) < LowestClear(s.bits[c]) && x.tid == TidOf(c, BitOf(x.tid))
    ensures |t.pcs| == |s.pcs| && Mistaken(t, Advance(c)) && !Undoes(t, Advance(c)) && !Clash(t, Advance(c))
    ensures var w := Advanced(t, c);
            && w.lists == s.lists && w.running == s.running && |w.pcs| == |s.pcs| == |w.bits|
            && w.pcs == s.pcs[c := TidFreed(y)] && LowestClear(w.bits[c]) == BitOf(x.tid) < |w.bits[c]|
  {
    LowestCleared(s.bits[c], BitOf(x.tid));
  }

  lemma {:induction false} MissFromStart(r: Along)
    requires Follows(r)
    ensures exists t, u :: MistakenStore(r, Start(2, 0), t, 0, u)
  {
    Grow(r, 2, 1);
    var s :| r(Start(2, 0), s) && Grown(s, 2, 1);
    MainMayBeMissed(s);
    MissIt(r, s, 0, MAIN, 1, Child(0));
    var t, u :| MistakenStore(r, s, t, 0, u);
    Then(r, Start(2, 0), s, t);
    assert MistakenStore(r, Start(2, 0), t, 0, u);
  }

  lemma {:induction false} MainMayBeMissed(s: Process)
    requires Grown(s, 2, 1)
    ensures MayMiss(s, 0, MAIN, 1, Child(0))
  {
    assert Children(1) == [Child(0)] + Children(0) && Child(0) in s.lists[1];
    QuietBits(s, 0, 0);
    assert s.lists[0][0].tid == TidOf(0, 0) && s.bits[0][0];
    assert BitOf(MAIN.tid) == 0;
  }

  /** While core 0 kills the main thread, the first of its list, core 1 pushes a thread there: the kill unlinks that
      one, the main thread stays listed without its bit, and the next thread gets the main thread's ID. */
  lemma {:induction false} OneIdTwiceByMistake()
    ensures exists t, u :: MistakenStore(Fresh, Start(2, 0), t, 0, u)
  {
    FreshFollows();
    MissFromStart(Fresh);
  }

  // ----- no ID although there is room

  /** A core with 31 counted threads, and a creation about to search its bitmap in vain. */
  ghost predicate TurnedAway(s: Process) {
    && Shaped(s) && |s.pcs| == 2 && s.pcs[0].Chosen? && s.pcs[0].target == 1
    && s.running[1] == 31 && Advanced(s, 0).pcs[0].Idle?
  }

  lemma {:induction false} LastIdIsClear(s: Process)
    requires Grown(s, 2, 31)
    ensures CanCreate(s, 1, Child(30), 1) && LowestClear(s.bits[1]) == 31 && |s.bits[1]| == 32
  {
    assert Children(31) == [Child(30)] + Children(30);
    assert s.lists[1][0] == Child(30) && BitsOk(s, 1) && !s.bits[1][31];
    RoomToCreate(s, 1, Child(30), 1);
  }

  lemma {:induction false} AllIdsTaken(s: Process)
    requires Grown(s, 2, 31) && |s.bits[1]| == 32 && LowestClear(s.bits[1]) == 31
    ensures var a := Claiming(s, 1, Child(30), 1, false);
            && |a.pcs| == 2 && a.pcs[0].Idle? && a.lists[0] == [MAIN] && a.running[1] == 31
            && forall i :: 0 <= i < |a.bits[1]| ==> a.bits[1][i]
  {
    assert Claiming(s, 1, Child(30), 1, false).bits[1] == s.bits[1][31 := true];
  }

  lemma {:induction false} LastIdClaimed(r: Along, s: Process)
    requires Follows(r) && Grown(s, 2, 31)
    ensures exists t :: r(s, t) && TurnedAway(t)
  {
    LastIdIsClear(s);
    ClaimAlone(r, s, 1, Child(30), 1, false);
    AllIdsTaken(s);
    var a := Claiming(s, 1, Child(30), 1, false);
    Search(r, a);
    var t :| r(a, t) && TurnedAway(t);
    Then(r, s, a, t);
  }

  lemma {:induction false} Search(r: Along, s: Process)
    requires Follows(r) && Shaped(s) && |s.pcs| == 2 && s.pcs[0].Idle? && MAIN in s.lists[0] && s.running[1] == 31
    requires forall i :: 0 <= i < |s.bits[1]| ==> s.bits[1][i]
    ensures exists t :: r(s, t) && TurnedAway(t)
  {
    First(r, s, BeginCreate(0, MAIN, 1, false));
    var t := Apply(s, BeginCreate(0, MAIN, 1, false));
    assert BitsOk(s, 1) && LowestClear(t.bits[1]) == TIDS;
    assert TurnedAway(t);
  }

  lemma {:induction false} CrowdFromStart(r: Along)
    requires Follows(r)
    ensures exists t :: r(Start(2, 0), t) && TurnedAway(t)
  {
    Grow(r, 2, 31);
    var s :| r(Start(2, 0), s) && Grown(s, 2, 31);
    LastIdClaimed(r, s);
    var t :| r(s, t) && TurnedAway(t);
    Then(r, Start(2, 0), s, t);
  }

  /** A creation is turned away for lack of an ID although its core has 31 threads only: the 32nd ID is claimed for
      a thread that is not counted yet. */
  lemma {:induction false} NoIdWithRoom()
    ensures exists t :: Fresh(Start(2, 0), t) && TurnedAway(t)
  {
    FreshFollows();
    CrowdFromStart(Fresh);
  }
}
