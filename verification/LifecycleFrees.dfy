/** Runs from a new process in which a page directory is freed twice, freed once although two killers raced for it,
    and freed while a thread uses it.
    Source: source/kernel/hardware/devices/cpu/scheduler.c:457-459, 577-578, 1091-1107;
    source/kernel/hardware/devices/memory/memory_allocators.c:775-835 */
module LifecycleFrees {
  import opened Lifecycle
  import opened LifecycleBooks
  import opened LifecycleTids
  import opened LifecycleNodes
  import opened LifecycleDirs
  import opened LifecycleAlone
  import opened LifecycleRaces

  // ----- two killers of one directory

  /** Both cores are about to lower the counter of one directory, and nobody else uses it. */
  predicate LastTwo(s: Process, c: nat, d: nat, dir: nat) {
    && Shaped(s) && c < |s.pcs| && d < |s.pcs| && c != d && dir in s.dirs
    && s.pcs[c].TidFreed? && s.pcs[c].victim.dir == dir
    && s.pcs[d].TidFreed? && s.pcs[d].victim.dir == dir
    && s.dirs[dir].cell < |s.cells| && s.cells[s.dirs[dir].cell] == 2
  }

  /** Both have lowered it. */
  function Lowered(s: Process, c: nat, d: nat, dir: nat): Process
    requires LastTwo(s, c, d, dir)
  {
    s.(cells := s.cells[s.dirs[dir].cell := 0],
       pcs := s.pcs[c := Released(s.pcs[c].victim)][d := Released(s.pcs[d].victim)])
  }

  lemma {:induction false} LowerBoth(r: Along, s: Process, c: nat, d: nat, dir: nat)
    requires Follows(r) && LastTwo(s, c, d, dir)
    ensures r(s, Lowered(s, c, d, dir)) && Shaped(Lowered(s, c, d, dir))
  {
    Onward(r, s, c);
    var a := Advanced(s, c);
    Forward(r, s, a, d);
    assert Advanced(a, d).cells == Lowered(s, c, d, dir).cells;
    assert Advanced(a, d) == Lowered(s, c, d, dir);
  }

  /** Core `c` has freed the directory; core `d` has yet to look. */
  function FreedBy(s: Process, c: nat, dir: nat): Process
    requires c < |s.pcs| && dir in s.dirs && s.pcs[c].Released?
  {
    var e := s.dirs[dir];
    At(s.(dirs := s.dirs[dir := e.(frees := e.frees + 1)], cellPool := s.cellPool + [e.cell]), c,
       Checked(s.pcs[c].victim))
  }

  lemma {:induction false} FreeIt(r: Along, s: Process, c: nat, dir: nat)
    requires Follows(r) && Shaped(s) && c < |s.pcs| && s.pcs[c].Released? && dir in s.dirs
    requires s.pcs[c].victim.dir == dir && s.dirs[dir].cell < |s.cells| && s.cells[s.dirs[dir].cell] == 0
    ensures r(s, FreedBy(s, c, dir)) && Shaped(FreedBy(s, c, dir))
  {
    Onward(r, s, c);
    var a := At(s, c, Dropping(s.pcs[c].victim));
    assert Advanced(s, c) == a;
    Forward(r, s, a, c);
    assert Advanced(a, c) == FreedBy(s, c, dir);
  }

  /** Both look before either gives the counter's block back. */
  function FreedByBoth(s: Process, c: nat, d: nat, dir: nat): Process
    requires LastTwo(s, c, d, dir)
  {
    FreedBy(FreedBy(Lowered(s, c, d, dir), c, dir), d, dir)
  }

  lemma {:induction false} FreeTwice(r: Along, s: Process, c: nat, d: nat, dir: nat)
    requires Follows(r) && LastTwo(s, c, d, dir)
    ensures r(s, FreedByBoth(s, c, d, dir)) && Shaped(FreedByBoth(s, c, d, dir))
  {
    LowerBoth(r, s, c, d, dir);
    var a := Lowered(s, c, d, dir);
    FreeIt(r, a, c, dir);
    var b := FreedBy(a, c, dir);
    FreeIt(r, b, d, dir);
    Then(r, s, a, b);
    Then(r, s, b, FreedByBoth(s, c, d, dir));
  }

  // ----- the last two threads of the first directory

  /** A kill of `x` on core `c` has come to where the thread leaves its directory; nothing else has changed. */
  ghost predicate OneFaded(s: Process, t: Process, c: nat, x: Thread) {
    && HeapOk(t) && Booked(t) && c < |s.pcs| == |s.lists| == |s.running|
    && t.pcs == s.pcs[c := TidFreed(x)] && t.lists == s.lists[c := Without(s.lists[c], x)]
    && t.cells == s.cells && t.cellPool == s.cellPool && t.dirs == s.dirs && t.serial == s.serial
    && t.running == s.running[c := s.running[c] - 1]
  }

  lemma {:induction false} FadeOne(r: Along, s: Process, c: nat, x: Thread)
    requires Follows(r) && HeapOk(s) && Booked(s) && c < |s.pcs| && s.pcs[c].Idle? && x in s.lists[c]
    ensures exists t :: r(s, t) && OneFaded(s, t, c, x)
  {
    FadeAlone(r, s, c, x);
    var t := Fading(s, c, x);
    Kept(r, s, t);
    assert OneFaded(s, t, c, x);
  }

  /** The main thread and its child on core 1 are about to leave their directory; other cores stand still. */
  ghost predicate Dying(s: Process, t: Process) {
    && HeapOk(t) && Booked(t) && LastTwo(t, 0, 1, 0) && |t.pcs| == |s.pcs| == |s.lists| == |s.running|
    && t.cells == s.cells && t.cellPool == s.cellPool && t.dirs == s.dirs && t.serial == s.serial
    && (forall c :: 2 <= c < |s.pcs| ==> t.pcs[c] == s.pcs[c])
    && (forall c :: 2 <= c < |s.pcs| ==> t.lists[c] == s.lists[c])
    && (forall c :: 2 <= c < |s.pcs| ==> t.running[c] == s.running[c])
  }

  lemma {:induction false} BothFaded(s: Process, a: Process, t: Process)
    requires OneFaded(s, a, 0, MAIN) && OneFaded(a, t, 1, Child(0)) && |s.pcs| >= 2
    requires 0 in s.dirs && s.dirs[0].cell < |s.cells| && s.cells[s.dirs[0].cell] == 2
    ensures Dying(s, t)
  {
  }

  lemma {:induction false} FadeBoth(r: Along, s: Process)
    requires Follows(r) && HeapOk(s) && Booked(s) && |s.pcs| >= 2 && s.pcs[0].Idle? && s.pcs[1].Idle?
    requires s.lists[0] == [MAIN] && s.lists[1] == [Child(0)]
    requires 0 in s.dirs && s.dirs[0].cell < |s.cells| && s.cells[s.dirs[0].cell] == 2
    ensures exists t :: r(s, t) && Dying(s, t)
  {
    FadeOne(r, s, 0, MAIN);
    var a :| r(s, a) && OneFaded(s, a, 0, MAIN);
    assert a.lists[1] == s.lists[1];
    FadeOne(r, a, 1, Child(0));
    var t :| r(a, t) && OneFaded(a, t, 1, Child(0));
    Then(r, s, a, t);
    BothFaded(s, a, t);
  }

  /** The two kills of the main thread's directory are over, and it has been freed twice. */
  ghost predicate FreedTwo(s: Process) {
    0 in s.dirs && s.dirs[0].frees == 2 && Checkers(0, s.pcs, |s.pcs|) == 0
  }

  lemma {:induction false} BothIsTwo(s: Process)
    requires LastTwo(s, 0, 1, 0) && |s.pcs| == 2 && s.dirs[0].frees == 0
    ensures FreedTwo(FreedByBoth(s, 0, 1, 0))
  {
    var t := FreedByBoth(s, 0, 1, 0);
    assert t.pcs[0].Checked? && t.pcs[1].Checked?;
    assert Checkers(0, t.pcs, 1) == Checkers(0, t.pcs, 0) + CheckerOf(0, t.pcs[0]);
    assert Checkers(0, t.pcs, 2) == Checkers(0, t.pcs, 1) + CheckerOf(0, t.pcs[1]);
  }

  lemma {:induction false} TwiceFromStart(r: Along)
    requires Follows(r)
    ensures exists t :: r(Start(2, 0), t) && FreedTwo(t)
  {
    Grow(r, 2, 1);
    var s :| r(Start(2, 0), s) && Grown(s, 2, 1);
    assert Children(1) == [Child(0)] + Children(0);
    FadeBoth(r, s);
    var a :| r(s, a) && Dying(s, a);
    Then(r, Start(2, 0), s, a);
    FreeTwice(r, a, 0, 1, 0);
    Then(r, Start(2, 0), a, FreedByBoth(a, 0, 1, 0));
    BothIsTwo(a);
  }

  /** Both kills lower the counter, then both read zero: the directory is freed twice. */
  lemma {:induction false} FreedTwice()
    ensures exists t :: Fresh(Start(2, 0), t) && FreedTwo(t)
  {
    FreshFollows();
    TwiceFromStart(Fresh);
  }

  // ----- a third thread, in a directory of its own on core 2

  const THIRD := Thread(2, TidOf(2, 0), 2, 0, TidOf(0, 0), 2)

  /** Nothing is under way on core 2, which has these threads; the block `cell` holds `count` and the blocks in
      the pool are free. */
  ghost predicate Local(s: Process, list: seq<Thread>, pool: seq<nat>, count: int) {
    && HeapOk(s) && Booked(s) && |s.pcs| == 3 && s.pcs[2].Idle?
    && (forall d :: 0 <= d < 3 ==> LagOf(2, d, s.pcs[d]) == 0)
    && s.lists[2] == list && s.running[2] == |list| && s.cellPool == pool && |s.cells| > 0 && s.cells[0] == count
  }

  /** The main thread, its child on core 1, and a thread it has spawned on core 2. */
  ghost predicate Trio(s: Process) {
    && Local(s, [THIRD], [], 2) && s.pcs[0].Idle? && s.pcs[1].Idle?
    && s.lists[0] == [MAIN] && s.lists[1] == [Child(0)]
    && s.dirs == map[0 := Directory(0, 0), 2 := Directory(1, 0)] && s.serial == 3
  }

  lemma {:induction false} TrioFromStart(r: Along)
    requires Follows(r)
    ensures exists t :: r(Start(3, 0), t) && Trio(t)
  {
    Grow(r, 3, 1);
    var s :| r(Start(3, 0), s) && Grown(s, 3, 1);
    assert Children(1) == [Child(0)] + Children(0);
    assert s.running[2] == 0 by {
      QuietCounts(s, 2);
    }
    RoomToCreate(s, 0, MAIN, 2);
    CreateAlone(r, s, 0, MAIN, 2, true);
    var t := Created(s, 0, MAIN, 2, true);
    Then(r, Start(3, 0), s, t);
    Kept(r, s, t);
    ThirdIsMade(s, t);
  }

  lemma {:induction false} ThirdIsMade(s: Process, t: Process)
    requires Grown(s, 3, 1) && s.lists[1] == [Child(0)] && s.running[2] == 0
    requires CanCreate(s, 0, MAIN, 2) && Shaped(Claiming(s, 0, MAIN, 2, true)) && HeapOk(t) && Booked(t)
    requires t == Created(s, 0, MAIN, 2, true)
    ensures Trio(t)
  {
    CreatedIs(s, 0, MAIN, 2, true);
    CreatedCounts(s, 0, MAIN, 2, true);
    QuietBits(s, 2, 0);
    assert LowestClear(s.bits[2]) == 0;
    assert NewThread(s, MAIN, 2, true, 0) == THIRD;
    assert [THIRD] + s.lists[2] == [THIRD];
  }

  lemma {:induction false} TrioDying(s: Process, t: Process)
    requires Trio(s) && Dying(s, t)
    ensures Local(t, [THIRD], [], 2) && t.dirs[0] == Directory(0, 0)
  {
  }

  lemma {:induction false} DyingFromStart(r: Along)
    requires Follows(r)
    ensures exists t :: r(Start(3, 0), t) && Local(t, [THIRD], [], 2) && LastTwo(t, 0, 1, 0) &&
                        t.dirs[0] == Directory(0, 0) && t.serial == 3
  {
    TrioFromStart(r);
    var s :| r(Start(3, 0), s) && Trio(s);
    FadeBoth(r, s);
    var t :| r(s, t) && Dying(s, t);
    Then(r, Start(3, 0), s, t);
    TrioDying(s, t);
  }

  /** Core 2 can create. */
  lemma {:induction false} LocalRoom(s: Process, list: seq<Thread>, pool: seq<nat>, count: int, maker: Thread)
    requires Local(s, list, pool, count) && maker in list && |list| < TIDS
    ensures CanCreate(s, 2, maker, 2) && maker.dir in s.dirs
  {
    RoomToCreate(s, 2, maker, 2);
    assert ListOk(s, 2) && ThreadOk(s, 2, maker);
  }

  /** A spawn on core 2 takes the counter's block from the pool and sets it to 1. */
  ghost predicate Spawned(s: Process, t: Process, list: seq<Thread>, pool: seq<nat>, x: Thread) {
    && Local(t, [x] + list, pool, 1) && x.self == s.serial && x.dir == s.serial && t.serial == s.serial + 1
    && t.dirs == s.dirs[s.serial := Directory(0, 0)] && t.pcs == s.pcs
  }

  lemma {:induction false} SpawnLocal(r: Along, s: Process, list: seq<Thread>, pool: seq<nat>, count: int,
                                      maker: Thread)
    requires Follows(r) && Local(s, list, pool + [0], count) && maker in list && |list| < TIDS
    ensures exists t, x :: r(s, t) && Spawned(s, t, list, pool, x)
  {
    LocalRoom(s, list, pool + [0], count, maker);
    CreateAlone(r, s, 2, maker, 2, true);
    var t := Created(s, 2, maker, 2, true);
    var x := NewThread(s, maker, 2, true, LowestClear(s.bits[2]));
    Kept(r, s, t);
    CreatedIs(s, 2, maker, 2, true);
    CreatedCounts(s, 2, maker, 2, true);
    assert Spawned(s, t, list, pool, x);
  }

  /** A creation on core 2 in a directory with that counter raises it. */
  ghost predicate Joined(s: Process, t: Process, list: seq<Thread>, count: int, maker: Thread, x: Thread) {
    && Local(t, [x] + list, [], count + 1) && x.self == s.serial && x.dir == maker.dir && t.dirs == s.dirs
    && t.pcs == s.pcs && t.serial == s.serial + 1
  }

  lemma {:induction false} JoinLocal(r: Along, s: Process, list: seq<Thread>, count: int, maker: Thread)
    requires Follows(r) && Local(s, list, [], count) && maker in list && |list| < TIDS
    requires maker.dir in s.dirs && s.dirs[maker.dir].cell == 0
    ensures exists t, x :: r(s, t) && Joined(s, t, list, count, maker, x)
  {
    LocalRoom(s, list, [], count, maker);
    CreateAlone(r, s, 2, maker, 2, false);
    var t := Created(s, 2, maker, 2, false);
    var x := NewThread(s, maker, 2, false, LowestClear(s.bits[2]));
    Kept(r, s, t);
    CreatedIs(s, 2, maker, 2, false);
    CreatedCounts(s, 2, maker, 2, false);
    assert Joined(s, t, list, count, maker, x);
  }

  /** A kill on core 2 of a thread in a directory with that counter lowers it and frees the directory at zero. */
  ghost predicate Left(s: Process, t: Process, list: seq<Thread>, count: int, x: Thread) {
    && x.dir in s.dirs
    && Local(t, Without(list, x), if count == 1 then [0] else [], count - 1)
    && t.dirs == (if count == 1 then s.dirs[x.dir := Directory(0, s.dirs[x.dir].frees + 1)] else s.dirs)
    && t.pcs == s.pcs
  }

  lemma {:induction false} WithoutShorter(list: seq<Thread>, x: Thread)
    requires x in list
    ensures |Without(list, x)| == |list| - 1
  {
    if list[0] != x { WithoutShorter(list[1..], x); }
  }

  /** What a kill that ran alone has done to the counters. */
  lemma {:induction false} KilledCounts(s: Process, c: nat, x: Thread)
    requires CanKill(s, c, x) && c < |s.bits| && BitOf(x.tid) < |s.bits[c]| && Shaped(Fading(s, c, x))
    requires x.dir in s.dirs && s.dirs[x.dir].cell < |s.cells|
    ensures var t, e := Killed(s, c, x), s.dirs[x.dir];
            && t.cells == s.cells[e.cell := s.cells[e.cell] - 1]
            && t.cellPool == s.cellPool + (if s.cells[e.cell] == 1 then [e.cell] else [])
            && t.dirs == if s.cells[e.cell] == 1 then s.dirs[x.dir := e.(frees := e.frees + 1)] else s.dirs
  {
    assert s.cellPool + [] == s.cellPool;
  }

  lemma {:induction false} KilledLocally(s: Process, list: seq<Thread>, count: int, x: Thread)
    requires Local(s, list, [], count) && x in list && x.dir in s.dirs && s.dirs[x.dir].cell == 0
    requires CanKill(s, 2, x) && BitOf(x.tid) < |s.bits[2]| && Shaped(Fading(s, 2, x))
    requires HeapOk(Killed(s, 2, x)) && Booked(Killed(s, 2, x))
    ensures Left(s, Killed(s, 2, x), list, count, x)
  {
    KilledIs(s, 2, x);
    KilledCounts(s, 2, x);
    WithoutShorter(list, x);
    var t := Killed(s, 2, x);
    assert t.cellPool == if count == 1 then [0] else [];
    assert t.pcs == s.pcs && t.lists[2] == Without(list, x) && t.cells[0] == count - 1;
    assert Local(t, Without(list, x), if count == 1 then [0] else [], count - 1);
  }

  lemma {:induction false} KillLocal(r: Along, s: Process, list: seq<Thread>, count: int, x: Thread)
    requires Follows(r) && Local(s, list, [], count) && x in list
    requires x.dir in s.dirs && s.dirs[x.dir].cell == 0
    ensures exists t :: r(s, t) && Left(s, t, list, count, x)
  {
    KillAlone(r, s, 2, x);
    Kept(r, s, Killed(s, 2, x));
    KilledLocally(s, list, count, x);
  }

  // ----- freed once although two raced

  /** Two killers raced for the directory, both are done with it, and it has been freed once. */
  ghost predicate FreedOne(s: Process) {
    0 in s.dirs && s.dirs[0].frees == 1 && Checkers(0, s.pcs, |s.pcs|) == 0
  }

  /** Core 0 has looked and freed; core 2 spawns; core 1 looks at a counter that is another directory's. */
  lemma {:induction false} SpawnBetween(r: Along, s: Process)
    requires Follows(r) && Local(s, [THIRD], [], 2) && LastTwo(s, 0, 1, 0) && s.dirs[0] == Directory(0, 0)
    requires s.serial != 0
    ensures exists t :: r(s, t) && FreedOne(t)
  {
    LowerBoth(r, s, 0, 1, 0);
    var a := Lowered(s, 0, 1, 0);
    FreeIt(r, a, 0, 0);
    var b := FreedBy(a, 0, 0);
    Then(r, s, a, b);
    Kept(r, s, b);
    assert b.cellPool == [] + [0];
    SpawnLocal(r, b, [THIRD], [], 0, THIRD);
    var d, x :| r(b, d) && Spawned(b, d, [THIRD], [], x);
    Then(r, s, b, d);
    LateLook(r, d);
    var t :| r(d, t) && FreedOne(t);
    Then(r, s, d, t);
  }

  lemma {:induction false} ThreeCheckers(dir: nat, pcs: seq<Pc>)
    requires |pcs| == 3
    ensures Checkers(dir, pcs, 3) == CheckerOf(dir, pcs[0]) + CheckerOf(dir, pcs[1]) + CheckerOf(dir, pcs[2])
  {
    assert Checkers(dir, pcs, 0) == 0;
    assert Checkers(dir, pcs, 1) == Checkers(dir, pcs, 0) + CheckerOf(dir, pcs[0]);
    assert Checkers(dir, pcs, 2) == Checkers(dir, pcs, 1) + CheckerOf(dir, pcs[1]);
  }

  lemma {:induction false} LateLook(r: Along, s: Process)
    requires Follows(r) && Shaped(s) && |s.pcs| == 3 && s.pcs[1].Released? && s.pcs[1].victim.dir == 0
    requires s.pcs[0].Checked? && s.pcs[2].Idle? && 0 in s.dirs && s.dirs[0] == Directory(0, 1)
    requires |s.cells| > 0 && s.cells[0] == 1
    ensures exists t :: r(s, t) && FreedOne(t)
  {
    Onward(r, s, 1);
    var t := Advanced(s, 1);
    ThreeCheckers(0, t.pcs);
    assert FreedOne(t);
  }

  lemma {:induction false} OnceFromStart(r: Along)
    requires Follows(r)
    ensures exists t :: r(Start(3, 0), t) && FreedOne(t)
  {
    DyingFromStart(r);
    var s :| r(Start(3, 0), s) && Local(s, [THIRD], [], 2) && LastTwo(s, 0, 1, 0) &&
             s.dirs[0] == Directory(0, 0) && s.serial == 3;
    SpawnBetween(r, s);
    var t :| r(s, t) && FreedOne(t);
    Then(r, Start(3, 0), s, t);
  }

  /** The same race, but the counter's block is reused before the second killer reads it: the directory is freed
      once. */
  lemma {:induction false} FreedOnceDespiteRace()
    ensures exists t :: Fresh(Start(3, 0), t) && FreedOne(t)
  {
    FreshFollows();
    OnceFromStart(Fresh);
  }

  // ----- freed in use

  /** A listed thread's directory has been freed. */
  ghost predicate UsesFreed(s: Process) {
    exists x :: |s.lists| > 2 && x in s.lists[2] && x.dir in s.dirs && s.dirs[x.dir].frees > 0
  }

  ghost predicate Shared(s: Process, f: Thread, g: Thread) {
    && Local(s, [g, f, THIRD], [], 1) && f.self < g.self < s.serial && f.dir in s.dirs && g.dir in s.dirs
    && s.dirs[f.dir] == Directory(0, 0) && s.dirs[g.dir] == Directory(0, 0)
  }

  lemma {:induction false} SpawnedIsShared(s: Process, t: Process, f: Thread, g: Thread)
    requires Spawned(s, t, [f, THIRD], [], g) && f.dir == f.self < s.serial
    requires f.dir in s.dirs && s.dirs[f.dir] == Directory(0, 0)
    ensures Shared(t, f, g)
  {
    assert [g] + [f, THIRD] == [g, f, THIRD];
  }

  lemma {:induction false} SecondShare(r: Along, s: Process, f: Thread)
    requires Follows(r) && Local(s, [f, THIRD], [0], 1) && f.dir == f.self < s.serial
    requires f.dir in s.dirs && s.dirs[f.dir] == Directory(0, 0)
    ensures exists t, g :: r(s, t) && Shared(t, f, g)
  {
    assert [0] == [] + [0];
    SpawnLocal(r, s, [f, THIRD], [], 1, THIRD);
    var t, g :| r(s, t) && Spawned(s, t, [f, THIRD], [], g);
    SpawnedIsShared(s, t, f, g);
  }

  /** With its block twice in the pool, two directories get one counter. */
  lemma {:induction false} ShareCounter(r: Along, s: Process)
    requires Follows(r) && Local(s, [THIRD], [0, 0], 0)
    ensures exists t, f, g :: r(s, t) && Shared(t, f, g)
  {
    assert [0, 0] == [0] + [0];
    SpawnLocal(r, s, [THIRD], [0], 0, THIRD);
    var a, f :| r(s, a) && Spawned(s, a, [THIRD], [0], f);
    assert [f] + [THIRD] == [f, THIRD];
    SecondShare(r, a, f);
    var t, g :| r(a, t) && Shared(t, f, g);
    Then(r, s, a, t);
  }

  lemma {:induction false} WithoutOthers(f: Thread, g: Thread, h: Thread)
    requires g != f && h != g && h != f
    ensures [h] + [g, f, THIRD] == [h, g, f, THIRD]
    ensures Without([h, g, f, THIRD], g) == [h, f, THIRD]
    ensures h in Without([h, f, THIRD], f)
  {
    assert [h, g, f, THIRD][1..] == [g, f, THIRD] && [g, f, THIRD][1..] == [f, THIRD];
    assert Without([g, f, THIRD], g) == [f, THIRD];
    assert [h] + [f, THIRD] == [h, f, THIRD];
    WithoutKeeps([h, f, THIRD], f, h);
  }

  lemma {:induction false} UseShared(r: Along, s: Process, f: Thread, g: Thread)
    requires Follows(r) && Shared(s, f, g)
    ensures exists t :: r(s, t) && UsesFreed(t)
  {
    JoinLocal(r, s, [g, f, THIRD], 1, f);
    var a, h :| r(s, a) && Joined(s, a, [g, f, THIRD], 1, f, h);
    WithoutOthers(f, g, h);
    KillShared(r, a, f, g, h);
    var t :| r(a, t) && UsesFreed(t);
    Then(r, s, a, t);
  }

  lemma {:induction false} KillShared(r: Along, s: Process, f: Thread, g: Thread, h: Thread)
    requires Follows(r) && Local(s, [h, g, f, THIRD], [], 2) && h.dir == f.dir && g != f && h != g && h != f
    requires f.dir in s.dirs && g.dir in s.dirs
    requires s.dirs[f.dir] == Directory(0, 0) && s.dirs[g.dir] == Directory(0, 0)
    ensures exists t :: r(s, t) && UsesFreed(t)
  {
    WithoutOthers(f, g, h);
    KillLocal(r, s, [h, g, f, THIRD], 2, g);
    var a :| r(s, a) && Left(s, a, [h, g, f, THIRD], 2, g);
    KillLocal(r, a, [h, f, THIRD], 1, f);
    var t :| r(a, t) && Left(a, t, [h, f, THIRD], 1, f);
    Then(r, s, a, t);
    assert h in t.lists[2] && t.dirs[h.dir].frees > 0;
  }

  lemma {:induction false} TwiceIsLocal(s: Process)
    requires Local(s, [THIRD], [], 2) && LastTwo(s, 0, 1, 0) && s.dirs[0] == Directory(0, 0)
    requires HeapOk(FreedByBoth(s, 0, 1, 0)) && Booked(FreedByBoth(s, 0, 1, 0))
    ensures Local(FreedByBoth(s, 0, 1, 0), [THIRD], [0, 0], 0)
  {
    assert [] + [0] == [0] && [0] + [0] == [0, 0];
  }

  lemma {:induction false} PoolTwice(r: Along, s: Process)
    requires Follows(r) && Local(s, [THIRD], [], 2) && LastTwo(s, 0, 1, 0) && s.dirs[0] == Directory(0, 0)
    ensures exists t :: r(s, t) && Local(t, [THIRD], [0, 0], 0)
  {
    FreeTwice(r, s, 0, 1, 0);
    var t := FreedByBoth(s, 0, 1, 0);
    Kept(r, s, t);
    TwiceIsLocal(s);
  }

  lemma {:induction false} InUseFromStart(r: Along)
    requires Follows(r)
    ensures exists t :: r(Start(3, 0), t) && UsesFreed(t)
  {
    DyingFromStart(r);
    var s :| r(Start(3, 0), s) && Local(s, [THIRD], [], 2) && LastTwo(s, 0, 1, 0) &&
             s.dirs[0] == Directory(0, 0) && s.serial == 3;
    PoolTwice(r, s);
    var a :| r(s, a) && Local(a, [THIRD], [0, 0], 0);
    Then(r, Start(3, 0), s, a);
    ShareCounter(r, a);
    var b, f, g :| r(a, b) && Shared(b, f, g);
    Then(r, Start(3, 0), a, b);
    UseShared(r, b, f, g);
    var t :| r(b, t) && UsesFreed(t);
    Then(r, Start(3, 0), b, t);
  }

  /** After a directory has been freed twice, two later directories share one counter, and one of them is freed
      while a listed thread uses it. */
  lemma {:induction false} FreedInUse()
    ensures exists t :: Fresh(Start(3, 0), t) && UsesFreed(t)
  {
    FreshFollows();
    InUseFromStart(Fresh);
  }
}
