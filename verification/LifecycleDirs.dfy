/** The page directories of a process: when they are freed, and how often. The counter of a directory is lowered and
    then read again in a second access, and its block can be in use by another directory by then.
    Source: source/kernel/hardware/devices/cpu/scheduler.c:177-181, 457-459, 573-578, 1091-1107;
    source/kernel/hardware/devices/memory/memory_allocators.c:775-835 */
module LifecycleDirs {
  import opened Lifecycle
  import opened LifecycleBooks
  import opened LifecycleTids
  import opened LifecycleNodes

  predicate Live(s: Process, dir: nat) {
    dir in s.dirs && s.dirs[dir].frees == 0
  }

  /** The counter of a directory that is not freed counts its users, in a block of its own. A freed directory has
      no user. */
  predicate DirOk(s: Process, dir: nat)
    requires Shaped(s) && dir in s.dirs
  {
    if s.dirs[dir].frees == 0 then
      s.dirs[dir].cell !in s.cellPool && s.cells[s.dirs[dir].cell] == Total(Dir(dir), s)
    else
      s.dirs[dir].frees == 1 && Total(Dir(dir), s) == 0
  }

  predicate CellsApart(s: Process, d: nat, e: nat) {
    d != e && Live(s, d) && Live(s, e) ==> s.dirs[d].cell != s.dirs[e].cell
  }

  ghost predicate Owned(s: Process, cell: nat) {
    exists d: nat :: Live(s, d) && s.dirs[d].cell == cell
  }

  predicate DropOk(s: Process, c: nat)
    requires c < |s.pcs|
  {
    s.pcs[c].Dropping? ==> Total(Dir(s.pcs[c].victim.dir), s) == 0
  }

  predicate SpawnOk(s: Process, c: nat)
    requires c < |s.pcs|
  {
    s.pcs[c].Filled? && s.pcs[c].spawn ==> s.pcs[c].child.dir !in s.dirs
  }

  /** Directories have numbers of threads, and a thread being spawned has a new one. */
  ghost predicate Numbered(s: Process) {
    && CountsRight(s)
    && (forall d: nat :: d in s.dirs ==> d < s.serial)
    && (forall c :: 0 <= c < |s.pcs| ==> SpawnOk(s, c))
  }

  predicate PoolEmpty(s: Process)
    requires Shaped(s)
  {
    forall k :: 0 <= k < |s.cellPool| ==> s.cells[s.cellPool[k]] == 0
  }

  ghost predicate Sound(s: Process) {
    && Numbered(s)
    && Distinct(s.cellPool) && PoolEmpty(s)
    && (forall d: nat :: d in s.dirs ==> DirOk(s, d))
    && (forall d: nat, e: nat :: CellsApart(s, d, e))
    && (forall cell: nat :: cell < |s.cells| && cell !in s.cellPool ==> Owned(s, cell))
    && (forall c :: 0 <= c < |s.pcs| ==> DropOk(s, c))
  }

  /** A killer about to free a directory that has been freed already: it read zero from a counter that others had
      lowered, or that is not the directory's any more. */
  predicate StaleFree(s: Process, step: Step)
    requires Shaped(s)
  {
    step.Advance? && step.core < |s.pcs| && s.pcs[step.core].Dropping? &&
    (assert PcOk(s, step.core); s.dirs[s.pcs[step.core].victim.dir].frees > 0)
  }

  // ----- users

  lemma {:induction false} ListedUses(s: Process, c: nat, x: Thread)
    requires c < |s.lists| && x in s.lists[c]
    ensures Total(Dir(x.dir), s) >= 1
  {
    var p :| 0 <= p < |s.lists[c]| && s.lists[c][p] == x;
    ListedWeight(Dir(x.dir), c, s.lists[c], p);
    OverOneList(Dir(x.dir), s.lists, c, |s.lists|);
  }

  lemma {:induction false} NoUsersInList(s: Process, c: nat, list: seq<Thread>, dir: nat)
    requires dir !in s.dirs && forall x :: x in list ==> ThreadOk(s, c, x)
    ensures ListWeight(Dir(dir), c, list) == 0
  {
    if list != [] {
      assert ThreadOk(s, c, list[0]);
      forall x | x in list[1..] ensures ThreadOk(s, c, x) {}
      NoUsersInList(s, c, list[1..], dir);
    }
  }

  lemma {:induction false} NoUsersInLists(s: Process, dir: nat, n: nat)
    requires Shaped(s) && dir !in s.dirs && n <= |s.lists|
    ensures OverLists(Dir(dir), s.lists, n) == 0
  {
    if n > 0 {
      assert ListOk(s, n - 1);
      NoUsersInList(s, n - 1, s.lists[n - 1], dir);
      NoUsersInLists(s, dir, n - 1);
    }
  }

  lemma {:induction false} NoUsersInPcs(s: Process, dir: nat, n: nat)
    requires Shaped(s) && dir !in s.dirs && n <= |s.pcs|
    ensures OverPcs(Dir(dir), s.pcs, n) == 0
  {
    if n > 0 {
      assert PcOk(s, n - 1);
      NoUsersInPcs(s, dir, n - 1);
    }
  }

  /** A directory that does not exist yet has no user. */
  lemma {:induction false} NoUsersYet(s: Process, dir: nat)
    requires Shaped(s) && dir !in s.dirs
    ensures Total(Dir(dir), s) == 0
  {
    NoUsersInLists(s, dir, |s.lists|);
    NoUsersInPcs(s, dir, |s.pcs|);
  }

  lemma {:induction false} TopIsFree(pool: seq<nat>, blocks: nat)
    requires Distinct(pool) && forall k :: 0 <= k < |pool| ==> pool[k] < blocks
    ensures var n := Top(pool, blocks);
            && n <= blocks && n !in Popped(pool) && (n < blocks ==> n in pool)
            && (forall k: nat :: k != n ==> (k in pool <==> k in Popped(pool)))
    ensures Distinct(Popped(pool))
  {
    if pool != [] {
      assert pool == Popped(pool) + [Top(pool, blocks)];
    }
  }

  // ----- numbers

  lemma {:induction false} ChildIsOld(s: Process, c: nat)
    requires CountsRight(s) && c < |s.pcs| && s.pcs[c].Filled?
    ensures s.pcs[c].child.self < s.serial && Total(Self(s.pcs[c].child.self), s) == 1
  {
    HeldByPc(Self(s.pcs[c].child.self), s.pcs, c, |s.pcs|);
    assert SelfBooked(s, s.pcs[c].child.self);
  }

  lemma {:induction false} SpawnsDiffer(s: Process, c: nat, d: nat)
    requires CountsRight(s) && c < |s.pcs| && d < |s.pcs| && c != d
    requires s.pcs[c].Filled? && s.pcs[d].Filled?
    ensures s.pcs[c].child.self != s.pcs[d].child.self
  {
    ChildIsOld(s, c);
    if s.pcs[c].child.self == s.pcs[d].child.self {
      TwoPcs(Self(s.pcs[c].child.self), s.pcs, if c < d then c else d, if c < d then d else c, |s.pcs|);
    }
  }

  lemma {:induction false} SpawnKeepsNumbers(s: Process, c: nat)
    requires Numbered(s) && c < |s.pcs| && s.pcs[c].Filled? && s.pcs[c].spawn
    ensures Numbered(CreateStep(s, c))
  {
    StepKeepsCounts(s, Advance(c));
    var t := CreateStep(s, c);
    assert PcOk(s, c);
    ChildIsOld(s, c);
    forall d | 0 <= d < |t.pcs| ensures SpawnOk(t, d) {
      assert SpawnOk(s, d) && PcOk(s, d);
      if d != c && s.pcs[d].Filled? { SpawnsDiffer(s, c, d); }
    }
  }

  /** No directory comes or goes, and only core `c` moves on. */
  predicate DirectoriesKept(s: Process, t: Process, c: nat) {
    && t.dirs.Keys == s.dirs.Keys && s.serial <= t.serial
    && |t.pcs| == |s.pcs| && c < |s.pcs| && t.pcs == s.pcs[c := t.pcs[c]]
    && (t.pcs[c].Filled? && t.pcs[c].spawn ==> t.pcs[c].child.dir == s.serial)
  }

  lemma {:induction false} CreationKeepsDirectories(s: Process, c: nat)
    requires Shaped(s) && c < |s.pcs| && Creating(s.pcs[c]) && !s.pcs[c].Filled?
    ensures DirectoriesKept(s, CreateStep(s, c), c)
  {
    assert PcOk(s, c);
  }

  lemma {:induction false} WalkKeepsDirectories(s: Process, c: nat)
    requires Shaped(s) && c < |s.pcs| && (Walking(s.pcs[c]) || s.pcs[c].Exchanging?)
    ensures DirectoriesKept(s, Advanced(s, c), c)
  {
  }

  lemma {:induction false} ReleaseKeepsDirectories(s: Process, c: nat)
    requires Shaped(s) && c < |s.pcs| && Releasing(s.pcs[c])
    ensures DirectoriesKept(s, ReleaseStep(s, c), c)
  {
    assert PcOk(s, c);
  }

  lemma {:induction false} DirectoriesStay(s: Process, step: Step)
    requires Shaped(s) && Enabled(s, step) && !(step.Advance? && s.pcs[step.core].Filled?)
    ensures DirectoriesKept(s, Apply(s, step), step.core)
  {
    var c := step.core;
    if step.Advance? {
      if Creating(s.pcs[c]) {
        CreationKeepsDirectories(s, c);
      } else if Releasing(s.pcs[c]) {
        ReleaseKeepsDirectories(s, c);
      } else {
        WalkKeepsDirectories(s, c);
      }
    }
  }

  lemma {:induction false} JoinKeepsNumbers(s: Process, c: nat)
    requires Numbered(s) && c < |s.pcs| && s.pcs[c].Filled? && !s.pcs[c].spawn
    ensures Numbered(CreateStep(s, c))
  {
    StepKeepsCounts(s, Advance(c));
    var t := CreateStep(s, c);
    assert PcOk(s, c);
    forall d | 0 <= d < |t.pcs| ensures SpawnOk(t, d) { assert SpawnOk(s, d); }
  }

  lemma {:induction false} StepKeepsNumbers(s: Process, step: Step)
    requires Numbered(s) && Enabled(s, step)
    ensures Numbered(Apply(s, step))
  {
    if step.Advance? && s.pcs[step.core].Filled? {
      if s.pcs[step.core].spawn { SpawnKeepsNumbers(s, step.core); } else { JoinKeepsNumbers(s, step.core); }
    } else {
      StepKeepsCounts(s, step);
      DirectoriesStay(s, step);
      var t := Apply(s, step);
      forall d: nat | d in t.dirs ensures d < t.serial { assert d in s.dirs.Keys; }
      forall d | 0 <= d < |t.pcs| ensures SpawnOk(t, d) {
        assert SpawnOk(s, d) && s.serial !in s.dirs;
      }
    }
  }

  // ----- joining a directory

  lemma {:induction false} SpawnKeepsOwners(s: Process, c: nat)
    requires Sound(s) && c < |s.pcs| && s.pcs[c].Filled? && s.pcs[c].spawn
    ensures var t := CreateStep(s, c);
            forall k: nat :: k < |t.cells| && k !in t.cellPool ==> Owned(t, k)
  {
    var t := CreateStep(s, c);
    assert SpawnOk(s, c);
    var dir := s.pcs[c].child.dir;
    var cell := Top(s.cellPool, |s.cells|);
    TopIsFree(s.cellPool, |s.cells|);
    forall k: nat | k < |t.cells| && k !in t.cellPool ensures Owned(t, k) {
      if k == cell {
        assert Live(t, dir) && t.dirs[dir].cell == k;
      } else {
        assert Owned(s, k);
        var d: nat :| Live(s, d) && s.dirs[d].cell == k;
        assert Live(t, d) && t.dirs[d].cell == k;
      }
    }
  }

  lemma {:induction false} SpawnKeepsApart(s: Process, c: nat, d: nat, e: nat)
    requires Sound(s) && c < |s.pcs| && s.pcs[c].Filled? && s.pcs[c].spawn
    ensures CellsApart(CreateStep(s, c), d, e)
  {
    TopIsFree(s.cellPool, |s.cells|);
    assert SpawnOk(s, c) && CellsApart(s, d, e);
    assert d in s.dirs ==> DirOk(s, d);
    assert e in s.dirs ==> DirOk(s, e);
  }

  lemma {:induction false} SpawnKeepsCounter(s: Process, c: nat, d: nat)
    requires Sound(s) && c < |s.pcs| && s.pcs[c].Filled? && s.pcs[c].spawn && Shaped(CreateStep(s, c))
    requires d in CreateStep(s, c).dirs
    ensures DirOk(CreateStep(s, c), d)
  {
    assert PcOk(s, c) && SpawnOk(s, c);
    TopIsFree(s.cellPool, |s.cells|);
    CreationChange(Dir(d), s, c);
    if d != s.pcs[c].child.dir { assert DirOk(s, d); } else { NoUsersYet(s, d); }
  }

  lemma {:induction false} SpawnKeepsDrop(s: Process, c: nat, d: nat)
    requires Sound(s) && c < |s.pcs| && s.pcs[c].Filled? && s.pcs[c].spawn && d < |s.pcs|
    ensures |CreateStep(s, c).pcs| == |s.pcs| && DropOk(CreateStep(s, c), d)
  {
    assert DropOk(s, d) && PcOk(s, d) && SpawnOk(s, c);
    if s.pcs[d].Dropping? { CreationChange(Dir(s.pcs[d].victim.dir), s, c); }
  }

  /** A spawned thread gets a counter that nobody else has. */
  lemma {:induction false} SpawnKeepsSound(s: Process, c: nat)
    requires Sound(s) && c < |s.pcs| && s.pcs[c].Filled? && s.pcs[c].spawn
    ensures Sound(CreateStep(s, c))
  {
    SpawnKeepsNumbers(s, c);
    var t := CreateStep(s, c);
    TopIsFree(s.cellPool, |s.cells|);
    forall d: nat | d in t.dirs ensures DirOk(t, d) { SpawnKeepsCounter(s, c, d); }
    forall d: nat, e: nat ensures CellsApart(t, d, e) { SpawnKeepsApart(s, c, d, e); }
    SpawnKeepsOwners(s, c);
    forall d | 0 <= d < |t.pcs| ensures DropOk(t, d) { SpawnKeepsDrop(s, c, d); }
  }

  /** One more user, or one less, of a directory that is in use. */
  lemma {:induction false} CountKeepsSound(s: Process, t: Process, c: nat, dir: nat, more: int)
    requires Sound(s) && Numbered(t) && c < |s.pcs| && dir in s.dirs && Live(s, dir) && Total(Dir(dir), s) > 0
    requires var cell := s.dirs[dir].cell;
             && cell < |s.cells| && t.cells == s.cells[cell := s.cells[cell] + more]
             && t.cellPool == s.cellPool && t.dirs == s.dirs
    requires t.serial == s.serial && |t.pcs| == |s.pcs| && t.pcs == s.pcs[c := t.pcs[c]] && !t.pcs[c].Dropping?
    requires forall d: nat :: Total(Dir(d), t) == Total(Dir(d), s) + if d == dir then more else 0
    ensures Sound(t)
  {
    forall d: nat | d in t.dirs ensures DirOk(t, d) {
      assert DirOk(s, d) && DirOk(s, dir) && CellsApart(s, d, dir);
    }
    forall d: nat, e: nat ensures CellsApart(t, d, e) { assert CellsApart(s, d, e); }
    forall k: nat | k < |t.cells| && k !in t.cellPool ensures Owned(t, k) {
      assert Owned(s, k);
      var d: nat :| Live(s, d) && s.dirs[d].cell == k;
      assert Live(t, d) && t.dirs[d].cell == k;
    }
    forall d | 0 <= d < |t.pcs| ensures DropOk(t, d) { assert DropOk(s, d); }
  }

  lemma {:induction false} InUseIsLive(s: Process, dir: nat)
    requires Sound(s) && dir in s.dirs && Total(Dir(dir), s) > 0
    ensures Live(s, dir)
  {
    assert DirOk(s, dir);
  }

  lemma {:induction false} JoinKeepsSound(s: Process, c: nat)
    requires Sound(s) && c < |s.pcs| && s.pcs[c].Filled? && !s.pcs[c].spawn
    ensures Sound(CreateStep(s, c))
  {
    StepKeepsNumbers(s, Advance(c));
    assert PcOk(s, c);
    var dir := s.pcs[c].child.dir;
    ListedUses(s, c, s.pcs[c].maker);
    InUseIsLive(s, dir);
    forall d: nat
      ensures Total(Dir(d), CreateStep(s, c)) == Total(Dir(d), s) + if d == dir then 1 else 0
    {
      StepChange(Dir(d), s, Advance(c));
    }
    CountKeepsSound(s, CreateStep(s, c), c, dir, 1);
  }

  lemma {:induction false} LeaveKeepsSound(s: Process, c: nat)
    requires Sound(s) && c < |s.pcs| && s.pcs[c].TidFreed?
    ensures Sound(ReleaseStep(s, c))
  {
    StepKeepsNumbers(s, Advance(c));
    assert PcOk(s, c);
    var dir := s.pcs[c].victim.dir;
    HeldByPc(Dir(dir), s.pcs, c, |s.pcs|);
    InUseIsLive(s, dir);
    forall d: nat
      ensures Total(Dir(d), ReleaseStep(s, c)) == Total(Dir(d), s) + if d == dir then -1 else 0
    {
      StepChange(Dir(d), s, Advance(c));
    }
    CountKeepsSound(s, ReleaseStep(s, c), c, dir, -1);
  }

  // ----- freeing it

  lemma {:induction false} DropKeepsCounter(s: Process, c: nat, d: nat)
    requires Sound(s) && c < |s.pcs| && s.pcs[c].Dropping? && !StaleFree(s, Advance(c)) && Shaped(ReleaseStep(s, c))
    requires d in ReleaseStep(s, c).dirs
    ensures DirOk(ReleaseStep(s, c), d)
  {
    assert PcOk(s, c) && DropOk(s, c);
    var dir := s.pcs[c].victim.dir;
    ReleasesChange(Dir(d), s, c);
    assert DirOk(s, dir) && DirOk(s, d) && CellsApart(s, d, dir);
  }

  lemma {:induction false} DropKeepsOwners(s: Process, c: nat, k: nat)
    requires Sound(s) && c < |s.pcs| && s.pcs[c].Dropping?
    requires var t := ReleaseStep(s, c); k < |t.cells| && k !in t.cellPool
    ensures Owned(ReleaseStep(s, c), k)
  {
    var t := ReleaseStep(s, c);
    assert PcOk(s, c);
    var dir := s.pcs[c].victim.dir;
    assert t.cellPool == s.cellPool + [s.dirs[dir].cell];
    assert s.dirs[dir].cell in t.cellPool && (k in s.cellPool ==> k in t.cellPool);
    assert Owned(s, k);
    var d: nat :| Live(s, d) && s.dirs[d].cell == k;
    assert Live(t, d) && t.dirs[d].cell == k;
  }

  lemma {:induction false} DropKeepsDrop(s: Process, c: nat, d: nat)
    requires Sound(s) && c < |s.pcs| && s.pcs[c].Dropping? && d < |s.pcs|
    ensures |ReleaseStep(s, c).pcs| == |s.pcs| && DropOk(ReleaseStep(s, c), d)
  {
    assert DropOk(s, d);
    if s.pcs[d].Dropping? { ReleasesChange(Dir(s.pcs[d].victim.dir), s, c); }
  }

  lemma {:induction false} DropKeepsSound(s: Process, c: nat)
    requires Sound(s) && c < |s.pcs| && s.pcs[c].Dropping? && !StaleFree(s, Advance(c))
    ensures Sound(ReleaseStep(s, c))
  {
    StepKeepsNumbers(s, Advance(c));
    var t := ReleaseStep(s, c);
    assert PcOk(s, c) && DropOk(s, c);
    assert DirOk(s, s.pcs[c].victim.dir);
    forall d: nat | d in t.dirs ensures DirOk(t, d) { DropKeepsCounter(s, c, d); }
    forall d: nat, e: nat ensures CellsApart(t, d, e) { assert CellsApart(s, d, e); }
    forall k: nat | k < |t.cells| && k !in t.cellPool ensures Owned(t, k) { DropKeepsOwners(s, c, k); }
    forall d | 0 <= d < |t.pcs| ensures DropOk(t, d) { DropKeepsDrop(s, c, d); }
  }

  lemma {:induction false} CheckIsRight(s: Process, c: nat)
    requires Sound(s) && c < |s.pcs| && s.pcs[c].Released?
    ensures ReleaseStep(s, c).pcs[c].Dropping? ==> Total(Dir(s.pcs[c].victim.dir), s) == 0
  {
    assert PcOk(s, c);
    assert DirOk(s, s.pcs[c].victim.dir);
  }

  /** Steps that touch no counter. */
  predicate LeavesCounters(s: Process, step: Step)
    requires Shaped(s) && Enabled(s, step)
  {
    step.Advance? ==> !s.pcs[step.core].Filled? && !s.pcs[step.core].TidFreed? && !s.pcs[step.core].Dropping?
  }

  predicate CountersKept(s: Process, t: Process) {
    t.cells == s.cells && t.cellPool == s.cellPool && t.dirs == s.dirs && s.serial <= t.serial && |t.pcs| == |s.pcs|
  }

  lemma {:induction false} CreationLeavesCounters(s: Process, c: nat)
    requires Shaped(s) && c < |s.pcs| && Creating(s.pcs[c]) && !s.pcs[c].Filled?
    ensures CountersKept(s, CreateStep(s, c))
  {
    assert PcOk(s, c);
  }

  lemma {:induction false} ReleaseLeavesCounters(s: Process, c: nat)
    requires Shaped(s) && c < |s.pcs| && Releasing(s.pcs[c]) && !s.pcs[c].TidFreed? && !s.pcs[c].Dropping?
    ensures CountersKept(s, ReleaseStep(s, c))
  {
  }

  lemma {:induction false} CountersLeft(s: Process, step: Step)
    requires Shaped(s) && Enabled(s, step) && LeavesCounters(s, step)
    ensures CountersKept(s, Apply(s, step))
  {
    if step.Advance? {
      var c := step.core;
      if Creating(s.pcs[c]) {
        CreationLeavesCounters(s, c);
      } else if Releasing(s.pcs[c]) {
        ReleaseLeavesCounters(s, c);
      } else if Walking(s.pcs[c]) && !WalkStep(s, c).pcs[c].Unlinked? {
        WalkAside(s, c);
      }
    }
  }

  lemma {:induction false} UsersLeft(s: Process, step: Step, d: nat)
    requires Shaped(s) && Enabled(s, step) && LeavesCounters(s, step)
    ensures Total(Dir(d), Apply(s, step)) == Total(Dir(d), s)
  {
    StepChange(Dir(d), s, step);
  }

  lemma {:induction false} SameCountersSound(s: Process, t: Process)
    requires Sound(s) && Numbered(t)
    requires t.cells == s.cells && t.cellPool == s.cellPool && t.dirs == s.dirs
    requires forall d: nat :: Total(Dir(d), t) == Total(Dir(d), s)
    requires forall c :: 0 <= c < |t.pcs| ==> DropOk(t, c)
    ensures Sound(t)
  {
    forall d: nat | d in t.dirs ensures DirOk(t, d) { assert DirOk(s, d); }
    forall d: nat, e: nat ensures CellsApart(t, d, e) { assert CellsApart(s, d, e); }
    forall k: nat | k < |t.cells| && k !in t.cellPool ensures Owned(t, k) {
      assert Owned(s, k);
      var d: nat :| Live(s, d) && s.dirs[d].cell == k;
      assert Live(t, d) && t.dirs[d].cell == k;
    }
  }

  lemma {:induction false} OtherStepsKeepSound(s: Process, step: Step)
    requires Sound(s) && Enabled(s, step) && LeavesCounters(s, step)
    ensures Sound(Apply(s, step))
  {
    StepKeepsNumbers(s, step);
    CountersLeft(s, step);
    var t := Apply(s, step);
    forall d: nat ensures Total(Dir(d), t) == Total(Dir(d), s) { UsersLeft(s, step, d); }
    forall d | 0 <= d < |t.pcs| ensures DropOk(t, d) { OtherStepsKeepDrop(s, step, d); }
    SameCountersSound(s, t);
  }

  lemma {:induction false} NewlyDropping(s: Process, step: Step)
    requires Shaped(s) && Enabled(s, step) && LeavesCounters(s, step)
    ensures var pc := Apply(s, step).pcs[step.core];
            pc.Dropping? ==> step.Advance? && s.pcs[step.core].Released? && pc.victim == s.pcs[step.core].victim
  {
    assert PcOk(s, step.core);
  }

  lemma {:induction false} OwnDropIsRight(s: Process, step: Step)
    requires Sound(s) && Enabled(s, step) && LeavesCounters(s, step) && |s.pcs| == |Apply(s, step).pcs|
    ensures DropOk(Apply(s, step), step.core)
  {
    var c, t := step.core, Apply(s, step);
    if t.pcs[c].Dropping? {
      NewlyDropping(s, step);
      UsersLeft(s, step, s.pcs[c].victim.dir);
      CheckIsRight(s, c);
    }
  }

  lemma {:induction false} OtherStepsKeepDrop(s: Process, step: Step, d: nat)
    requires Sound(s) && Enabled(s, step) && LeavesCounters(s, step) && d < |s.pcs| == |Apply(s, step).pcs|
    ensures DropOk(Apply(s, step), d)
  {
    if d == step.core {
      OwnDropIsRight(s, step);
    } else {
      DirectoriesStay(s, step);
      assert DropOk(s, d);
      if s.pcs[d].Dropping? { UsersLeft(s, step, s.pcs[d].victim.dir); }
    }
  }

  lemma {:induction false} StaleFreeIsUnsound(s: Process, c: nat)
    requires Sound(s) && c < |s.pcs| && s.pcs[c].Dropping? && StaleFree(s, Advance(c))
    ensures !Sound(ReleaseStep(s, c))
  {
    StepKeepsShape(s, Advance(c));
    assert PcOk(s, c);
    assert !DirOk(ReleaseStep(s, c), s.pcs[c].victim.dir);
  }

  /** Every step keeps the counters and their blocks in order if and only if it does not free a directory that has
      been freed. */
  lemma {:induction false} StepKeepsSound(s: Process, step: Step)
    requires Sound(s) && Enabled(s, step)
    ensures Sound(Apply(s, step)) <==> !StaleFree(s, step)
  {
    var c := step.core;
    if step.Advance? && s.pcs[c].Filled? {
      if s.pcs[c].spawn { SpawnKeepsSound(s, c); } else { JoinKeepsSound(s, c); }
    } else if step.Advance? && s.pcs[c].TidFreed? {
      LeaveKeepsSound(s, c);
    } else if step.Advance? && s.pcs[c].Dropping? {
      if StaleFree(s, step) { StaleFreeIsUnsound(s, c); } else { DropKeepsSound(s, c); }
    } else {
      OtherStepsKeepSound(s, step);
    }
  }

  // ----- runs

  /** No directory is freed a second time. */
  ghost predicate FreesFresh(s: Process, steps: seq<Step>)
    requires CanRun(s, steps)
    decreases |steps|
  {
    steps == [] || (!StaleFree(s, steps[0]) && FreesFresh(Apply(s, steps[0]), steps[1..]))
  }

  ghost predicate SoundAlong(s: Process, steps: seq<Step>)
    requires CanRun(s, steps)
    decreases |steps|
  {
    Sound(s) && (steps == [] || SoundAlong(Apply(s, steps[0]), steps[1..]))
  }

  /** Over a whole run the counters stay right, at every moment, if and only if no directory is freed twice. */
  lemma {:induction false} RunKeepsSound(s: Process, steps: seq<Step>)
    requires Sound(s) && CanRun(s, steps)
    ensures SoundAlong(s, steps) <==> FreesFresh(s, steps)
    ensures FreesFresh(s, steps) ==> Sound(Run(s, steps))
    decreases |steps|
  {
    if steps != [] {
      StepKeepsSound(s, steps[0]);
      if Sound(Apply(s, steps[0])) { RunKeepsSound(Apply(s, steps[0]), steps[1..]); }
    }
  }

  lemma {:induction false} StartIsSound(cores: nat, target: nat)
    requires target < cores
    ensures Sound(Start(cores, target))
  {
    StartIsBooked(cores, target);
    var s := Start(cores, target);
    StartLists(Dir(0), cores, target, cores);
    IdlePcs(Dir(0), s.pcs, cores);
    assert DirOk(s, 0);
    assert Live(s, 0) && s.dirs[0].cell == 0;
  }

  lemma {:induction false} ListedDirIsLive(s: Process, c: nat, x: Thread)
    requires Sound(s) && c < |s.lists| && x in s.lists[c]
    ensures Live(s, x.dir)
  {
    assert ListOk(s, c) && ThreadOk(s, c, x);
    ListedUses(s, c, x);
    InUseIsLive(s, x.dir);
  }

  lemma {:induction false} CarriedDirIsLive(s: Process, c: nat)
    requires Sound(s) && c < |s.pcs| && (s.pcs[c].Made? || s.pcs[c].Counted? || s.pcs[c].Ready?)
    ensures Live(s, s.pcs[c].child.dir)
  {
    assert PcOk(s, c);
    HeldByPc(Dir(s.pcs[c].child.dir), s.pcs, c, |s.pcs|);
    InUseIsLive(s, s.pcs[c].child.dir);
  }

  /** After every run in which no directory is freed twice, no thread in a list, and none on its way there, uses a
      freed directory, and each counter is the number of the directory's users. */
  lemma {:induction false} NeverFreedInUse(cores: nat, target: nat, steps: seq<Step>, c: nat, x: Thread)
    requires target < cores && CanRun(Start(cores, target), steps) && FreesFresh(Start(cores, target), steps)
    ensures var t := Run(Start(cores, target), steps);
            && Shaped(t)
            && (c < |t.lists| && x in t.lists[c] ==> Live(t, x.dir))
            && (c < |t.pcs| && (t.pcs[c].Made? || t.pcs[c].Counted? || t.pcs[c].Ready?) ==>
                  Live(t, t.pcs[c].child.dir))
            && (forall d: nat :: Live(t, d) ==> t.cells[t.dirs[d].cell] == Total(Dir(d), t))
  {
    StartIsSound(cores, target);
    RunKeepsSound(Start(cores, target), steps);
    var t := Run(Start(cores, target), steps);
    if c < |t.lists| && x in t.lists[c] { ListedDirIsLive(t, c, x); }
    if c < |t.pcs| && (t.pcs[c].Made? || t.pcs[c].Counted? || t.pcs[c].Ready?) { CarriedDirIsLive(t, c); }
    forall d: nat | Live(t, d) ensures t.cells[t.dirs[d].cell] == Total(Dir(d), t) { assert DirOk(t, d); }
  }

  // ----- how often a directory is freed

  function CheckerOf(dir: nat, pc: Pc): nat {
    if (pc.Released? || pc.Dropping?) && pc.victim.dir == dir then 1 else 0
  }

  /** The kills that have lowered the directory's counter and not looked at it since, or are about to free it. */
  function Checkers(dir: nat, pcs: seq<Pc>, n: nat): nat
    requires n <= |pcs|
  {
    if n == 0 then 0 else Checkers(dir, pcs, n - 1) + CheckerOf(dir, pcs[n - 1])
  }

  lemma {:induction false} CheckersUpdate(dir: nat, pcs: seq<Pc>, c: nat, pc: Pc, n: nat)
    requires c < |pcs| && n <= |pcs|
    ensures Checkers(dir, pcs[c := pc], n) ==
            Checkers(dir, pcs, n) + (if c < n then CheckerOf(dir, pc) - CheckerOf(dir, pcs[c]) else 0)
  {
    if n > 0 { CheckersUpdate(dir, pcs, c, pc, n - 1); }
  }

  /** A killer of the directory reads a counter that is not zero. */
  predicate Missed(s: Process, step: Step, dir: nat)
    requires Shaped(s)
  {
    step.Advance? && step.core < |s.pcs| && s.pcs[step.core].Released? &&
    (assert PcOk(s, step.core); s.pcs[step.core].victim.dir == dir && s.cells[s.dirs[dir].cell] != 0)
  }

  function MissOf(s: Process, step: Step, dir: nat): nat
    requires Shaped(s)
  {
    if Missed(s, step, dir) then 1 else 0
  }

  ghost function Misses(s: Process, steps: seq<Step>, dir: nat): nat
    requires CanRun(s, steps)
    decreases |steps|
  {
    if steps == [] then 0
    else MissOf(s, steps[0], dir) + Misses(Apply(s, steps[0]), steps[1..], dir)
  }

  /** How often the directory has been freed or may still be. */
  function Doomed(s: Process, dir: nat): nat
    requires dir in s.dirs
  {
    s.dirs[dir].frees + Checkers(dir, s.pcs, |s.pcs|)
  }

  /** A directory without users is not taken into use again. */
  lemma {:induction false} NoUserNoReturn(s: Process, step: Step, dir: nat)
    requires Numbered(s) && Enabled(s, step) && dir in s.dirs && Total(Dir(dir), s) == 0
    ensures var t := Apply(s, step); dir in t.dirs && Total(Dir(dir), t) == 0
    ensures step.Advance? && s.pcs[step.core].TidFreed? ==> s.pcs[step.core].victim.dir != dir
  {
    StepChange(Dir(dir), s, step);
    var c := step.core;
    assert PcOk(s, c);
    if step.Advance? && s.pcs[c].Filled? {
      assert SpawnOk(s, c);
      ListedUses(s, c, s.pcs[c].maker);
    } else if step.Advance? && s.pcs[c].TidFreed? {
      HeldByPc(Dir(s.pcs[c].victim.dir), s.pcs, c, |s.pcs|);
    }
  }

  /** What a step does to a core's own part in freeing a directory without users. */
  predicate Owes(s: Process, t: Process, c: nat, dir: nat, missed: nat)
    requires c < |s.pcs|
  {
    && |t.pcs| == |s.pcs| && t.pcs == s.pcs[c := t.pcs[c]] && dir in s.dirs && dir in t.dirs
    && CheckerOf(dir, t.pcs[c]) + t.dirs[dir].frees == CheckerOf(dir, s.pcs[c]) + s.dirs[dir].frees - missed
    && t.dirs[dir].frees >= s.dirs[dir].frees
  }

  lemma {:induction false} KillOwes(s: Process, c: nat, dir: nat)
    requires Shaped(s) && c < |s.pcs| && dir in s.dirs
    requires s.pcs[c].Released? || s.pcs[c].Dropping? || (s.pcs[c].TidFreed? && s.pcs[c].victim.dir != dir)
    ensures Owes(s, ReleaseStep(s, c), c, dir, MissOf(s, Advance(c), dir))
  {
    assert PcOk(s, c);
  }

  lemma {:induction false} CreationOwes(s: Process, c: nat, dir: nat)
    requires Shaped(s) && c < |s.pcs| && dir in s.dirs && Creating(s.pcs[c]) && SpawnOk(s, c)
    ensures Owes(s, CreateStep(s, c), c, dir, 0)
  {
    assert PcOk(s, c);
  }

  lemma {:induction false} OthersOweNothing(s: Process, step: Step, dir: nat)
    requires Shaped(s) && Enabled(s, step) && dir in s.dirs
    requires step.Advance? ==>
      var pc := s.pcs[step.core]; !Creating(pc) && !pc.Released? && !pc.Dropping? && !pc.TidFreed?
    ensures Owes(s, Apply(s, step), step.core, dir, 0)
  {
    assert PcOk(s, step.core);
  }

  lemma {:induction false} CheckerAfterStep(s: Process, step: Step, dir: nat)
    requires Numbered(s) && Enabled(s, step) && dir in s.dirs && Total(Dir(dir), s) == 0
    ensures Owes(s, Apply(s, step), step.core, dir, MissOf(s, step, dir))
  {
    var c := step.core;
    NoUserNoReturn(s, step, dir);
    if !step.Advance? {
      OthersOweNothing(s, step, dir);
    } else if Creating(s.pcs[c]) {
      assert SpawnOk(s, c);
      CreationOwes(s, c, dir);
    } else if s.pcs[c].Released? || s.pcs[c].Dropping? || s.pcs[c].TidFreed? {
      KillOwes(s, c, dir);
    } else {
      OthersOweNothing(s, step, dir);
    }
  }

  lemma {:induction false} DoomFalls(s: Process, step: Step, dir: nat)
    requires Numbered(s) && Enabled(s, step) && dir in s.dirs && Total(Dir(dir), s) == 0
    ensures var t := Apply(s, step);
            && dir in t.dirs && t.dirs[dir].frees >= s.dirs[dir].frees
            && Doomed(t, dir) == Doomed(s, dir) - MissOf(s, step, dir)
  {
    CheckerAfterStep(s, step, dir);
    CheckersUpdate(dir, s.pcs, step.core, Apply(s, step).pcs[step.core], |s.pcs|);
  }

  lemma {:induction false} DoomFallsByMisses(s: Process, steps: seq<Step>, dir: nat)
    requires Numbered(s) && CanRun(s, steps) && dir in s.dirs && Total(Dir(dir), s) == 0
    ensures var t := Run(s, steps);
            dir in t.dirs && Doomed(t, dir) == Doomed(s, dir) - Misses(s, steps, dir)
    decreases |steps|
  {
    if steps != [] {
      StepKeepsNumbers(s, steps[0]);
      NoUserNoReturn(s, steps[0], dir);
      DoomFalls(s, steps[0], dir);
      DoomFallsByMisses(Apply(s, steps[0]), steps[1..], dir);
    }
  }

  /** The step with which the last user of a directory leaves it. */
  predicate LastRelease(s: Process, c: nat, dir: nat)
    requires Shaped(s) && c < |s.pcs|
  {
    s.pcs[c].TidFreed? && s.pcs[c].victim.dir == dir && Total(Dir(dir), s) == 1
  }

  /** Stale frees in the run, if any, are of this directory. */
  ghost predicate OthersFresh(s: Process, steps: seq<Step>, dir: nat)
    requires CanRun(s, steps)
    decreases |steps|
  {
    steps == [] ||
    ((StaleFree(s, steps[0]) ==> s.pcs[steps[0].core].victim.dir == dir) &&
     OthersFresh(Apply(s, steps[0]), steps[1..], dir))
  }

  /** A directory without users that somebody is to look at is freed, whatever happens to other directories. */
  lemma {:induction false} FreedSometime(s: Process, steps: seq<Step>, dir: nat)
    requires Numbered(s) && CanRun(s, steps) && dir in s.dirs && Total(Dir(dir), s) == 0
    requires OthersFresh(s, steps, dir) && Doomed(s, dir) >= 1
    requires Sound(s) || s.dirs[dir].frees >= 1
    ensures var t := Run(s, steps); dir in t.dirs && Doomed(t, dir) >= 1
    decreases |steps|
  {
    if steps != [] {
      var t := Apply(s, steps[0]);
      StepKeepsNumbers(s, steps[0]);
      NoUserNoReturn(s, steps[0], dir);
      DoomFalls(s, steps[0], dir);
      if s.dirs[dir].frees == 0 {
        assert DirOk(s, dir);
        StepKeepsSound(s, steps[0]);
      }
      FreedSometime(t, steps[1..], dir);
    }
  }

  /** Once the last user is gone and all kills have looked, the directory has been freed once for the last killer
      and once for every other kill that was then between lowering the counter and reading it, less the reads that
      found it above zero. At least one of them does not. */
  lemma {:induction false} FreedHowOften(s: Process, c: nat, dir: nat, steps: seq<Step>)
    requires Sound(s) && c < |s.pcs| && LastRelease(s, c, dir) && CanRun(ReleaseStep(s, c), steps)
    requires var t := Run(ReleaseStep(s, c), steps); Checkers(dir, t.pcs, |t.pcs|) == 0
    ensures dir in Run(ReleaseStep(s, c), steps).dirs
    ensures var frees := Run(ReleaseStep(s, c), steps).dirs[dir].frees;
            var others, misses := Checkers(dir, s.pcs, |s.pcs|), Misses(ReleaseStep(s, c), steps, dir);
            && frees == 1 + others - misses
            && (OthersFresh(ReleaseStep(s, c), steps, dir) ==> 1 <= frees)
            && (frees == 1 + others <==> misses == 0)
            && (frees == 1 <==> misses == others)
  {
    var t := ReleaseStep(s, c);
    assert PcOk(s, c);
    StepKeepsSound(s, Advance(c));
    StepChange(Dir(dir), s, Advance(c));
    InUseIsLive(s, dir);
    CheckersUpdate(dir, s.pcs, c, t.pcs[c], |s.pcs|);
    DoomFallsByMisses(t, steps, dir);
    if OthersFresh(t, steps, dir) { FreedSometime(t, steps, dir); }
  }

  /** A killer that finds the counter of a directory without users above zero looks at the counter of another
      directory: this one has been freed and its counter's block has been given to that one. */
  lemma {:induction false} MissMeansReused(s: Process, c: nat)
    requires Sound(s) && c < |s.pcs| && s.pcs[c].Released? && Total(Dir(s.pcs[c].victim.dir), s) == 0
    requires Missed(s, Advance(c), s.pcs[c].victim.dir)
    ensures var d := s.pcs[c].victim.dir;
            && d in s.dirs && s.dirs[d].frees == 1
            && exists e: nat :: e != d && Live(s, e) && s.dirs[e].cell == s.dirs[d].cell
  {
    assert PcOk(s, c);
    var d := s.pcs[c].victim.dir;
    assert DirOk(s, d);
    var cell := s.dirs[d].cell;
    assert cell !in s.cellPool;
    assert Owned(s, cell);
  }
}
