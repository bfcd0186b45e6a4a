/** The life of the user threads of one process: creation, spawning and killing on several cores, one shared
    access per step. A core runs one of these operations at a time, and only a core's own scan kills the
    threads of its list.
    Source: source/kernel/hardware/devices/cpu/scheduler.c:132-265, 421-632, 1043-1112;
    source/kernel/hardware/devices/memory/memory_allocators.c:775-835 */
module Lifecycle {

  const TIDS: nat := 32

  const NIL: int := -1

  /** `self` numbers the incarnations: unlike a thread ID and the block a thread is kept in (`node`), it is never
      used again. A spawned thread's page directory has its thread's number. */
  datatype Thread = Thread(self: nat, tid: nat, dir: nat, creator: nat, creatorTid: nat, node: nat)

  /** A block for a thread. A free block still holds the thread it held last. */
  datatype Node = Node(thread: Thread, next: int)

  /** The counter of a page directory lives in a block of its own, `cell`. */
  datatype Directory = Directory(cell: nat, frees: nat)

  /** Where a core is inside a creation or a kill; each constructor names what has just been done. `prev` is the block
      of the thread before the victim as the kill began, NULL if it was the first. `seen` is the incarnation that was
      read; no step looks at it, nor at `since`, the serial number the kill began at. From `Exchanging` on a kill may
      have lost its victim: `current` is the thread the exchange failed on; then `victim` is the thread unlinked, and
      `tid` the ID of the one that was to be. */
  datatype Pc =
    | Idle
    | Chosen(maker: Thread, target: nat, spawn: bool)
    | Picked(maker: Thread, target: nat, spawn: bool, bit: nat)
    | Loaded(maker: Thread, target: nat, spawn: bool, bit: nat, word: seq<bool>)
    | Claimed(maker: Thread, target: nat, spawn: bool, bit: nat)
    | Filled(maker: Thread, child: Thread, target: nat, spawn: bool)
    | Made(maker: Thread, child: Thread, target: nat)
    | Counted(maker: Thread, child: Thread, target: nat)
    | Ready(maker: Thread, child: Thread, target: nat)
    | Marking(victim: Thread, prev: int, since: nat, upTo: nat)
    | Standing(victim: Thread, prev: int, since: nat, upTo: nat, at: int)
    | Matching(victim: Thread, prev: int, since: nat, upTo: nat, at: int, seen: nat)
    | Passing(victim: Thread, prev: int, since: nat, upTo: nat, at: int)
    | Exchanging(victim: Thread, current: Thread)
    | Unlinked(tid: nat, victim: Thread)
    | NotRunning(tid: nat, victim: Thread)
    | NotCounted(tid: nat, victim: Thread)
    | TidLoaded(tid: nat, victim: Thread, word: seq<bool>)
    | TidFreed(victim: Thread)
    | Released(victim: Thread)
    | Dropping(victim: Thread)
    | Checked(victim: Thread)

  /** `bits`, `running` and `lists` are per core; `nodes` and `cells` are the blocks for threads and counters, the
      pools the free ones, last in first out; `marked` are the incarnations with `delete_me` set. */
  datatype Process = Process(
    lists: seq<seq<Thread>>,
    bits: seq<seq<bool>>,
    running: seq<int>,
    total: int,
    nodes: seq<Node>,
    nodePool: seq<nat>,
    cells: seq<int>,
    cellPool: seq<nat>,
    dirs: map<nat, Directory>,
    marked: set<nat>,
    serial: nat,
    pcs: seq<Pc>)

  datatype Step =
    | BeginCreate(core: nat, maker: Thread, target: nat, spawn: bool)
    | BeginKill(core: nat, victim: Thread)
    | Advance(core: nat)

  function TidOf(core: nat, bit: nat): nat {
    core * TIDS + bit + 1
  }

  /** The thread's ID is one of those of `core`. */
  predicate Home(x: Thread, core: nat) {
    core * TIDS < x.tid <= core * TIDS + TIDS
  }

  function BitOf(tid: nat): nat {
    if tid == 0 then 0 else (tid - 1) % TIDS
  }

  function LowestClear(bits: seq<bool>): (i: nat)
    ensures i <= |bits|
    ensures i < |bits| ==> !bits[i]
    ensures forall k :: 0 <= k < i ==> bits[k]
  {
    if bits == [] then 0 else if !bits[0] then 0 else
      var i := LowestClear(bits[1..]);
      assert forall k :: 1 <= k < |bits| ==> bits[k] == bits[1..][k - 1];
      1 + i
  }

  function Without(list: seq<Thread>, x: Thread): seq<Thread> {
    if list == [] then [] else if list[0] == x then list[1..] else [list[0]] + Without(list[1..], x)
  }

  function HeadOf(list: seq<Thread>): int {
    if list == [] then NIL else list[0].node
  }

  /** The block of the thread before `x` in the list, or NULL if `x` is the first. */
  function Behind(list: seq<Thread>, x: Thread): int {
    if |list| < 2 || list[0] == x then NIL
    else if list[1] == x then list[0].node
    else Behind(list[1..], x)
  }

  // ----- what the steps may rely on

  predicate ThreadOk(s: Process, core: nat, x: Thread) {
    Home(x, core) && x.dir in s.dirs && x.node < |s.nodes|
  }

  predicate ChildOk(s: Process, maker: Thread, child: Thread, target: nat, spawn: bool) {
    && target < |s.pcs| && Home(child, target) && child.node < |s.nodes|
    && (if spawn then child.dir == child.self else child.dir in s.dirs)
    && child.creator == maker.self && child.creatorTid == maker.tid
  }

  predicate KillOk(s: Process, core: nat, victim: Thread, prev: int, upTo: nat, at: int)
    requires core < |s.lists|
  {
    victim in s.lists[core] && upTo <= |s.pcs| && PointerOk(s, prev) && PointerOk(s, at)
  }

  /** The thread unlinked was to be, or the one that was to be is listed still. */
  predicate GoneOk(s: Process, core: nat, tid: nat, victim: Thread)
    requires core < |s.lists|
  {
    ThreadOk(s, core, victim) && (tid == victim.tid || exists x :: x in s.lists[core] && x.tid == tid)
  }

  predicate PointerOk(s: Process, at: int) {
    at == NIL || 0 <= at < |s.nodes|
  }

  predicate PcOk(s: Process, core: nat)
    requires |s.lists| == |s.pcs| && core < |s.pcs|
  {
    match s.pcs[core]
    case Idle => true
    case Chosen(maker, target, _) => maker in s.lists[core] && target < |s.pcs|
    case Picked(maker, target, _, bit) => maker in s.lists[core] && target < |s.pcs| && bit < TIDS
    case Loaded(maker, target, _, bit, word) =>
      maker in s.lists[core] && target < |s.pcs| && bit < TIDS && |word| == TIDS
    case Claimed(maker, target, _, bit) => maker in s.lists[core] && target < |s.pcs| && bit < TIDS
    case Filled(maker, child, target, spawn) =>
      maker in s.lists[core] && ChildOk(s, maker, child, target, spawn) && (spawn || child.dir == maker.dir)
    case Made(maker, child, target) => maker in s.lists[core] && ChildOk(s, maker, child, target, false)
    case Counted(maker, child, target) => maker in s.lists[core] && ChildOk(s, maker, child, target, false)
    case Ready(maker, child, target) => maker in s.lists[core] && ChildOk(s, maker, child, target, false)
    case Marking(victim, prev, _, upTo) => KillOk(s, core, victim, prev, upTo, NIL)
    case Standing(victim, prev, _, upTo, at) => KillOk(s, core, victim, prev, upTo, at) && upTo < |s.pcs|
    case Matching(victim, prev, _, upTo, at, _) =>
      KillOk(s, core, victim, prev, upTo, at) && upTo < |s.pcs| && at != NIL
    case Passing(victim, prev, _, upTo, at) =>
      KillOk(s, core, victim, prev, upTo, at) && upTo < |s.pcs| && at != NIL
    case Exchanging(victim, current) => victim in s.lists[core] && current in s.lists[core]
    case Unlinked(tid, victim) => GoneOk(s, core, tid, victim)
    case NotRunning(tid, victim) => GoneOk(s, core, tid, victim)
    case NotCounted(tid, victim) => GoneOk(s, core, tid, victim)
    case TidLoaded(tid, victim, word) => GoneOk(s, core, tid, victim) && |word| == TIDS
    case TidFreed(victim) => ThreadOk(s, core, victim)
    case Released(victim) => ThreadOk(s, core, victim)
    case Dropping(victim) => ThreadOk(s, core, victim)
    case Checked(victim) => ThreadOk(s, core, victim)
  }

  predicate ListOk(s: Process, core: nat)
    requires core < |s.lists|
  {
    forall x :: x in s.lists[core] ==> ThreadOk(s, core, x)
  }

  predicate BitsOk(s: Process, core: nat)
    requires core < |s.bits|
  {
    |s.bits[core]| == TIDS
  }

  /** Pointers between blocks and to blocks are NULL or lead to blocks. */
  predicate BlocksOk(s: Process) {
    && (forall n :: 0 <= n < |s.nodes| ==> PointerOk(s, s.nodes[n].next))
    && (forall k :: 0 <= k < |s.nodePool| ==> s.nodePool[k] < |s.nodes|)
    && (forall k :: 0 <= k < |s.cellPool| ==> s.cellPool[k] < |s.cells|)
    && (forall d :: d in s.dirs ==> s.dirs[d].cell < |s.cells|)
  }

  predicate Shaped(s: Process) {
    && |s.lists| == |s.bits| == |s.running| == |s.pcs|
    && BlocksOk(s)
    && (forall c :: 0 <= c < |s.bits| ==> BitsOk(s, c))
    && (forall c :: 0 <= c < |s.lists| ==> ListOk(s, c))
    && (forall c :: 0 <= c < |s.pcs| ==> PcOk(s, c))
  }

  // ----- the steps

  predicate Enabled(s: Process, step: Step)
    requires Shaped(s)
  {
    step.core < |s.pcs| &&
    match step
    case BeginCreate(c, maker, target, _) =>
      s.pcs[c].Idle? && maker in s.lists[c] && target < |s.pcs| && s.running[target] < TIDS
    case BeginKill(c, victim) => s.pcs[c].Idle? && victim in s.lists[c]
    case Advance(c) => !s.pcs[c].Idle?
  }

  function At(s: Process, core: nat, pc: Pc): Process
    requires core < |s.pcs|
  {
    s.(pcs := s.pcs[core := pc])
  }

  /** The block the allocator gives out next: the last one freed, or a new one. */
  function Top(pool: seq<nat>, blocks: nat): nat {
    if pool == [] then blocks else pool[|pool| - 1]
  }

  function Popped(pool: seq<nat>): seq<nat> {
    if pool == [] then [] else pool[..|pool| - 1]
  }

  function Put<T>(blocks: seq<T>, at: nat, x: T): seq<T>
    requires at <= |blocks|
  {
    if at == |blocks| then blocks + [x] else blocks[at := x]
  }

  /** The new thread: in its creator's page directory, or in a new one of its own. */
  function NewThread(s: Process, maker: Thread, target: nat, spawn: bool, bit: nat): Thread {
    Thread(s.serial, TidOf(target, bit), if spawn then s.serial else maker.dir, maker.self, maker.tid,
           Top(s.nodePool, |s.nodes|))
  }

  /** A block for the new thread is taken and filled; its `next` is NULL. */
  function FillNode(s: Process, c: nat, maker: Thread, target: nat, spawn: bool, bit: nat): Process
    requires c < |s.pcs| && BlocksOk(s)
  {
    var child := NewThread(s, maker, target, spawn, bit);
    At(s.(nodes := Put(s.nodes, child.node, Node(child, NIL)), nodePool := Popped(s.nodePool), serial := s.serial + 1),
       c, Filled(maker, child, target, spawn))
  }

  /** The thread joins its page directory: a new counter of 1, or one more in the creator's. */
  function JoinDirectory(s: Process, c: nat, maker: Thread, child: Thread, target: nat, spawn: bool): Process
    requires c < |s.pcs| && BlocksOk(s) && (spawn || child.dir in s.dirs)
  {
    var cell := if spawn then Top(s.cellPool, |s.cells|) else s.dirs[child.dir].cell;
    var joined :=
      if spawn then s.(cells := Put(s.cells, cell, 1), cellPool := Popped(s.cellPool),
                       dirs := s.dirs[child.dir := Directory(cell, 0)])
      else s.(cells := s.cells[cell := s.cells[cell] + 1]);
    At(joined, c, Made(maker, child, target))
  }

  predicate Creating(pc: Pc) {
    pc.Chosen? || pc.Picked? || pc.Loaded? || pc.Claimed? || pc.Filled? || pc.Made? || pc.Counted? || pc.Ready?
  }

  predicate Walking(pc: Pc) {
    pc.Marking? || pc.Standing? || pc.Matching? || pc.Passing?
  }

  function CreateStep(s: Process, c: nat): Process
    requires Shaped(s) && c < |s.pcs| && Creating(s.pcs[c])
  {
    assert PcOk(s, c);
    match s.pcs[c]
    case Chosen(maker, target, spawn) =>
      assert BitsOk(s, target);
      var bit := LowestClear(s.bits[target]);
      At(s, c, if bit == TIDS then Idle else Picked(maker, target, spawn, bit))
    case Picked(maker, target, spawn, bit) => At(s, c, Loaded(maker, target, spawn, bit, s.bits[target]))
    case Loaded(maker, target, spawn, bit, word) =>
      At(s.(bits := s.bits[target := word[bit := true]]), c, Claimed(maker, target, spawn, bit))
    case Claimed(maker, target, spawn, bit) => FillNode(s, c, maker, target, spawn, bit)
    case Filled(maker, child, target, spawn) => JoinDirectory(s, c, maker, child, target, spawn)
    case Made(maker, child, target) => At(s.(total := s.total + 1), c, Counted(maker, child, target))
    case Counted(maker, child, target) =>
      At(s.(running := s.running[target := s.running[target] + 1]), c, Ready(maker, child, target))
    case Ready(maker, child, target) =>
      At(s.(lists := s.lists[target := [child] + s.lists[target]],
            nodes := s.nodes[child.node := s.nodes[child.node].(next := HeadOf(s.lists[target]))]), c, Idle)
  }

  /** The kill looks for the victim's children, block by block through every list. Then it redirects the pointer that
      led to the victim as the kill began; for a victim that was the first, by comparing the head with it and
      exchanging it, which fails if the head is another thread by now, and loads that one. */
  function WalkStep(s: Process, c: nat): Process
    requires Shaped(s) && c < |s.pcs| && Walking(s.pcs[c])
  {
    assert PcOk(s, c);
    match s.pcs[c]
    case Marking(victim, prev, since, upTo) =>
      if upTo < |s.pcs| then
        assert ListOk(s, upTo);
        At(s, c, Standing(victim, prev, since, upTo, HeadOf(s.lists[upTo])))
      else if prev == NIL && s.lists[c][0] != victim then At(s, c, Exchanging(victim, s.lists[c][0]))
      else
        var after := if victim.node < |s.nodes| then s.nodes[victim.node].next else NIL;
        var nodes := if prev == NIL then s.nodes else s.nodes[prev := s.nodes[prev].(next := after)];
        At(s.(lists := s.lists[c := Without(s.lists[c], victim)], nodes := nodes), c, Unlinked(victim.tid, victim))
    case Standing(victim, prev, since, upTo, at) =>
      if at == NIL then At(s, c, Marking(victim, prev, since, upTo + 1))
      else if s.nodes[at].thread.creatorTid == victim.tid then
        At(s, c, Matching(victim, prev, since, upTo, at, s.nodes[at].thread.self))
      else At(s, c, Passing(victim, prev, since, upTo, at))
    case Matching(victim, prev, since, upTo, at, _) =>
      At(s.(marked := s.marked + {s.nodes[at].thread.self}), c, Passing(victim, prev, since, upTo, at))
    case Passing(victim, prev, since, upTo, at) => At(s, c, Standing(victim, prev, since, upTo, s.nodes[at].next))
  }

  /** The exchange again, with the thread it failed on in place of the victim. */
  function ExchangeStep(s: Process, c: nat): Process
    requires Shaped(s) && c < |s.pcs| && s.pcs[c].Exchanging?
  {
    assert PcOk(s, c);
    var victim, current := s.pcs[c].victim, s.pcs[c].current;
    if s.lists[c][0] != current then At(s, c, Exchanging(victim, s.lists[c][0]))
    else At(s.(lists := s.lists[c := Without(s.lists[c], current)]), c, Unlinked(victim.tid, current))
  }

  predicate Uncounting(pc: Pc) {
    pc.Unlinked? || pc.NotRunning? || pc.NotCounted? || pc.TidLoaded?
  }

  predicate Leaving(pc: Pc) {
    pc.TidFreed? || pc.Released? || pc.Dropping? || pc.Checked?
  }

  predicate Releasing(pc: Pc) {
    Uncounting(pc) || Leaving(pc)
  }

  function ReleaseStep(s: Process, c: nat): Process
    requires Shaped(s) && c < |s.pcs| && Releasing(s.pcs[c])
  {
    assert PcOk(s, c) && BitsOk(s, c);
    var x := s.pcs[c].victim;
    var cell := s.dirs[x.dir].cell;
    match s.pcs[c]
    case Unlinked(tid, _) => At(s.(running := s.running[c := s.running[c] - 1]), c, NotRunning(tid, x))
    case NotRunning(tid, _) => At(s.(total := s.total - 1), c, NotCounted(tid, x))
    case NotCounted(tid, _) => At(s, c, TidLoaded(tid, x, s.bits[c]))
    case TidLoaded(tid, _, word) => At(s.(bits := s.bits[c := word[BitOf(tid) := false]]), c, TidFreed(x))
    case TidFreed(_) => At(s.(cells := s.cells[cell := s.cells[cell] - 1]), c, Released(x))
    case Released(_) => At(s, c, if s.cells[cell] == 0 then Dropping(x) else Checked(x))
    case Dropping(_) =>
      At(s.(dirs := s.dirs[x.dir := s.dirs[x.dir].(frees := s.dirs[x.dir].frees + 1)],
            cellPool := s.cellPool + [cell]), c, Checked(x))
    case Checked(_) => At(s.(nodePool := s.nodePool + [x.node]), c, Idle)
  }

  function Advanced(s: Process, c: nat): Process
    requires Shaped(s) && c < |s.pcs| && !s.pcs[c].Idle?
  {
    if Creating(s.pcs[c]) then CreateStep(s, c)
    else if Walking(s.pcs[c]) then WalkStep(s, c)
    else if Releasing(s.pcs[c]) then ReleaseStep(s, c)
    else ExchangeStep(s, c)
  }

  function Apply(s: Process, step: Step): Process
    requires Shaped(s) && Enabled(s, step)
  {
    match step
    case BeginCreate(c, maker, target, spawn) => At(s, c, Chosen(maker, target, spawn))
    case BeginKill(c, victim) => At(s, c, Marking(victim, Behind(s.lists[c], victim), s.serial, 0))
    case Advance(c) => Advanced(s, c)
  }

  /** A new process: its main thread in directory 0 on core `target`. */
  function Start(cores: nat, target: nat): Process
    requires target < cores
  {
    var main := Thread(0, TidOf(target, 0), 0, 0, 0, 0);
    Process(seq(cores, c => if c == target then [main] else []),
            seq(cores, c => seq(TIDS, i => c == target && i == 0)),
            seq(cores, c => if c == target then 1 else 0),
            1, [Node(main, NIL)], [], [1], [], map[0 := Directory(0, 0)], {}, 1, seq(cores, c => Idle))
  }

  // ----- the shape is kept

  lemma {:induction false} WithoutKeeps(list: seq<Thread>, x: Thread, y: Thread)
    ensures y in Without(list, x) ==> y in list
    ensures y in list && y != x ==> y in Without(list, x)
  {
    if list != [] {
      assert list == [list[0]] + list[1..];
      WithoutKeeps(list[1..], x, y);
    }
  }

  lemma {:induction false} BehindIsInList(list: seq<Thread>, x: Thread)
    ensures Behind(list, x) != NIL ==> exists i :: 0 <= i < |list| && list[i].node == Behind(list, x) && list[i] != x
  {
    if |list| >= 2 && list[0] != x {
      if list[1] != x {
        BehindIsInList(list[1..], x);
        if Behind(list[1..], x) != NIL {
          var i :| 0 <= i < |list[1..]| && list[1..][i].node == Behind(list[1..], x) && list[1..][i] != x;
          assert list[i + 1].node == Behind(list, x);
        }
      } else {
        assert list[0].node == Behind(list, x);
      }
    }
  }

  /** What makes the rest of a core's assumptions survive a change elsewhere. */
  predicate Grows(s: Process, t: Process) {
    && |t.pcs| == |s.pcs| && |t.lists| == |s.lists| == |s.pcs|
    && |s.nodes| <= |t.nodes|
    && (forall d :: d in s.dirs ==> d in t.dirs)
  }

  lemma {:induction false} PcOkKept(s: Process, t: Process, c: nat)
    requires Grows(s, t) && c < |s.pcs| && PcOk(s, c) && t.pcs[c] == s.pcs[c]
    requires forall x :: x in s.lists[c] ==> x in t.lists[c]
    ensures PcOk(t, c)
  {
  }

  lemma {:induction false} ListOkKept(s: Process, t: Process, c: nat)
    requires Grows(s, t) && c < |s.pcs| && ListOk(s, c)
    requires forall x :: x in t.lists[c] ==> x in s.lists[c] || ThreadOk(t, c, x)
    ensures ListOk(t, c)
  {
    forall x | x in t.lists[c] && x in s.lists[c] ensures ThreadOk(t, c, x) { assert ThreadOk(s, c, x); }
  }

  /** A step that leaves the lists alone keeps the shape if it does so where it happens. */
  lemma {:induction false} RestKeepsShape(s: Process, t: Process, c: nat)
    requires Shaped(s) && c < |s.pcs| && Grows(s, t) && BlocksOk(t)
    requires t.lists == s.lists && |t.bits| == |t.running| == |s.pcs|
    requires t.pcs == s.pcs[c := t.pcs[c]] && PcOk(t, c)
    requires forall d :: 0 <= d < |s.bits| ==> |t.bits[d]| == |s.bits[d]|
    ensures Shaped(t)
  {
    forall d | 0 <= d < |s.pcs|
      ensures PcOk(t, d) && ListOk(t, d) && BitsOk(t, d)
    {
      assert PcOk(s, d) && ListOk(s, d) && BitsOk(s, d);
      ListOkKept(s, t, d);
      if d != c { PcOkKept(s, t, d); }
    }
  }

  lemma {:induction false} ClaimKeepsShape(s: Process, c: nat)
    requires Shaped(s) && c < |s.pcs| && (s.pcs[c].Chosen? || s.pcs[c].Picked? || s.pcs[c].Loaded?)
    ensures Shaped(CreateStep(s, c))
  {
    assert PcOk(s, c) && BitsOk(s, s.pcs[c].target);
    RestKeepsShape(s, CreateStep(s, c), c);
  }

  lemma {:induction false} FillKeepsShape(s: Process, c: nat)
    requires Shaped(s) && c < |s.pcs| && s.pcs[c].Claimed?
    ensures Shaped(CreateStep(s, c))
  {
    assert PcOk(s, c) && ListOk(s, c) && ThreadOk(s, c, s.pcs[c].maker);
    var t := CreateStep(s, c);
    assert forall n :: 0 <= n < |t.nodes| ==> PointerOk(t, t.nodes[n].next);
    RestKeepsShape(s, t, c);
  }

  lemma {:induction false} JoinKeepsShape(s: Process, c: nat)
    requires Shaped(s) && c < |s.pcs| && (s.pcs[c].Filled? || s.pcs[c].Made? || s.pcs[c].Counted?)
    ensures Shaped(CreateStep(s, c))
  {
    assert PcOk(s, c);
    RestKeepsShape(s, CreateStep(s, c), c);
  }

  lemma {:induction false} PushKeepsShape(s: Process, c: nat)
    requires Shaped(s) && c < |s.pcs| && s.pcs[c].Ready?
    ensures Shaped(CreateStep(s, c))
  {
    var t := CreateStep(s, c);
    var target, child := s.pcs[c].target, s.pcs[c].child;
    assert PcOk(s, c) && ListOk(s, target);
    assert target < |s.lists| && (s.lists[target] != [] ==> ThreadOk(s, target, s.lists[target][0]));
    forall n | 0 <= n < |t.nodes| ensures PointerOk(t, t.nodes[n].next) { assert PointerOk(s, s.nodes[n].next); }
    forall d | 0 <= d < |s.pcs|
      ensures PcOk(t, d) && ListOk(t, d) && BitsOk(t, d)
    {
      assert PcOk(s, d) && ListOk(s, d) && BitsOk(s, d);
      ListOkKept(s, t, d);
      if d != c { PcOkKept(s, t, d); }
    }
  }

  lemma {:induction false} TurnKeepsShape(s: Process, c: nat)
    requires Shaped(s) && c < |s.pcs| && s.pcs[c].Marking? && !WalkStep(s, c).pcs[c].Unlinked?
    ensures Shaped(WalkStep(s, c))
  {
    assert PcOk(s, c) && ListOk(s, c);
    var upTo := s.pcs[c].upTo;
    if upTo < |s.pcs| {
      assert ListOk(s, upTo);
      if s.lists[upTo] != [] { assert ThreadOk(s, upTo, s.lists[upTo][0]); }
    }
    RestKeepsShape(s, WalkStep(s, c), c);
  }

  lemma {:induction false} StandKeepsShape(s: Process, c: nat)
    requires Shaped(s) && c < |s.pcs| && s.pcs[c].Standing?
    ensures Shaped(WalkStep(s, c))
  {
    assert PcOk(s, c);
    RestKeepsShape(s, WalkStep(s, c), c);
  }

  lemma {:induction false} LookKeepsShape(s: Process, c: nat)
    requires Shaped(s) && c < |s.pcs| && (s.pcs[c].Matching? || s.pcs[c].Passing?)
    ensures Shaped(WalkStep(s, c))
  {
    assert PcOk(s, c);
    var pc := s.pcs[c];
    if pc.Passing? { assert PointerOk(s, s.nodes[pc.at].next); }
    RestKeepsShape(s, WalkStep(s, c), c);
  }

  /** The lists change by one thread unlinked, and the pointers stay pointers. */
  lemma {:induction false} ShorterKeepsShape(s: Process, t: Process, c: nat, x: Thread)
    requires Shaped(s) && c < |s.pcs| && Grows(s, t) && BlocksOk(t)
    requires t.lists == s.lists[c := Without(s.lists[c], x)] && t.bits == s.bits && t.running == s.running
    requires t.pcs == s.pcs[c := t.pcs[c]] && PcOk(t, c)
    ensures Shaped(t)
  {
    forall d | 0 <= d < |s.pcs|
      ensures PcOk(t, d) && ListOk(t, d) && BitsOk(t, d)
    {
      assert PcOk(s, d) && ListOk(s, d) && BitsOk(s, d);
      forall y | y in t.lists[d] ensures y in s.lists[d] { WithoutKeeps(s.lists[c], x, y); }
      ListOkKept(s, t, d);
      if d != c { PcOkKept(s, t, d); }
    }
  }

  lemma {:induction false} UnlinkKeepsShape(s: Process, c: nat)
    requires Shaped(s) && c < |s.pcs| && Walking(s.pcs[c]) && WalkStep(s, c).pcs[c].Unlinked?
    ensures Shaped(WalkStep(s, c))
  {
    var t := WalkStep(s, c);
    var victim := s.pcs[c].victim;
    assert PcOk(s, c) && ListOk(s, c) && ThreadOk(s, c, victim);
    assert PointerOk(s, s.nodes[victim.node].next);
    forall n | 0 <= n < |t.nodes| ensures PointerOk(t, t.nodes[n].next) { assert PointerOk(s, s.nodes[n].next); }
    ShorterKeepsShape(s, t, c, victim);
  }

  lemma {:induction false} ExchangeKeepsShape(s: Process, c: nat)
    requires Shaped(s) && c < |s.pcs| && s.pcs[c].Exchanging?
    ensures Shaped(ExchangeStep(s, c))
  {
    var t := ExchangeStep(s, c);
    assert PcOk(s, c) && ListOk(s, c);
    var victim, current := s.pcs[c].victim, s.pcs[c].current;
    if s.lists[c][0] == current {
      assert ThreadOk(s, c, current);
      WithoutKeeps(s.lists[c], current, victim);
      assert current == victim || victim in t.lists[c];
      ShorterKeepsShape(s, t, c, current);
    } else {
      RestKeepsShape(s, t, c);
    }
  }

  lemma {:induction false} UncountKeepsShape(s: Process, c: nat)
    requires Shaped(s) && c < |s.pcs| && Uncounting(s.pcs[c])
    ensures Shaped(ReleaseStep(s, c))
  {
    assert PcOk(s, c) && BitsOk(s, c);
    RestKeepsShape(s, ReleaseStep(s, c), c);
  }

  lemma {:induction false} DropKeepsShape(s: Process, c: nat)
    requires Shaped(s) && c < |s.pcs| && (s.pcs[c].TidFreed? || s.pcs[c].Released?)
    ensures Shaped(ReleaseStep(s, c))
  {
    assert PcOk(s, c);
    RestKeepsShape(s, ReleaseStep(s, c), c);
  }

  lemma {:induction false} LeaveKeepsShape(s: Process, c: nat)
    requires Shaped(s) && c < |s.pcs| && (s.pcs[c].Dropping? || s.pcs[c].Checked?)
    ensures Shaped(ReleaseStep(s, c))
  {
    assert PcOk(s, c);
    RestKeepsShape(s, ReleaseStep(s, c), c);
  }

  lemma {:induction false} BeginKeepsShape(s: Process, step: Step)
    requires Shaped(s) && Enabled(s, step) && !step.Advance?
    ensures Shaped(Apply(s, step))
  {
    if step.BeginKill? {
      var list := s.lists[step.core];
      BehindIsInList(list, step.victim);
      assert ListOk(s, step.core);
      if Behind(list, step.victim) != NIL {
        var i :| 0 <= i < |list| && list[i].node == Behind(list, step.victim) && list[i] != step.victim;
        assert ThreadOk(s, step.core, list[i]);
      }
    }
    RestKeepsShape(s, Apply(s, step), step.core);
  }

  lemma {:induction false} StepKeepsShape(s: Process, step: Step)
    requires Shaped(s) && Enabled(s, step)
    ensures Shaped(Apply(s, step))
  {
    var c := step.core;
    if !step.Advance? {
      BeginKeepsShape(s, step);
    } else if Creating(s.pcs[c]) {
      if s.pcs[c].Ready? {
        PushKeepsShape(s, c);
      } else if s.pcs[c].Claimed? {
        FillKeepsShape(s, c);
      } else if s.pcs[c].Filled? || s.pcs[c].Made? || s.pcs[c].Counted? {
        JoinKeepsShape(s, c);
      } else {
        ClaimKeepsShape(s, c);
      }
    } else if Walking(s.pcs[c]) {
      assert PcOk(s, c);
      if WalkStep(s, c).pcs[c].Unlinked? {
        UnlinkKeepsShape(s, c);
      } else if s.pcs[c].Marking? {
        TurnKeepsShape(s, c);
      } else if s.pcs[c].Standing? {
        StandKeepsShape(s, c);
      } else {
        LookKeepsShape(s, c);
      }
    } else if Uncounting(s.pcs[c]) {
      UncountKeepsShape(s, c);
    } else if s.pcs[c].TidFreed? || s.pcs[c].Released? {
      DropKeepsShape(s, c);
    } else if Leaving(s.pcs[c]) {
      LeaveKeepsShape(s, c);
    } else {
      ExchangeKeepsShape(s, c);
    }
  }

  lemma {:induction false} StartIsShaped(cores: nat, target: nat)
    requires target < cores
    ensures Shaped(Start(cores, target))
  {
    var s := Start(cores, target);
    forall c | 0 <= c < cores
      ensures PcOk(s, c) && ListOk(s, c) && BitsOk(s, c)
    {
    }
  }

  // ----- what the steps leave alone

  /** Core `c` has moved on; the lists and the blocks for threads are as they were. */
  predicate Aside(s: Process, t: Process, c: nat) {
    && |t.pcs| == |s.pcs| && c < |s.pcs| && t.pcs == s.pcs[c := t.pcs[c]]
    && t.lists == s.lists && t.nodes == s.nodes && t.nodePool == s.nodePool && t.serial == s.serial
  }

  lemma {:induction false} CreateAside(s: Process, c: nat)
    requires Shaped(s) && c < |s.pcs| && Creating(s.pcs[c]) && !s.pcs[c].Claimed? && !s.pcs[c].Ready?
    ensures var t := CreateStep(s, c);
            && Aside(s, t, c) && t.marked == s.marked && (t.pcs[c].Idle? || Creating(t.pcs[c]))
            && (t.pcs[c].Made? || t.pcs[c].Counted? || t.pcs[c].Ready? ==> t.pcs[c].child == s.pcs[c].child)
            && !t.pcs[c].Filled?
  {
  }

  lemma {:induction false} WalkAside(s: Process, c: nat)
    requires Shaped(s) && c < |s.pcs| && Walking(s.pcs[c]) && !WalkStep(s, c).pcs[c].Unlinked?
    ensures var t := WalkStep(s, c);
            && Aside(s, t, c) && (Walking(t.pcs[c]) || t.pcs[c].Exchanging?)
            && t.pcs[c].victim == s.pcs[c].victim && s.pcs[c].victim in s.lists[c]
            && (Walking(t.pcs[c]) ==> t.pcs[c].prev == s.pcs[c].prev)
            && (t.pcs[c].Exchanging? ==> s.pcs[c].prev == NIL && s.lists[c][0] == t.pcs[c].current != s.pcs[c].victim)
  {
    assert PcOk(s, c);
  }

  lemma {:induction false} ReleaseAside(s: Process, c: nat)
    requires Shaped(s) && c < |s.pcs| && Releasing(s.pcs[c]) && !s.pcs[c].Checked?
    ensures var t := ReleaseStep(s, c); Aside(s, t, c) && t.marked == s.marked && Releasing(t.pcs[c])
  {
  }

  // ----- runs

  ghost predicate CanRun(s: Process, steps: seq<Step>)
    decreases |steps|
  {
    steps == [] ||
    (Shaped(s) && Enabled(s, steps[0]) && CanRun(Apply(s, steps[0]), steps[1..]))
  }

  function Run(s: Process, steps: seq<Step>): Process
    requires CanRun(s, steps)
    decreases |steps|
  {
    if steps == [] then s else Run(Apply(s, steps[0]), steps[1..])
  }

  lemma {:induction false} RunKeepsShape(s: Process, steps: seq<Step>)
    requires Shaped(s) && CanRun(s, steps)
    ensures Shaped(Run(s, steps))
    decreases |steps|
  {
    if steps != [] {
      StepKeepsShape(s, steps[0]);
      RunKeepsShape(Apply(s, steps[0]), steps[1..]);
    }
  }

  /** The shape inside `CanRun` makes the steps well defined and never excludes one: any run can be followed by
      any step that is enabled where it ends. */
  lemma {:induction false} RunExtends(s: Process, steps: seq<Step>, step: Step)
    requires Shaped(s) && CanRun(s, steps) && Shaped(Run(s, steps)) && Enabled(Run(s, steps), step)
    ensures CanRun(s, steps + [step]) && Run(s, steps + [step]) == Apply(Run(s, steps), step)
    decreases |steps|
  {
    if steps == [] {
      assert ([] + [step])[1..] == [] && ([] + [step])[0] == step;
      assert CanRun(Apply(s, step), []);
    } else {
      StepKeepsShape(s, steps[0]);
      RunExtends(Apply(s, steps[0]), steps[1..], step);
      assert (steps + [step])[1..] == steps[1..] + [step];
    }
  }
}
