/** Creations and kills that run while the other cores stand still, wherever those are: what each does as a whole.
    Source: source/kernel/hardware/devices/cpu/scheduler.c:254-265, 421-632, 1043-1112 */
module LifecycleAlone {
  import opened Lifecycle
  import opened LifecycleBooks
  import opened LifecycleNodes

  /** The step is not an overtaken store of a bitmap, and leads from one state to the other. */
  predicate FreshBy(s: Process, step: Step, t: Process) {
    Shaped(s) && Enabled(s, step) && !Overtaken(s, step) && t == Apply(s, step)
  }

  type Along = (Process, Process) -> bool

  predicate Joins(r: Along, s: Process, t: Process, u: Process) {
    r(s, t) && r(t, u) ==> r(s, u)
  }

  predicate Stays(r: Along, s: Process) {
    r(s, s)
  }

  ghost predicate Keeps(r: Along, s: Process, t: Process) {
    r(s, t) ==> (HeapOk(s) ==> HeapOk(t)) && (Booked(s) ==> Booked(t))
  }

  /** A relation that holds along every run in which no store is overtaken, and keeps what such runs keep. What runs
      lead to is shown of any such relation; the least of them, `Fresh`, comes last. */
  ghost predicate Follows(r: Along) {
    && (forall s, step, t :: FreshBy(s, step, t) ==> r(s, t))
    && (forall s, t, u :: Joins(r, s, t, u))
    && (forall s :: Stays(r, s))
    && (forall s, t :: Keeps(r, s, t))
  }

  lemma {:induction false} First(r: Along, s: Process, step: Step)
    requires Follows(r) && Shaped(s) && Enabled(s, step) && !Overtaken(s, step)
    ensures r(s, Apply(s, step)) && Shaped(Apply(s, step))
  {
    StepKeepsShape(s, step);
    assert FreshBy(s, step, Apply(s, step));
  }

  lemma {:induction false} Then(r: Along, s: Process, t: Process, u: Process)
    requires Follows(r) && r(s, t) && r(t, u)
    ensures r(s, u)
  {
    assert Joins(r, s, t, u);
  }

  lemma {:induction false} Kept(r: Along, s: Process, t: Process)
    requires Follows(r) && r(s, t)
    ensures HeapOk(s) ==> HeapOk(t)
    ensures Booked(s) ==> Booked(t)
  {
    assert Keeps(r, s, t);
  }

  /** One more step of a core that stores no bitmap. */
  lemma {:induction false} Forward(r: Along, s: Process, t: Process, c: nat)
    requires Follows(r) && r(s, t) && Shaped(t) && c < |t.pcs|
    requires !t.pcs[c].Idle? && !t.pcs[c].Loaded? && !t.pcs[c].TidLoaded?
    ensures r(s, Advanced(t, c)) && Shaped(Advanced(t, c))
  {
    assert PcOk(t, c);
    First(r, t, Advance(c));
    Then(r, s, t, Advanced(t, c));
  }

  lemma {:induction false} Onward(r: Along, s: Process, c: nat)
    requires Follows(r) && Shaped(s) && c < |s.pcs|
    requires !s.pcs[c].Idle? && !s.pcs[c].Loaded? && !s.pcs[c].TidLoaded?
    ensures r(s, Advanced(s, c)) && Shaped(Advanced(s, c))
  {
    assert PcOk(s, c);
    First(r, s, Advance(c));
  }

  // ----- a creation

  /** The process after a core has claimed the lowest clear bit. */
  function Claiming(s: Process, c: nat, maker: Thread, target: nat, spawn: bool): Process
    requires c < |s.pcs| && target < |s.bits| && LowestClear(s.bits[target]) < |s.bits[target]|
  {
    var bit := LowestClear(s.bits[target]);
    At(s.(bits := s.bits[target := s.bits[target][bit := true]]), c, Claimed(maker, target, spawn, bit))
  }

  /** The process after a creation that had claimed its bit is over. */
  function Finished(s: Process, c: nat): Process
    requires Shaped(s) && c < |s.pcs| && s.pcs[c].Claimed?
  {
    assert PcOk(s, c);
    var maker, target, spawn := s.pcs[c].maker, s.pcs[c].target, s.pcs[c].spawn;
    assert ListOk(s, c) && ThreadOk(s, c, maker);
    var child := NewThread(s, maker, target, spawn, s.pcs[c].bit);
    var joined := JoinDirectory(s, c, maker, child, target, spawn);
    At(joined.(nodes := Put(s.nodes, child.node, Node(child, HeadOf(s.lists[target]))),
               nodePool := Popped(s.nodePool), serial := s.serial + 1, total := s.total + 1,
               running := s.running[target := s.running[target] + 1],
               lists := s.lists[target := [child] + s.lists[target]]), c, Idle)
  }

  predicate CanCreate(s: Process, c: nat, maker: Thread, target: nat) {
    && Shaped(s) && c < |s.pcs| && s.pcs[c].Idle? && maker in s.lists[c]
    && target < |s.pcs| && s.running[target] < TIDS && LowestClear(s.bits[target]) < |s.bits[target]|
  }

  lemma {:induction false} SearchAlone(r: Along, s: Process, c: nat, maker: Thread, target: nat, spawn: bool)
    requires Follows(r)
    requires CanCreate(s, c, maker, target)
    ensures var bit := LowestClear(s.bits[target]);
            var t := At(s, c, Loaded(maker, target, spawn, bit, s.bits[target]));
            r(s, t) && Shaped(t)
  {
    var bit := LowestClear(s.bits[target]);
    assert BitsOk(s, target);
    var a := At(s, c, Chosen(maker, target, spawn));
    First(r, s, BeginCreate(c, maker, target, spawn));
    Forward(r, s, a, c);
    var b := At(s, c, Picked(maker, target, spawn, bit));
    assert Advanced(a, c) == b;
    Forward(r, s, b, c);
    assert Advanced(b, c) == At(s, c, Loaded(maker, target, spawn, bit, s.bits[target]));
  }

  lemma {:induction false} ClaimAlone(r: Along, s: Process, c: nat, maker: Thread, target: nat, spawn: bool)
    requires Follows(r)
    requires CanCreate(s, c, maker, target)
    ensures r(s, Claiming(s, c, maker, target, spawn)) && Shaped(Claiming(s, c, maker, target, spawn))
  {
    SearchAlone(r, s, c, maker, target, spawn);
    var bit := LowestClear(s.bits[target]);
    var t := At(s, c, Loaded(maker, target, spawn, bit, s.bits[target]));
    First(r, t, Advance(c));
    assert Apply(t, Advance(c)) == Claiming(s, c, maker, target, spawn);
    Then(r, s, t, Claiming(s, c, maker, target, spawn));
  }

  /** The child as filled, just before it joins its directory. */
  function FilledAlone(s: Process, c: nat): Process
    requires Shaped(s) && c < |s.pcs| && s.pcs[c].Claimed?
  {
    FillNode(s, c, s.pcs[c].maker, s.pcs[c].target, s.pcs[c].spawn, s.pcs[c].bit)
  }

  /** The child in its directory and counted, just before it is pushed. */
  function JoinedAlone(s: Process, c: nat): Process
    requires Shaped(s) && c < |s.pcs| && s.pcs[c].Filled?
  {
    assert PcOk(s, c);
    var maker, child, target := s.pcs[c].maker, s.pcs[c].child, s.pcs[c].target;
    var joined := JoinDirectory(s, c, maker, child, target, s.pcs[c].spawn);
    At(joined.(total := s.total + 1, running := s.running[target := s.running[target] + 1]), c,
       Ready(maker, child, target))
  }

  lemma {:induction false} CountAlone(r: Along, s: Process, c: nat)
    requires Follows(r)
    requires Shaped(s) && c < |s.pcs| && s.pcs[c].Made?
    ensures var target := s.pcs[c].target;
            target < |s.running| &&
            var t := At(s.(total := s.total + 1, running := s.running[target := s.running[target] + 1]), c,
                        Ready(s.pcs[c].maker, s.pcs[c].child, target));
            r(s, t) && Shaped(t)
  {
    assert PcOk(s, c);
    var target := s.pcs[c].target;
    Onward(r, s, c);
    var b := At(s.(total := s.total + 1), c, Counted(s.pcs[c].maker, s.pcs[c].child, target));
    assert Advanced(s, c) == b;
    Forward(r, s, b, c);
    var t := At(s.(total := s.total + 1, running := s.running[target := s.running[target] + 1]), c,
                Ready(s.pcs[c].maker, s.pcs[c].child, target));
    assert Advanced(b, c) == t;
  }

  lemma {:induction false} JoinAlone(r: Along, s: Process, c: nat)
    requires Follows(r)
    requires Shaped(s) && c < |s.pcs| && s.pcs[c].Filled?
    ensures r(s, JoinedAlone(s, c)) && Shaped(JoinedAlone(s, c))
  {
    assert PcOk(s, c);
    Onward(r, s, c);
    var a := Advanced(s, c);
    CountAlone(r, a, c);
    Then(r, s, a, JoinedAlone(s, c));
  }

  lemma {:induction false} FinishAlone(r: Along, s: Process, c: nat)
    requires Follows(r)
    requires Shaped(s) && c < |s.pcs| && s.pcs[c].Claimed?
    ensures r(s, Finished(s, c)) && Shaped(Finished(s, c))
  {
    Onward(r, s, c);
    var a := FilledAlone(s, c);
    assert Advanced(s, c) == a;
    JoinAlone(r, a, c);
    Then(r, s, a, JoinedAlone(a, c));
    Forward(r, s, JoinedAlone(a, c), c);
    PushedIsFinished(s, c);
  }

  lemma {:induction false} PushedIsFinished(s: Process, c: nat)
    requires Shaped(s) && c < |s.pcs| && s.pcs[c].Claimed? && Shaped(FilledAlone(s, c))
    requires Shaped(JoinedAlone(FilledAlone(s, c), c))
    ensures Advanced(JoinedAlone(FilledAlone(s, c), c), c) == Finished(s, c)
  {
    assert PcOk(s, c);
    var j, f := JoinedAlone(FilledAlone(s, c), c), Finished(s, c);
    var e := Advanced(j, c);
    assert e.nodes == f.nodes && e.lists == f.lists && e.pcs == f.pcs;
    assert e.running == f.running && e.cells == f.cells && e.dirs == f.dirs;
  }

  /** A creation that runs alone takes the lowest clear bit and pushes one thread. */
  function Created(s: Process, c: nat, maker: Thread, target: nat, spawn: bool): Process
    requires CanCreate(s, c, maker, target) && Shaped(Claiming(s, c, maker, target, spawn))
  {
    Finished(Claiming(s, c, maker, target, spawn), c)
  }

  lemma {:induction false} CreateAlone(r: Along, s: Process, c: nat, maker: Thread, target: nat, spawn: bool)
    requires Follows(r)
    requires CanCreate(s, c, maker, target)
    ensures Shaped(Claiming(s, c, maker, target, spawn))
    ensures var t := Created(s, c, maker, target, spawn); r(s, t) && Shaped(t)
  {
    ClaimAlone(r, s, c, maker, target, spawn);
    FinishAlone(r, Claiming(s, c, maker, target, spawn), c);
    Then(r, s, Claiming(s, c, maker, target, spawn), Created(s, c, maker, target, spawn));
  }

  // ----- a kill

  /** The threads of a list that name `tid` as their creator's. */
  function Named(list: seq<Thread>, tid: nat): set<nat> {
    if list == [] then {} else (if list[0].creatorTid == tid then {list[0].self} else {}) + Named(list[1..], tid)
  }

  function NamedFrom(lists: seq<seq<Thread>>, n: nat, tid: nat): set<nat>
    requires n <= |lists|
    decreases |lists| - n
  {
    if n == |lists| then {} else Named(lists[n], tid) + NamedFrom(lists, n + 1, tid)
  }

  lemma {:induction false} NamedExactly(list: seq<Thread>, tid: nat, id: nat)
    ensures id in Named(list, tid) <==> exists p :: 0 <= p < |list| && list[p].self == id && list[p].creatorTid == tid
  {
    if list != [] {
      NamedExactly(list[1..], tid, id);
      if id in Named(list[1..], tid) {
        var p :| 0 <= p < |list[1..]| && list[1..][p].self == id && list[1..][p].creatorTid == tid;
        assert list[p + 1].self == id;
      }
      assert list == [list[0]] + list[1..];
    }
  }

  lemma {:induction false} NamedFromExactly(lists: seq<seq<Thread>>, n: nat, tid: nat, id: nat)
    requires n <= |lists|
    ensures id in NamedFrom(lists, n, tid) <==> exists j :: n <= j < |lists| && id in Named(lists[j], tid)
    decreases |lists| - n
  {
    if n < |lists| { NamedFromExactly(lists, n + 1, tid, id); }
  }

  /** One block of the walk. */
  function Looked(s: Process, c: nat): Process
    requires Shaped(s) && c < |s.pcs| && s.pcs[c].Standing? && s.pcs[c].at != NIL
  {
    assert PcOk(s, c);
    var pc := s.pcs[c];
    var node := s.nodes[pc.at];
    At(s.(marked := s.marked + if node.thread.creatorTid == pc.victim.tid then {node.thread.self} else {}), c,
       Standing(pc.victim, pc.prev, pc.since, pc.upTo, node.next))
  }

  lemma {:induction false} LookAlone(r: Along, s: Process, c: nat)
    requires Follows(r)
    requires Shaped(s) && c < |s.pcs| && s.pcs[c].Standing? && s.pcs[c].at != NIL
    ensures r(s, Looked(s, c)) && Shaped(Looked(s, c))
  {
    assert PcOk(s, c);
    Onward(r, s, c);
    var a := Advanced(s, c);
    Forward(r, s, a, c);
    if a.pcs[c].Matching? {
      Forward(r, s, Advanced(a, c), c);
      assert Advanced(Advanced(a, c), c) == Looked(s, c);
    } else {
      assert s.marked + {} == s.marked;
      assert Advanced(a, c) == Looked(s, c);
    }
  }

  /** A walk through what is left of a list that nobody disturbs marks exactly the threads that name the victim. */
  lemma {:induction false} ListWalkAlone(r: Along, s: Process, c: nat, list: seq<Thread>)
    requires Follows(r)
    requires Shaped(s) && c < |s.pcs| && s.pcs[c].Standing? && s.pcs[c].at == HeadOf(list) && Linked(s.nodes, list)
    ensures var pc := s.pcs[c];
            var t := At(s.(marked := s.marked + Named(list, pc.victim.tid)), c,
                        Standing(pc.victim, pc.prev, pc.since, pc.upTo, NIL));
            r(s, t) && Shaped(t)
    decreases |list|
  {
    var pc := s.pcs[c];
    var t := At(s.(marked := s.marked + Named(list, pc.victim.tid)), c,
                Standing(pc.victim, pc.prev, pc.since, pc.upTo, NIL));
    if list == [] {
      assert s.marked + {} == s.marked;
      assert t == s && Stays(r, s);
    } else {
      LookAlone(r, s, c);
      var a := Looked(s, c);
      ListWalkAlone(r, a, c, list[1..]);
      var u := At(a.(marked := a.marked + Named(list[1..], pc.victim.tid)), c,
                  Standing(pc.victim, pc.prev, pc.since, pc.upTo, NIL));
      assert u.marked == t.marked;
      assert u.pcs == t.pcs;
      assert u == t;
      Then(r, s, a, t);
    }
  }

  /** The kill has been through the rest of the lists. */
  function AllWalked(s: Process, c: nat): Process
    requires c < |s.pcs| && s.pcs[c].Marking? && s.pcs[c].upTo <= |s.lists|
  {
    var pc := s.pcs[c];
    At(s.(marked := s.marked + NamedFrom(s.lists, pc.upTo, pc.victim.tid)), c,
       Marking(pc.victim, pc.prev, pc.since, |s.pcs|))
  }

  /** It has been through the next one. */
  function NextWalked(s: Process, c: nat): Process
    requires c < |s.pcs| && s.pcs[c].Marking? && s.pcs[c].upTo < |s.lists|
  {
    var pc := s.pcs[c];
    At(s.(marked := s.marked + Named(s.lists[pc.upTo], pc.victim.tid)), c,
       Marking(pc.victim, pc.prev, pc.since, pc.upTo + 1))
  }

  lemma {:induction false} NextWalkAlone(r: Along, s: Process, c: nat)
    requires Follows(r)
    requires Shaped(s) && c < |s.pcs| && s.pcs[c].Marking? && s.pcs[c].upTo < |s.lists|
    requires Linked(s.nodes, s.lists[s.pcs[c].upTo])
    ensures r(s, NextWalked(s, c)) && Shaped(NextWalked(s, c))
  {
    var pc := s.pcs[c];
    Onward(r, s, c);
    var a := At(s, c, Standing(pc.victim, pc.prev, pc.since, pc.upTo, HeadOf(s.lists[pc.upTo])));
    assert Advanced(s, c) == a;
    ListWalkAlone(r, a, c, s.lists[pc.upTo]);
    var b := At(s.(marked := s.marked + Named(s.lists[pc.upTo], pc.victim.tid)), c,
                Standing(pc.victim, pc.prev, pc.since, pc.upTo, NIL));
    assert b == At(a.(marked := b.marked), c, b.pcs[c]);
    Then(r, s, a, b);
    Forward(r, s, b, c);
    assert Advanced(b, c) == NextWalked(s, c);
  }

  lemma {:induction false} ListsWalkAlone(r: Along, s: Process, c: nat)
    requires Follows(r)
    requires Shaped(s) && c < |s.pcs| && s.pcs[c].Marking? && s.pcs[c].upTo <= |s.lists|
    requires forall j :: 0 <= j < |s.lists| ==> Linked(s.nodes, s.lists[j])
    ensures r(s, AllWalked(s, c)) && Shaped(AllWalked(s, c))
    decreases |s.lists| - s.pcs[c].upTo
  {
    if s.pcs[c].upTo == |s.pcs| {
      assert s.marked + {} == s.marked;
      assert AllWalked(s, c) == s && Stays(r, s);
    } else {
      NextWalkAlone(r, s, c);
      var t := NextWalked(s, c);
      ListsWalkAlone(r, t, c);
      assert AllWalked(t, c).marked == AllWalked(s, c).marked;
      assert AllWalked(t, c) == AllWalked(s, c);
      Then(r, s, t, AllWalked(s, c));
    }
  }

  /** The process after a kill that nobody disturbed has unlinked its victim. */
  function Unlinking(s: Process, c: nat, x: Thread): Process
    requires c < |s.pcs| && c < |s.lists|
  {
    At(s.(marked := s.marked + NamedFrom(s.lists, 0, x.tid), lists := s.lists[c := Without(s.lists[c], x)],
          nodes := Bridged(s.nodes, s.lists[c], x)), c, Unlinked(x.tid, x))
  }

  predicate CanKill(s: Process, c: nat, x: Thread) {
    && Shaped(s) && c < |s.pcs| && s.pcs[c].Idle? && x in s.lists[c]
    && (forall j :: 0 <= j < |s.lists| ==> Linked(s.nodes, s.lists[j]))
  }

  /** The same just before that. */
  function Walked(s: Process, c: nat, x: Thread): Process
    requires c < |s.pcs| && c < |s.lists|
  {
    At(s.(marked := s.marked + NamedFrom(s.lists, 0, x.tid)), c,
       Marking(x, Behind(s.lists[c], x), s.serial, |s.pcs|))
  }

  lemma {:induction false} WalkAlone(r: Along, s: Process, c: nat, x: Thread)
    requires Follows(r) && CanKill(s, c, x)
    ensures r(s, Walked(s, c, x)) && Shaped(Walked(s, c, x))
  {
    First(r, s, BeginKill(c, x));
    var prev := Behind(s.lists[c], x);
    var a := At(s, c, Marking(x, prev, s.serial, 0));
    assert Apply(s, BeginKill(c, x)) == a;
    ListsWalkAlone(r, a, c);
    var b := At(a.(marked := a.marked + NamedFrom(a.lists, 0, x.tid)), c, Marking(x, prev, s.serial, |a.pcs|));
    assert b == Walked(s, c, x);
    Then(r, s, a, b);
  }

  lemma {:induction false} UnlinkAlone(r: Along, s: Process, c: nat, x: Thread)
    requires Follows(r) && CanKill(s, c, x)
    ensures r(s, Unlinking(s, c, x)) && Shaped(Unlinking(s, c, x))
  {
    WalkAlone(r, s, c, x);
    var b := Walked(s, c, x);
    Forward(r, s, b, c);
    WalkedUnlinks(s, c, x);
  }

  lemma {:induction false} WalkedUnlinks(s: Process, c: nat, x: Thread)
    requires CanKill(s, c, x) && Shaped(Walked(s, c, x))
    ensures Advanced(Walked(s, c, x), c) == Unlinking(s, c, x)
  {
    assert PcOk(Walked(s, c, x), c);
    if Behind(s.lists[c], x) == NIL { HeadHasNobodyBehind(s.lists[c], x); }
  }

  /** The same when it has loaded the bitmap. */
  function Loading(s: Process, c: nat, x: Thread): Process
    requires c < |s.pcs| && c < |s.lists| && c < |s.running| && c < |s.bits|
  {
    var t := Unlinking(s, c, x);
    At(t.(running := s.running[c := s.running[c] - 1], total := s.total - 1), c, TidLoaded(x.tid, x, s.bits[c]))
  }

  lemma {:induction false} LoadAlone(r: Along, s: Process, c: nat, x: Thread)
    requires Follows(r) && CanKill(s, c, x)
    ensures r(s, Loading(s, c, x)) && Shaped(Loading(s, c, x))
  {
    UnlinkAlone(r, s, c, x);
    var a := Unlinking(s, c, x);
    Forward(r, s, a, c);
    Forward(r, s, Advanced(a, c), c);
    Forward(r, s, Advanced(Advanced(a, c), c), c);
    assert Advanced(Advanced(Advanced(a, c), c), c) == Loading(s, c, x);
  }

  /** The same when it has given back the thread's ID. */
  function Fading(s: Process, c: nat, x: Thread): Process
    requires c < |s.pcs| && c < |s.lists| && c < |s.running| && c < |s.bits| && BitOf(x.tid) < |s.bits[c]|
  {
    At(Loading(s, c, x).(bits := s.bits[c := s.bits[c][BitOf(x.tid) := false]]), c, TidFreed(x))
  }

  lemma {:induction false} FadeAlone(r: Along, s: Process, c: nat, x: Thread)
    requires Follows(r) && CanKill(s, c, x)
    ensures c < |s.bits| && BitOf(x.tid) < |s.bits[c]|
    ensures r(s, Fading(s, c, x)) && Shaped(Fading(s, c, x))
  {
    assert BitsOk(s, c);
    LoadAlone(r, s, c, x);
    var a := Loading(s, c, x);
    First(r, a, Advance(c));
    assert Advanced(a, c) == Fading(s, c, x);
    Then(r, s, a, Fading(s, c, x));
  }

  /** The rest of a kill: the counter is lowered, the directory freed if nobody uses it, the block given back. */
  function Gone(s: Process, c: nat): Process
    requires Shaped(s) && c < |s.pcs| && s.pcs[c].TidFreed?
  {
    assert PcOk(s, c);
    var x := s.pcs[c].victim;
    var d := s.dirs[x.dir];
    var left := s.cells[d.cell] - 1;
    At(s.(cells := s.cells[d.cell := left],
          dirs := if left == 0 then s.dirs[x.dir := d.(frees := d.frees + 1)] else s.dirs,
          cellPool := if left == 0 then s.cellPool + [d.cell] else s.cellPool,
          nodePool := s.nodePool + [x.node]), c, Idle)
  }

  /** The counter has been read, and the directory freed if it was zero. */
  function CounterRead(s: Process, c: nat): Process
    requires Shaped(s) && c < |s.pcs| && s.pcs[c].Released?
  {
    assert PcOk(s, c);
    var x := s.pcs[c].victim;
    var d := s.dirs[x.dir];
    if s.cells[d.cell] == 0
    then At(s.(dirs := s.dirs[x.dir := d.(frees := d.frees + 1)], cellPool := s.cellPool + [d.cell]), c, Checked(x))
    else At(s, c, Checked(x))
  }

  lemma {:induction false} ReadCounter(r: Along, s: Process, c: nat)
    requires Follows(r) && Shaped(s) && c < |s.pcs| && s.pcs[c].Released?
    ensures r(s, CounterRead(s, c)) && Shaped(CounterRead(s, c))
  {
    Onward(r, s, c);
    var x := s.pcs[c].victim;
    assert PcOk(s, c);
    if s.cells[s.dirs[x.dir].cell] == 0 {
      var a := At(s, c, Dropping(x));
      assert Advanced(s, c) == a;
      Forward(r, s, a, c);
      assert Advanced(a, c) == CounterRead(s, c);
    } else {
      assert Advanced(s, c) == CounterRead(s, c);
    }
  }

  /** The thread has left its directory. */
  function CounterLowered(s: Process, c: nat): Process
    requires Shaped(s) && c < |s.pcs| && s.pcs[c].TidFreed?
  {
    assert PcOk(s, c);
    var cell := s.dirs[s.pcs[c].victim.dir].cell;
    At(s.(cells := s.cells[cell := s.cells[cell] - 1]), c, Released(s.pcs[c].victim))
  }

  lemma {:induction false} CountersAlone(r: Along, s: Process, c: nat)
    requires Follows(r) && Shaped(s) && c < |s.pcs| && s.pcs[c].TidFreed?
    ensures Shaped(CounterLowered(s, c))
    ensures var t := CounterRead(CounterLowered(s, c), c); r(s, t) && Shaped(t)
  {
    Onward(r, s, c);
    var a := CounterLowered(s, c);
    assert Advanced(s, c) == a;
    ReadCounter(r, a, c);
    Then(r, s, a, CounterRead(a, c));
  }

  lemma {:induction false} ReadThenGone(s: Process, c: nat)
    requires Shaped(s) && c < |s.pcs| && s.pcs[c].TidFreed? && Shaped(CounterLowered(s, c))
    requires Shaped(CounterRead(CounterLowered(s, c), c))
    ensures var t := CounterRead(CounterLowered(s, c), c); t.pcs[c].Checked? && Advanced(t, c) == Gone(s, c)
  {
    assert PcOk(s, c);
    var t := CounterRead(CounterLowered(s, c), c);
    var e, g := Advanced(t, c), Gone(s, c);
    assert e.pcs == g.pcs && e.cells == g.cells && e.dirs == g.dirs && e.cellPool == g.cellPool;
  }

  lemma {:induction false} GoneAlone(r: Along, s: Process, c: nat)
    requires Follows(r) && Shaped(s) && c < |s.pcs| && s.pcs[c].TidFreed?
    ensures r(s, Gone(s, c)) && Shaped(Gone(s, c))
  {
    CountersAlone(r, s, c);
    ReadThenGone(s, c);
    Forward(r, s, CounterRead(CounterLowered(s, c), c), c);
  }

  function Killed(s: Process, c: nat, x: Thread): Process
    requires c < |s.pcs| && c < |s.lists| && c < |s.running| && c < |s.bits| && BitOf(x.tid) < |s.bits[c]|
    requires Shaped(Fading(s, c, x))
  {
    Gone(Fading(s, c, x), c)
  }

  /** A kill that runs alone takes the victim out of its list, gives back what it held, and marks exactly the
      listed threads that name its TID as their creator's. */
  lemma {:induction false} KillAlone(r: Along, s: Process, c: nat, x: Thread)
    requires Follows(r) && CanKill(s, c, x)
    ensures c < |s.bits| && BitOf(x.tid) < |s.bits[c]| && Shaped(Fading(s, c, x))
    ensures r(s, Killed(s, c, x)) && Shaped(Killed(s, c, x))
    ensures forall id :: id in Killed(s, c, x).marked <==>
              id in s.marked || exists j :: 0 <= j < |s.lists| && id in Named(s.lists[j], x.tid)
  {
    FadeAlone(r, s, c, x);
    GoneAlone(r, Fading(s, c, x), c);
    Then(r, s, Fading(s, c, x), Killed(s, c, x));
    forall id: nat ensures id in NamedFrom(s.lists, 0, x.tid) <==>
                           exists j :: 0 <= j < |s.lists| && id in Named(s.lists[j], x.tid)
    {
      NamedFromExactly(s.lists, 0, x.tid, id);
    }
  }

  // ----- the least such relation: runs

  /** `n` steps of the relation lead from `s` to `t`. */
  ghost predicate Within<T(!new)>(r: (T, T) -> bool, s: T, t: T, n: nat)
    decreases n
  {
    if n == 0 then t == s else exists u :: Within(r, s, u, n - 1) && r(u, t)
  }

  lemma {:induction false} WithinJoins<T(!new)>(r: (T, T) -> bool, s: T, t: T, u: T, n: nat, m: nat)
    requires Within(r, s, t, n) && Within(r, t, u, m)
    ensures Within(r, s, u, n + m)
    decreases m
  {
    if m > 0 {
      var v :| Within(r, t, v, m - 1) && r(v, u);
      WithinJoins(r, s, t, v, n, m - 1);
    }
  }

  lemma {:induction false} WithinOne<T(!new)>(r: (T, T) -> bool, s: T, t: T)
    requires r(s, t)
    ensures Within(r, s, t, 1)
  {
    assert Within(r, s, s, 0);
  }

  lemma {:induction false} WithinKeeps<T(!new)>(r: (T, T) -> bool, p: T -> bool, s: T, t: T, n: nat)
    requires p(s) && Within(r, s, t, n)
    requires forall u, v :: p(u) && r(u, v) ==> p(v)
    ensures p(t)
    decreases n
  {
    if n > 0 {
      var u :| Within(r, s, u, n - 1) && r(u, t);
      WithinKeeps(r, p, s, u, n - 1);
    }
  }

  ghost predicate FreshNext(s: Process, t: Process) {
    exists step :: FreshBy(s, step, t)
  }

  /** A run in which no store of a bitmap is overtaken leads from one state to the other. */
  ghost predicate Fresh(s: Process, t: Process) {
    exists n: nat :: Within(FreshNext, s, t, n)
  }

  lemma {:induction false} FreshJoins(s: Process, t: Process, u: Process)
    requires Fresh(s, t) && Fresh(t, u)
    ensures Fresh(s, u)
  {
    var n: nat :| Within(FreshNext, s, t, n);
    var m: nat :| Within(FreshNext, t, u, m);
    WithinJoins(FreshNext, s, t, u, n, m);
  }

  lemma {:induction false} FreshKeepsHeap(s: Process, t: Process)
    requires HeapOk(s) && Fresh(s, t)
    ensures HeapOk(t)
  {
    var n: nat :| Within(FreshNext, s, t, n);
    forall u, v | HeapOk(u) && FreshNext(u, v)
      ensures HeapOk(v)
    {
      var step :| FreshBy(u, step, v);
      StepKeepsHeap(u, step);
    }
    WithinKeeps(FreshNext, HeapOk, s, t, n);
  }

  lemma {:induction false} FreshKeepsBooks(s: Process, t: Process)
    requires Booked(s) && Fresh(s, t)
    ensures Booked(t)
  {
    var n: nat :| Within(FreshNext, s, t, n);
    forall u, v | Booked(u) && FreshNext(u, v)
      ensures Booked(v)
    {
      var step :| FreshBy(u, step, v);
      StepKeepsBooks(u, step);
    }
    WithinKeeps(FreshNext, Booked, s, t, n);
  }

  lemma {:induction false} FreshFollows()
    ensures Follows(Fresh)
  {
    forall s, step, t | FreshBy(s, step, t) ensures Fresh(s, t) { WithinOne(FreshNext, s, t); }
    forall s, t, u ensures Joins(Fresh, s, t, u) { if Fresh(s, t) && Fresh(t, u) { FreshJoins(s, t, u); } }
    forall s ensures Stays(Fresh, s) { assert Within(FreshNext, s, s, 0); }
    forall s, t
      ensures Keeps(Fresh, s, t)
    {
      if Fresh(s, t) {
        if HeapOk(s) { FreshKeepsHeap(s, t); }
        if Booked(s) { FreshKeepsBooks(s, t); }
      }
    }
  }

  lemma {:induction false} StoresExtend(s: Process, steps: seq<Step>, step: Step)
    requires CanRun(s, steps) && StoresFresh(s, steps) && Shaped(Run(s, steps))
    requires Enabled(Run(s, steps), step) && !Overtaken(Run(s, steps), step)
    requires CanRun(s, steps + [step])
    ensures StoresFresh(s, steps + [step])
    decreases |steps|
  {
    if steps == [] {
      assert (steps + [step])[1..] == [];
    } else {
      assert (steps + [step])[1..] == steps[1..] + [step];
      StoresExtend(Apply(s, steps[0]), steps[1..], step);
    }
  }

  ghost predicate HasRun(s: Process, t: Process) {
    exists steps :: CanRun(s, steps) && StoresFresh(s, steps) && Run(s, steps) == t
  }

  lemma {:induction false} OneMore(s: Process, u: Process, t: Process)
    requires Shaped(s) && HasRun(s, u) && FreshNext(u, t)
    ensures HasRun(s, t)
  {
    var steps :| CanRun(s, steps) && StoresFresh(s, steps) && Run(s, steps) == u;
    var step :| FreshBy(u, step, t);
    RunExtends(s, steps, step);
    StoresExtend(s, steps, step);
  }

  /** Such a relation is a run. */
  lemma {:induction false} FreshIsRun(s: Process, t: Process)
    requires Shaped(s) && Fresh(s, t)
    ensures HasRun(s, t)
  {
    var n: nat :| Within(FreshNext, s, t, n);
    assert CanRun(s, []) && StoresFresh(s, []) && Run(s, []) == s;
    forall u, v | HasRun(s, u) && FreshNext(u, v) ensures HasRun(s, v) { OneMore(s, u, v); }
    WithinKeeps(FreshNext, v => HasRun(s, v), s, t, n);
  }
}
