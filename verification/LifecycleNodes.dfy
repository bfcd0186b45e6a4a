/** The blocks that threads are kept in: every block is free or holds exactly one thread, and the pointers between
    the blocks are the lists.
    Source: source/kernel/hardware/devices/cpu/scheduler.c:455-456, 488-500, 1061-1074, 1107;
    source/kernel/hardware/devices/memory/memory_allocators.c:775-835 */
module LifecycleNodes {
  import opened Lifecycle
  import opened LifecycleBooks
  import opened LifecycleTids

  predicate Given(s: Process, n: nat) {
    n < |s.nodes| && n !in s.nodePool
  }

  predicate BlockBooked(s: Process, n: nat) {
    Total(Block(n), s) == if Given(s, n) then 1 else 0
  }

  predicate Distinct(pool: seq<nat>) {
    forall i, j :: 0 <= i < j < |pool| ==> pool[i] != pool[j]
  }

  /** Following the pointers from the first block of the list meets its threads in order, and ends at NULL. */
  predicate Linked(nodes: seq<Node>, list: seq<Thread>) {
    list == [] ||
    (list[0].node < |nodes| && nodes[list[0].node] == Node(list[0], HeadOf(list[1..])) && Linked(nodes, list[1..]))
  }

  predicate Carries(pc: Pc) {
    pc.Filled? || pc.Made? || pc.Counted? || pc.Ready?
  }

  /** A thread that is not listed yet is in its block, and its `next` is NULL. */
  predicate ChildPlaced(s: Process, c: nat)
    requires c < |s.pcs|
  {
    Carries(s.pcs[c]) ==>
      s.pcs[c].child.node < |s.nodes| && s.nodes[s.pcs[c].child.node] == Node(s.pcs[c].child, NIL)
  }

  /** The block a kill found before its victim is still the one before it. */
  predicate PrevOk(s: Process, c: nat)
    requires c < |s.pcs| == |s.lists|
  {
    Walking(s.pcs[c]) ==> s.pcs[c].prev == NIL || s.pcs[c].prev == Behind(s.lists[c], s.pcs[c].victim)
  }

  ghost predicate HeapOk(s: Process) {
    && Shaped(s)
    && Distinct(s.nodePool)
    && (forall n: nat :: BlockBooked(s, n))
    && (forall c :: 0 <= c < |s.lists| ==> Linked(s.nodes, s.lists[c]))
    && (forall c :: 0 <= c < |s.pcs| ==> ChildPlaced(s, c))
    && (forall c :: 0 <= c < |s.pcs| ==> PrevOk(s, c))
  }

  // ----- who holds a block

  lemma {:induction false} ListedHolds(s: Process, c: nat, x: Thread)
    requires c < |s.lists| && x in s.lists[c]
    ensures OverLists(Block(x.node), s.lists, |s.lists|) >= 1
  {
    var p :| 0 <= p < |s.lists[c]| && s.lists[c][p] == x;
    ListedWeight(Block(x.node), c, s.lists[c], p);
    OverOneList(Block(x.node), s.lists, c, |s.lists|);
  }

  lemma {:induction false} UnheldIsElsewhere(s: Process, n: nat, c: nat, x: Thread)
    requires c < |s.lists| && x in s.lists[c] && OverLists(Block(n), s.lists, |s.lists|) == 0
    ensures x.node != n
  {
    if x.node == n { ListedHolds(s, c, x); }
  }

  /** A block that an unfinished operation holds has no listed thread in it. */
  lemma {:induction false} CarriedIsUnlisted(s: Process, c: nat, n: nat)
    requires HeapOk(s) && c < |s.pcs| && PcWeight(Block(n), c, s.pcs[c]) == 1
    ensures OverLists(Block(n), s.lists, |s.lists|) == 0
    ensures forall d :: 0 <= d < |s.pcs| && d != c ==> PcWeight(Block(n), d, s.pcs[d]) == 0
  {
    assert BlockBooked(s, n);
    HeldByPc(Block(n), s.pcs, c, |s.pcs|);
    forall d | 0 <= d < |s.pcs| && d != c
      ensures PcWeight(Block(n), d, s.pcs[d]) == 0
    {
      TwoPcs(Block(n), s.pcs, if c < d then c else d, if c < d then d else c, |s.pcs|);
    }
  }

  lemma {:induction false} TwoPcs(m: Measure, pcs: seq<Pc>, c: nat, d: nat, n: nat)
    requires c < d < n <= |pcs|
    ensures OverPcs(m, pcs, n) >= PcWeight(m, c, pcs[c]) + PcWeight(m, d, pcs[d])
  {
    if d < n - 1 { TwoPcs(m, pcs, c, d, n - 1); } else { HeldByPc(m, pcs, c, n - 1); }
  }

  /** A free block, or one that does not exist yet, holds nobody. */
  lemma {:induction false} TopIsUnheld(s: Process)
    requires HeapOk(s)
    ensures var n := Top(s.nodePool, |s.nodes|);
            && Total(Block(n), s) == 0 && n <= |s.nodes| && n !in Popped(s.nodePool)
            && (forall k: nat :: k != n ==> (k in s.nodePool <==> k in Popped(s.nodePool)))
    ensures Distinct(Popped(s.nodePool))
  {
    var pool := s.nodePool;
    var n := Top(pool, |s.nodes|);
    assert BlockBooked(s, n);
    if pool != [] {
      assert n in pool;
      assert pool == Popped(pool) + [n];
    }
  }

  lemma {:induction false} CarriedIsHeld(s: Process, c: nat)
    requires c < |s.pcs| && Carries(s.pcs[c])
    ensures PcWeight(Block(s.pcs[c].child.node), c, s.pcs[c]) == 1
  {
  }

  // ----- pointers survive changes elsewhere

  lemma {:induction false} LinkedKept(nodes: seq<Node>, after: seq<Node>, list: seq<Thread>)
    requires Linked(nodes, list) && |nodes| <= |after|
    requires forall x :: x in list && x.node < |nodes| ==> after[x.node] == nodes[x.node]
    ensures Linked(after, list)
  {
    if list != [] {
      assert list[0] in list;
      forall x | x in list[1..] ensures x in list {}
      LinkedKept(nodes, after, list[1..]);
    }
  }

  lemma {:induction false} ListsKept(s: Process, nodes: seq<Node>, n: nat)
    requires HeapOk(s) && |s.nodes| <= |nodes| && OverLists(Block(n), s.lists, |s.lists|) == 0
    requires forall k :: 0 <= k < |s.nodes| && k != n ==> nodes[k] == s.nodes[k]
    ensures forall c :: 0 <= c < |s.lists| ==> Linked(nodes, s.lists[c])
  {
    forall c | 0 <= c < |s.lists|
      ensures Linked(nodes, s.lists[c])
    {
      forall x | x in s.lists[c] ensures x.node != n { UnheldIsElsewhere(s, n, c, x); }
      LinkedKept(s.nodes, nodes, s.lists[c]);
    }
  }

  // ----- unlinking

  predicate NodesDiffer(list: seq<Thread>) {
    forall i, j :: 0 <= i < j < |list| ==> list[i].node != list[j].node
  }

  lemma {:induction false} ListNodesDiffer(s: Process, c: nat)
    requires HeapOk(s) && c < |s.lists|
    ensures NodesDiffer(s.lists[c])
  {
    var list := s.lists[c];
    forall i, j | 0 <= i < j < |list|
      ensures list[i].node != list[j].node
    {
      if list[i].node == list[j].node {
        assert BlockBooked(s, list[i].node);
        CountedOnce(Block(list[i].node), s, c, i, c, j);
      }
    }
  }

  /** What unlinking stores. */
  function Bridged(nodes: seq<Node>, list: seq<Thread>, x: Thread): seq<Node> {
    var pred := Behind(list, x);
    var after := if x.node < |nodes| then nodes[x.node].next else NIL;
    if 0 <= pred < |nodes| then nodes[pred := nodes[pred].(next := after)] else nodes
  }

  /** Redirecting one pointer takes the thread out of the list. */
  lemma {:induction false} UnlinkLinked(nodes: seq<Node>, list: seq<Thread>, x: Thread)
    requires Linked(nodes, list) && NodesDiffer(list) && x in list
    ensures Linked(Bridged(nodes, list, x), Without(list, x))
    decreases |list|
  {
    var rest := list[1..];
    var after := Bridged(nodes, list, x);
    if list[0] != x {
      assert x in rest;
      forall y | y in rest ensures y.node != list[0].node {
        var i :| 0 <= i < |rest| && rest[i] == y;
        assert list[i + 1] == y;
      }
      assert list[1] == rest[0] && list[1] in rest;
      if list[1] == x {
        assert Without(list, x) == [list[0]] + rest[1..];
        forall y | y in rest[1..] ensures y in rest {}
        LinkedKept(nodes, after, rest[1..]);
        assert ([list[0]] + rest[1..])[1..] == rest[1..];
      } else {
        assert NodesDiffer(rest) by {
          forall i, j | 0 <= i < j < |rest| ensures rest[i].node != rest[j].node {
            assert list[i + 1].node != list[j + 1].node;
          }
        }
        UnlinkLinked(nodes, rest, x);
        BehindIsInList(rest, x);
        assert after == Bridged(nodes, rest, x);
        assert Without(list, x)[1..] == Without(rest, x);
        assert HeadOf(Without(rest, x)) == list[1].node;
      }
    }
  }

  lemma {:induction false} HeadHasNobodyBehind(list: seq<Thread>, x: Thread)
    requires x in list && Behind(list, x) == NIL
    ensures list[0] == x
  {
    if list[0] != x {
      assert list == [list[0]] + list[1..];
      assert x in list[1..];
      if list[1] != x { HeadHasNobodyBehind(list[1..], x); }
    }
  }

  /** The pointer that the kill redirects is the one that leads to the victim. */
  lemma {:induction false} UnlinkBridges(s: Process, c: nat)
    requires HeapOk(s) && c < |s.pcs| && Walking(s.pcs[c]) && WalkStep(s, c).pcs[c].Unlinked?
    ensures var t := WalkStep(s, c);
            var victim := s.pcs[c].victim;
            && victim in s.lists[c] && s.pcs[c].prev == Behind(s.lists[c], victim)
            && t.nodes == Bridged(s.nodes, s.lists[c], victim) && t.nodePool == s.nodePool
            && t.lists == s.lists[c := Without(s.lists[c], victim)]
            && |t.pcs| == |s.pcs| && t.pcs == s.pcs[c := Unlinked(victim.tid, victim)] && t.marked == s.marked
  {
    assert PcOk(s, c) && PrevOk(s, c);
  }

  /** A thread's block in the list it is taken from is in no other list and carries no new thread. */
  lemma {:induction false} ShorterKeepsPlaces(s: Process, nodes: seq<Node>, c: nat, x: Thread, d: nat)
    requires HeapOk(s) && c < |s.pcs| && x in s.lists[c] && nodes == Bridged(s.nodes, s.lists[c], x) && d < |s.pcs|
    ensures d != c ==> Linked(nodes, s.lists[d])
    ensures Carries(s.pcs[d]) ==>
              s.pcs[d].child.node < |nodes| && nodes[s.pcs[d].child.node] == Node(s.pcs[d].child, NIL)
  {
    var list := s.lists[c];
    assert ChildPlaced(s, d);
    BehindIsInList(list, x);
    if Behind(list, x) != NIL {
      var i :| 0 <= i < |list| && list[i].node == Behind(list, x) && list[i] != x;
      ElsewhereUntouched(s, c, i, d);
    }
    if d != c {
      LinkedKept(s.nodes, nodes, s.lists[d]);
    }
  }

  lemma {:induction false} ShorterKeepsHeap(s: Process, t: Process, c: nat, x: Thread)
    requires HeapOk(s) && c < |s.pcs| && x in s.lists[c] && Shaped(t)
    requires t.nodes == Bridged(s.nodes, s.lists[c], x) && t.nodePool == s.nodePool
    requires t.lists == s.lists[c := Without(s.lists[c], x)]
    requires |t.pcs| == |s.pcs| && t.pcs == s.pcs[c := t.pcs[c]] && !Carries(t.pcs[c]) && !Walking(t.pcs[c])
    requires forall n: nat :: Total(Block(n), t) == Total(Block(n), s)
    ensures HeapOk(t)
  {
    forall n: nat ensures BlockBooked(t, n) { assert BlockBooked(s, n); }
    ListNodesDiffer(s, c);
    UnlinkLinked(s.nodes, s.lists[c], x);
    forall d | 0 <= d < |s.pcs|
      ensures Linked(t.nodes, t.lists[d]) && ChildPlaced(t, d) && PrevOk(t, d)
    {
      assert PrevOk(s, d);
      ShorterKeepsPlaces(s, t.nodes, c, x, d);
    }
  }

  lemma {:induction false} UnlinkKeepsHeap(s: Process, c: nat)
    requires HeapOk(s) && c < |s.pcs| && Walking(s.pcs[c]) && WalkStep(s, c).pcs[c].Unlinked?
    ensures HeapOk(WalkStep(s, c))
  {
    UnlinkKeepsShape(s, c);
    UnlinkBridges(s, c);
    var t := WalkStep(s, c);
    forall n: nat ensures Total(Block(n), t) == Total(Block(n), s) { WalkChange(Block(n), s, c); }
    ShorterKeepsHeap(s, t, c, s.pcs[c].victim);
  }

  lemma {:induction false} ExchangeKeepsHeap(s: Process, c: nat)
    requires HeapOk(s) && c < |s.pcs| && s.pcs[c].Exchanging? && ExchangeStep(s, c).pcs[c].Unlinked?
    ensures HeapOk(ExchangeStep(s, c))
  {
    StepKeepsShape(s, Advance(c));
    assert PcOk(s, c);
    forall n: nat { ExchangeChange(Block(n), s, c); }
    ShorterKeepsHeap(s, ExchangeStep(s, c), c, s.pcs[c].current);
  }

  /** A listed thread's block is nobody else's. */
  lemma {:induction false} ElsewhereUntouched(s: Process, c: nat, i: nat, d: nat)
    requires HeapOk(s) && c < |s.lists| && i < |s.lists[c]| && d < |s.lists|
    ensures d != c ==> forall x :: x in s.lists[d] ==> x.node != s.lists[c][i].node
    ensures Carries(s.pcs[d]) ==> s.pcs[d].child.node != s.lists[c][i].node
  {
    var n := s.lists[c][i].node;
    assert BlockBooked(s, n);
    forall x | x in s.lists[d] && d != c
      ensures x.node != n
    {
      var q :| 0 <= q < |s.lists[d]| && s.lists[d][q] == x;
      if x.node == n { CountedOnce(Block(n), s, c, i, d, q); }
    }
    if Carries(s.pcs[d]) && s.pcs[d].child.node == n {
      CarriedIsHeld(s, d);
      CarriedIsUnlisted(s, d, n);
      ListedHolds(s, c, s.lists[c][i]);
    }
  }

  // ----- the other steps

  /** While the lists stay as they are, a kill under way still has the block before its victim. */
  lemma {:induction false} PrevsKept(s: Process, t: Process, c: nat)
    requires HeapOk(s) && c < |s.pcs| && t.lists == s.lists && |t.pcs| == |s.pcs| && t.pcs == s.pcs[c := t.pcs[c]]
    requires PrevOk(t, c)
    ensures forall d :: 0 <= d < |t.pcs| ==> PrevOk(t, d)
  {
    forall d | 0 <= d < |t.pcs|
      ensures PrevOk(t, d)
    {
      assert PrevOk(s, d);
    }
  }

  lemma {:induction false} FillKeepsHeap(s: Process, c: nat)
    requires HeapOk(s) && c < |s.pcs| && s.pcs[c].Claimed?
    ensures HeapOk(CreateStep(s, c))
  {
    var t := CreateStep(s, c);
    StepKeepsShape(s, Advance(c));
    TopIsUnheld(s);
    var n := Top(s.nodePool, |s.nodes|);
    forall k: nat ensures BlockBooked(t, k) {
      assert BlockBooked(s, k);
      FillChange(Block(k), s, c);
      assert k != n ==> (k in s.nodePool <==> k in t.nodePool);
    }
    ListsKept(s, t.nodes, n);
    PrevsKept(s, t, c);
    forall d | 0 <= d < |s.pcs|
      ensures ChildPlaced(t, d)
    {
      assert ChildPlaced(s, d);
      if d != c && Carries(s.pcs[d]) {
        CarriedIsHeld(s, d);
        HeldByPc(Block(s.pcs[d].child.node), s.pcs, d, |s.pcs|);
      }
    }
  }

  lemma {:induction false} PushKeepsPrev(s: Process, c: nat, d: nat)
    requires HeapOk(s) && c < |s.pcs| && d < |s.pcs| && s.pcs[c].Ready?
    ensures |CreateStep(s, c).pcs| == |CreateStep(s, c).lists| == |s.pcs| && PrevOk(CreateStep(s, c), d)
  {
    assert PrevOk(s, d) && PcOk(s, d) && PcOk(s, c);
    var target, child := s.pcs[c].target, s.pcs[c].child;
    if d == target && d != c && Walking(s.pcs[d]) {
      CarriedIsHeld(s, c);
      CarriedIsUnlisted(s, c, child.node);
      UnheldIsElsewhere(s, child.node, d, s.pcs[d].victim);
      assert ([child] + s.lists[d])[1..] == s.lists[d];
    }
  }

  lemma {:induction false} PushKeepsHeap(s: Process, c: nat)
    requires HeapOk(s) && c < |s.pcs| && s.pcs[c].Ready?
    ensures HeapOk(CreateStep(s, c))
  {
    var t := CreateStep(s, c);
    StepKeepsShape(s, Advance(c));
    assert PcOk(s, c) && ChildPlaced(s, c);
    var target, child := s.pcs[c].target, s.pcs[c].child;
    CarriedIsHeld(s, c);
    CarriedIsUnlisted(s, c, child.node);
    ListsKept(s, t.nodes, child.node);
    forall n: nat ensures BlockBooked(t, n) { assert BlockBooked(s, n); PushChange(Block(n), s, c); }
    assert t.lists[target][1..] == s.lists[target];
    forall d | 0 <= d < |s.pcs|
      ensures ChildPlaced(t, d) && Linked(t.nodes, t.lists[d]) && PrevOk(t, d)
    {
      PushKeepsPrev(s, c, d);
      assert ChildPlaced(s, d) && Linked(t.nodes, s.lists[d]);
      if d != c && Carries(s.pcs[d]) {
        assert PcWeight(Block(child.node), d, s.pcs[d]) == 0;
      }
    }
  }

  lemma {:induction false} FreeKeepsHeap(s: Process, c: nat)
    requires HeapOk(s) && c < |s.pcs| && s.pcs[c].Checked?
    ensures HeapOk(ReleaseStep(s, c))
  {
    var t := ReleaseStep(s, c);
    StepKeepsShape(s, Advance(c));
    var n := s.pcs[c].victim.node;
    assert BlockBooked(s, n);
    HeldByPc(Block(n), s.pcs, c, |s.pcs|);
    forall k: nat ensures BlockBooked(t, k) { assert BlockBooked(s, k); LeaveChange(Block(k), s, c); }
    PrevsKept(s, t, c);
    forall d | 0 <= d < |s.pcs|
      ensures ChildPlaced(t, d)
    {
      assert ChildPlaced(s, d);
    }
  }

  /** A step that leaves the lists and the blocks alone. */
  lemma {:induction false} AsideKeepsHeap(s: Process, t: Process, c: nat)
    requires HeapOk(s) && Aside(s, t, c) && Shaped(t) && ChildPlaced(t, c) && PrevOk(t, c)
    requires forall n: nat :: Total(Block(n), t) == Total(Block(n), s)
    ensures HeapOk(t)
  {
    forall n: nat ensures BlockBooked(t, n) { assert BlockBooked(s, n); }
    PrevsKept(s, t, c);
    forall d | 0 <= d < |t.pcs|
      ensures ChildPlaced(t, d)
    {
      assert ChildPlaced(s, d);
    }
  }

  lemma {:induction false} CreateKeepsHeap(s: Process, c: nat)
    requires HeapOk(s) && c < |s.pcs| && Creating(s.pcs[c]) && !s.pcs[c].Claimed? && !s.pcs[c].Ready?
    ensures HeapOk(CreateStep(s, c))
  {
    StepKeepsShape(s, Advance(c));
    CreateAside(s, c);
    assert ChildPlaced(s, c);
    forall n: nat { CreationChange(Block(n), s, c); }
    AsideKeepsHeap(s, CreateStep(s, c), c);
  }

  lemma {:induction false} WalkKeepsHeap(s: Process, c: nat)
    requires HeapOk(s) && c < |s.pcs| && Walking(s.pcs[c]) && !WalkStep(s, c).pcs[c].Unlinked?
    ensures HeapOk(WalkStep(s, c))
  {
    StepKeepsShape(s, Advance(c));
    WalkAside(s, c);
    assert PrevOk(s, c);
    forall n: nat { WalkChange(Block(n), s, c); }
    AsideKeepsHeap(s, WalkStep(s, c), c);
  }

  lemma {:induction false} RetryKeepsHeap(s: Process, c: nat)
    requires HeapOk(s) && c < |s.pcs| && s.pcs[c].Exchanging? && !ExchangeStep(s, c).pcs[c].Unlinked?
    ensures HeapOk(ExchangeStep(s, c))
  {
    StepKeepsShape(s, Advance(c));
    forall n: nat { ExchangeChange(Block(n), s, c); }
    AsideKeepsHeap(s, ExchangeStep(s, c), c);
  }

  lemma {:induction false} ReleaseKeepsHeap(s: Process, c: nat)
    requires HeapOk(s) && c < |s.pcs| && Releasing(s.pcs[c]) && !s.pcs[c].Checked?
    ensures HeapOk(ReleaseStep(s, c))
  {
    StepKeepsShape(s, Advance(c));
    ReleaseAside(s, c);
    var t := ReleaseStep(s, c);
    forall n: nat ensures Total(Block(n), t) == Total(Block(n), s) { ReleasesChange(Block(n), s, c); }
    AsideKeepsHeap(s, t, c);
  }

  lemma {:induction false} BeginKeepsHeap(s: Process, step: Step)
    requires HeapOk(s) && Enabled(s, step) && !step.Advance?
    ensures HeapOk(Apply(s, step))
  {
    StepKeepsShape(s, step);
    forall n: nat { StepChange(Block(n), s, step); }
    AsideKeepsHeap(s, Apply(s, step), step.core);
  }

  /** Every step keeps the blocks in order. */
  lemma {:induction false} StepKeepsHeap(s: Process, step: Step)
    requires HeapOk(s) && Enabled(s, step)
    ensures HeapOk(Apply(s, step))
  {
    var c := step.core;
    if !step.Advance? {
      BeginKeepsHeap(s, step);
    } else if s.pcs[c].Claimed? {
      FillKeepsHeap(s, c);
    } else if s.pcs[c].Ready? {
      PushKeepsHeap(s, c);
    } else if Creating(s.pcs[c]) {
      CreateKeepsHeap(s, c);
    } else if Walking(s.pcs[c]) {
      if WalkStep(s, c).pcs[c].Unlinked? { UnlinkKeepsHeap(s, c); } else { WalkKeepsHeap(s, c); }
    } else if s.pcs[c].Exchanging? {
      if ExchangeStep(s, c).pcs[c].Unlinked? { ExchangeKeepsHeap(s, c); } else { RetryKeepsHeap(s, c); }
    } else if s.pcs[c].Checked? {
      FreeKeepsHeap(s, c);
    } else {
      ReleaseKeepsHeap(s, c);
    }
  }

  lemma {:induction false} StartHasHeap(cores: nat, target: nat)
    requires target < cores
    ensures HeapOk(Start(cores, target))
  {
    StartIsShaped(cores, target);
    var s := Start(cores, target);
    forall n: nat ensures BlockBooked(s, n) {
      StartLists(Block(n), cores, target, cores);
      IdlePcs(Block(n), s.pcs, cores);
    }
    forall c | 0 <= c < cores
      ensures Linked(s.nodes, s.lists[c]) && ChildPlaced(s, c) && PrevOk(s, c)
    {
      if c == target { assert s.lists[c][1..] == []; }
    }
  }

  lemma {:induction false} RunKeepsHeap(s: Process, steps: seq<Step>)
    requires HeapOk(s) && CanRun(s, steps)
    ensures HeapOk(Run(s, steps))
    decreases |steps|
  {
    if steps != [] {
      StepKeepsHeap(s, steps[0]);
      RunKeepsHeap(Apply(s, steps[0]), steps[1..]);
    }
  }

  /** In every reachable state each block is free or holds exactly one thread, and following the pointers meets
      exactly the threads of the lists. */
  lemma {:induction false} ReachableHeap(cores: nat, target: nat, steps: seq<Step>)
    requires target < cores && CanRun(Start(cores, target), steps)
    ensures HeapOk(Run(Start(cores, target), steps))
  {
    StartHasHeap(cores, target);
    RunKeepsHeap(Start(cores, target), steps);
  }

  lemma {:induction false} LinkedPlace(nodes: seq<Node>, list: seq<Thread>, x: Thread)
    requires Linked(nodes, list) && x in list
    ensures x.node < |nodes| && nodes[x.node].thread == x
  {
    if list[0] != x { LinkedPlace(nodes, list[1..], x); }
  }
}
