/** Who created whom: a kill looks for the victim's children by their creator's TID, block by block through lists
    that others change meanwhile.
    Source: source/kernel/hardware/devices/cpu/scheduler.c:460, 579, 1045-1074, 1107;
    source/kernel/hardware/devices/memory/memory_allocators.c:775-835 */
module LifecycleParents {
  import opened Lifecycle
  import opened LifecycleBooks
  import opened LifecycleTids
  import opened LifecycleNodes
  import opened LifecycleHeads

  // ----- ways through the blocks

  /** At most `fuel` pointers lead from block `n` to block `goal`. */
  predicate Walks(nodes: seq<Node>, n: int, goal: nat, fuel: nat)
    decreases fuel
  {
    0 <= n < |nodes| && (n == goal || (fuel > 0 && Walks(nodes, nodes[n].next, goal, fuel - 1)))
  }

  /** The same without touching block `shut`. */
  predicate WalksPast(nodes: seq<Node>, n: int, goal: nat, shut: nat, fuel: nat)
    decreases fuel
  {
    0 <= n < |nodes| && n != shut &&
    (n == goal || (fuel > 0 && WalksPast(nodes, nodes[n].next, goal, shut, fuel - 1)))
  }

  ghost predicate Leads(nodes: seq<Node>, n: int, goal: nat) {
    exists fuel: nat :: Walks(nodes, n, goal, fuel)
  }

  ghost predicate LeadsPast(nodes: seq<Node>, n: int, goal: nat, shut: nat) {
    exists fuel: nat :: WalksPast(nodes, n, goal, shut, fuel)
  }

  lemma {:induction false} WalksLonger(nodes: seq<Node>, n: int, goal: nat, fuel: nat)
    requires Walks(nodes, n, goal, fuel)
    ensures Walks(nodes, n, goal, fuel + 1)
    decreases fuel
  {
    if n != goal { WalksLonger(nodes, nodes[n].next, goal, fuel - 1); }
  }

  lemma {:induction false} LeadsOn(nodes: seq<Node>, n: int, goal: nat)
    requires Leads(nodes, n, goal) && n != goal
    ensures 0 <= n < |nodes| && Leads(nodes, nodes[n].next, goal)
  {
    var fuel: nat :| Walks(nodes, n, goal, fuel);
    assert Walks(nodes, nodes[n].next, goal, fuel - 1);
  }

  lemma {:induction false} HeadLeads(nodes: seq<Node>, list: seq<Thread>, x: Thread)
    requires Linked(nodes, list) && x in list
    ensures Leads(nodes, HeadOf(list), x.node)
  {
    if list[0] == x {
      assert Walks(nodes, HeadOf(list), x.node, 0);
    } else {
      HeadLeads(nodes, list[1..], x);
      var fuel: nat :| Walks(nodes, HeadOf(list[1..]), x.node, fuel);
      assert Walks(nodes, HeadOf(list), x.node, fuel + 1);
    }
  }

  /** Refilling a block, its pointer now NULL, leaves exactly the ways that do not touch it. */
  lemma {:induction false} RefillWalks(nodes: seq<Node>, after: seq<Node>, n: int, goal: nat, shut: nat, fuel: nat)
    requires |nodes| <= |after| <= |nodes| + 1 && shut < |after| && (|after| > |nodes| ==> shut == |nodes|)
    requires after[shut].next == NIL && goal != shut
    requires forall k :: 0 <= k < |nodes| && k != shut ==> after[k] == nodes[k]
    ensures Walks(after, n, goal, fuel) <==> WalksPast(nodes, n, goal, shut, fuel)
    decreases fuel
  {
    if 0 <= n < |nodes| && n != shut && n != goal && fuel > 0 {
      RefillWalks(nodes, after, nodes[n].next, goal, shut, fuel - 1);
    }
  }

  lemma {:induction false} RefillLeads(nodes: seq<Node>, after: seq<Node>, n: int, goal: nat, shut: nat)
    requires |nodes| <= |after| <= |nodes| + 1 && shut < |after| && (|after| > |nodes| ==> shut == |nodes|)
    requires after[shut].next == NIL && goal != shut
    requires forall k :: 0 <= k < |nodes| && k != shut ==> after[k] == nodes[k]
    ensures Leads(after, n, goal) <==> LeadsPast(nodes, n, goal, shut)
  {
    forall fuel: nat
      ensures Walks(after, n, goal, fuel) <==> WalksPast(nodes, n, goal, shut, fuel)
    {
      RefillWalks(nodes, after, n, goal, shut, fuel);
    }
  }

  /** Unlinking a block keeps the ways to every other block. */
  lemma {:induction false} BridgeWalks(nodes: seq<Node>, after: seq<Node>, p: nat, v: nat, n: int, goal: nat, fuel: nat)
    requires p < |nodes| && v < |nodes| && nodes[p].next == v && goal != v
    requires after == nodes[p := nodes[p].(next := nodes[v].next)] && Walks(nodes, n, goal, fuel)
    ensures Walks(after, n, goal, fuel)
    decreases fuel
  {
    if n == goal {
    } else if n == p {
      BridgeWalks(nodes, after, p, v, nodes[v].next, goal, fuel - 2);
      WalksLonger(after, nodes[v].next, goal, fuel - 2);
    } else {
      BridgeWalks(nodes, after, p, v, nodes[n].next, goal, fuel - 1);
    }
  }

  lemma {:induction false} BridgeLeads(nodes: seq<Node>, after: seq<Node>, p: nat, v: nat, n: int, goal: nat)
    requires p < |nodes| && v < |nodes| && nodes[p].next == v && goal != v
    requires after == nodes[p := nodes[p].(next := nodes[v].next)] && Leads(nodes, n, goal)
    ensures Leads(after, n, goal)
  {
    var fuel: nat :| Walks(nodes, n, goal, fuel);
    BridgeWalks(nodes, after, p, v, n, goal, fuel);
  }

  /** Giving a block a pointer where it had none keeps all ways. */
  lemma {:induction false} PushWalks(nodes: seq<Node>, after: seq<Node>, p: nat, n: int, goal: nat, fuel: nat)
    requires p < |nodes| == |after| && nodes[p].next == NIL && Walks(nodes, n, goal, fuel)
    requires forall k :: 0 <= k < |nodes| && k != p ==> after[k] == nodes[k]
    ensures Walks(after, n, goal, fuel)
    decreases fuel
  {
    if n != goal { PushWalks(nodes, after, p, nodes[n].next, goal, fuel - 1); }
  }

  lemma {:induction false} BehindPoints(nodes: seq<Node>, list: seq<Thread>, x: Thread)
    requires Linked(nodes, list) && x in list && Behind(list, x) != NIL
    ensures 0 <= Behind(list, x) < |nodes| && nodes[Behind(list, x)].next == x.node
  {
    if list[1] != x { BehindPoints(nodes, list[1..], x); }
  }

  // ----- parents

  /** A kill between two lists has none of `at`. */
  predicate Cursor(pc: Pc) {
    pc.Standing? || pc.Matching? || pc.Passing?
  }

  /** The block from which the kill goes on looking. */
  function Ahead(nodes: seq<Node>, pc: Pc): int
    requires Cursor(pc)
  {
    if !pc.Passing? then pc.at else if 0 <= pc.at < |nodes| then nodes[pc.at].next else NIL
  }

  /** The kill has yet to come to thread `x` of list `j`. */
  ghost predicate Covers(nodes: seq<Node>, pc: Pc, x: Thread, j: nat)
    requires Walking(pc)
  {
    if pc.Marking? then pc.upTo <= j
    else pc.upTo < j || (pc.upTo == j && Leads(nodes, Ahead(nodes, pc), x.node))
  }

  /** `y` on core `c` is the creator of `x` on core `j`, and if it is being killed its kill has yet to come
      to `x`. */
  ghost predicate IsParent(s: Process, c: nat, y: Thread, x: Thread, j: nat)
    requires |s.pcs| == |s.lists|
  {
    && c < |s.lists| && y in s.lists[c]
    && y.self == x.creator && y.tid == x.creatorTid
    && (Walking(s.pcs[c]) && s.pcs[c].victim == y ==> Covers(s.nodes, s.pcs[c], x, j))
  }

  predicate Unmarked(s: Process, x: Thread) {
    x.self !in s.marked && x.creatorTid != 0
  }

  /** The actual creator of a thread, if it has one and is not told to go, is still listed. */
  ghost predicate Fostered(s: Process, j: nat, x: Thread)
    requires |s.pcs| == |s.lists|
  {
    Unmarked(s, x) ==> exists c: nat, y :: IsParent(s, c, y, x, j)
  }

  ghost predicate Parented(s: Process)
    requires |s.pcs| == |s.lists|
  {
    forall j: nat, x :: j < |s.lists| && x in s.lists[j] ==> Fostered(s, j, x)
  }

  /** Refilling block `shut` takes the kill's cursor off its way to `x`. */
  ghost predicate Loses(nodes: seq<Node>, pc: Pc, x: Thread, j: nat, shut: nat) {
    && Cursor(pc) && pc.upTo == j && pc.victim.self == x.creator && pc.victim.tid == x.creatorTid
    && Leads(nodes, Ahead(nodes, pc), x.node)
    && ((pc.Passing? && pc.at == shut) || !LeadsPast(nodes, Ahead(nodes, pc), x.node, shut))
  }

  /** A creation reuses a block on the way from a kill's cursor to an unmarked child of its victim, and there is
      no other way. */
  ghost predicate Cut(s: Process, step: Step) {
    step.Advance? && step.core < |s.pcs| && s.pcs[step.core].Claimed? &&
    exists c: nat, j: nat, x :: c < |s.pcs| && j < |s.lists| && x in s.lists[j] && Unmarked(s, x) &&
      Loses(s.nodes, s.pcs[c], x, j, Top(s.nodePool, |s.nodes|))
  }

  // ----- the kill's own steps

  lemma {:induction false} LookCovers(s: Process, k: nat, x: Thread, j: nat)
    requires HeapOk(s) && k < |s.pcs| && Walking(s.pcs[k]) && j < |s.lists| && x in s.lists[j]
    requires Covers(s.nodes, s.pcs[k], x, j) && s.pcs[k].victim.tid == x.creatorTid
    ensures !(s.pcs[k].Marking? && s.pcs[k].upTo == |s.pcs|)
    ensures var t := WalkStep(s, k);
            x.self in t.marked || (Walking(t.pcs[k]) && Covers(t.nodes, t.pcs[k], x, j))
  {
    assert PcOk(s, k);
    LinkedPlace(s.nodes, s.lists[j], x);
    var pc := s.pcs[k];
    if pc.Marking? && pc.upTo == j {
      HeadLeads(s.nodes, s.lists[j], x);
    } else if Cursor(pc) && pc.upTo == j && !pc.Passing? && pc.at != x.node {
      LeadsOn(s.nodes, pc.at, x.node);
    }
  }

  lemma {:induction false} LookKeepsParent(s: Process, k: nat, j: nat, x: Thread)
    requires HeapOk(s) && k < |s.pcs| && Walking(s.pcs[k]) && !WalkStep(s, k).pcs[k].Unlinked?
    requires j < |s.lists| && x in s.lists[j] && Fostered(s, j, x)
    ensures var t := WalkStep(s, k); |t.pcs| == |t.lists| && t.lists == s.lists && Fostered(t, j, x)
  {
    var t := WalkStep(s, k);
    WalkAside(s, k);
    if Unmarked(t, x) {
      var c: nat, y :| IsParent(s, c, y, x, j);
      if c == k && s.pcs[k].victim == y { LookCovers(s, k, x, j); }
      assert IsParent(t, c, y, x, j);
    }
  }

  /** Another kill's cursor keeps its way when a thread is unlinked. */
  lemma {:induction false} UnlinkCovers(s: Process, k: nat, pc: Pc, j: nat, x: Thread)
    requires HeapOk(s) && k < |s.pcs| && Walking(s.pcs[k]) && WalkStep(s, k).pcs[k].Unlinked?
    requires Walking(pc) && Covers(s.nodes, pc, x, j) && x.node != s.pcs[k].victim.node
    ensures Covers(WalkStep(s, k).nodes, pc, x, j)
  {
    UnlinkBridges(s, k);
    var victim, list := s.pcs[k].victim, s.lists[k];
    var after := WalkStep(s, k).nodes;
    LinkedPlace(s.nodes, list, victim);
    var p := Behind(list, victim);
    if p != NIL && Cursor(pc) && pc.upTo == j {
      BehindPoints(s.nodes, list, victim);
      BridgeLeads(s.nodes, after, p, victim.node, Ahead(s.nodes, pc), x.node);
      if pc.Passing? && pc.at == p {
        LeadsOn(s.nodes, victim.node, x.node);
        BridgeLeads(s.nodes, after, p, victim.node, s.nodes[victim.node].next, x.node);
      }
    }
  }

  lemma {:induction false} UnlinkKeepsParent(s: Process, k: nat, j: nat, x: Thread)
    requires HeapOk(s) && k < |s.pcs| && Walking(s.pcs[k]) && WalkStep(s, k).pcs[k].Unlinked?
    requires j < |s.lists| && x in s.lists[j] && Fostered(s, j, x) && x in WalkStep(s, k).lists[j]
    ensures var t := WalkStep(s, k); |t.pcs| == |t.lists| && Fostered(t, j, x)
  {
    var t := WalkStep(s, k);
    UnlinkBridges(s, k);
    assert PcOk(s, k);
    var victim := s.pcs[k].victim;
    if Unmarked(t, x) {
      var c: nat, y :| IsParent(s, c, y, x, j);
      WithoutKeeps(s.lists[k], victim, y);
      UnlinkLeavesOthers(s, k, j, x);
      if Walking(s.pcs[c]) && s.pcs[c].victim == y && c != k { UnlinkCovers(s, k, s.pcs[c], j, x); }
      assert IsParent(t, c, y, x, j);
    }
  }

  lemma {:induction false} UnlinkLeavesOthers(s: Process, k: nat, j: nat, x: Thread)
    requires HeapOk(s) && k < |s.pcs| && Walking(s.pcs[k]) && WalkStep(s, k).pcs[k].Unlinked?
    requires j < |s.lists| && |WalkStep(s, k).lists| == |s.lists| && x in WalkStep(s, k).lists[j]
    ensures x.node != s.pcs[k].victim.node
  {
    var t := WalkStep(s, k);
    var victim := s.pcs[k].victim;
    UnlinkBridges(s, k);
    UnlinkKeepsHeap(s, k);
    assert PcWeight(Block(victim.node), k, t.pcs[k]) == 1;
    CarriedIsUnlisted(t, k, victim.node);
    UnheldIsElsewhere(t, victim.node, j, x);
  }

  /** A thread taken in the victim's place has no children. */
  lemma {:induction false} ExchangeKeepsParent(s: Process, k: nat, j: nat, x: Thread)
    requires HeapOk(s) && NewOk(s) && k < |s.pcs| && s.pcs[k].Exchanging? && ExchangeStep(s, k).pcs[k].Unlinked?
    requires j < |s.lists| && x in s.lists[j] && Fostered(s, j, x)
    ensures var t := ExchangeStep(s, k); |t.pcs| == |t.lists| && Fostered(t, j, x)
  {
    var t := ExchangeStep(s, k);
    var current := s.pcs[k].current;
    assert FrontNew(s, k) && Childless(s, current) && Around(s, x);
    if Unmarked(t, x) {
      var c: nat, y :| IsParent(s, c, y, x, j);
      assert !IsChild(x, current);
      WithoutKeeps(s.lists[k], current, y);
      assert IsParent(t, c, y, x, j);
    }
  }

  lemma {:induction false} RetryKeepsParent(s: Process, k: nat, j: nat, x: Thread)
    requires Shaped(s) && k < |s.pcs| && s.pcs[k].Exchanging? && !ExchangeStep(s, k).pcs[k].Unlinked?
    requires j < |s.lists| && x in s.lists[j] && Fostered(s, j, x)
    ensures var t := ExchangeStep(s, k); |t.pcs| == |t.lists| && t.lists == s.lists && Fostered(t, j, x)
  {
    var t := ExchangeStep(s, k);
    if Unmarked(t, x) {
      var c: nat, y :| IsParent(s, c, y, x, j);
      assert IsParent(t, c, y, x, j);
    }
  }

  // ----- creations

  lemma {:induction false} PushCovers(s: Process, k: nat, pc: Pc, j: nat, x: Thread)
    requires HeapOk(s) && k < |s.pcs| && s.pcs[k].Ready? && Walking(pc) && Covers(s.nodes, pc, x, j)
    ensures Covers(CreateStep(s, k).nodes, pc, x, j)
  {
    assert PcOk(s, k) && ChildPlaced(s, k);
    if Cursor(pc) && pc.upTo == j {
      var fuel: nat :| Walks(s.nodes, Ahead(s.nodes, pc), x.node, fuel);
      PushWalks(s.nodes, CreateStep(s, k).nodes, s.pcs[k].child.node, Ahead(s.nodes, pc), x.node, fuel);
    }
  }

  lemma {:induction false} PushKeepsParent(s: Process, k: nat, j: nat, x: Thread)
    requires HeapOk(s) && k < |s.pcs| && s.pcs[k].Ready? && j < |s.lists|
    requires x in s.lists[j] ==> Fostered(s, j, x)
    requires |CreateStep(s, k).lists| == |s.lists| && x in CreateStep(s, k).lists[j]
    ensures var t := CreateStep(s, k); |t.pcs| == |t.lists| && Fostered(t, j, x)
  {
    var t := CreateStep(s, k);
    assert PcOk(s, k);
    if Unmarked(t, x) {
      if x in s.lists[j] {
        var c: nat, y :| IsParent(s, c, y, x, j);
        if Walking(s.pcs[c]) && s.pcs[c].victim == y { PushCovers(s, k, s.pcs[c], j, x); }
        assert IsParent(t, c, y, x, j);
      } else {
        assert x == s.pcs[k].child;
        assert IsParent(t, k, s.pcs[k].maker, x, j);
      }
    }
  }

  /** What refilling a block does to a cursor's way to a listed thread. */
  lemma {:induction false} FillWays(s: Process, k: nat, pc: Pc, j: nat, x: Thread)
    requires HeapOk(s) && k < |s.pcs| && s.pcs[k].Claimed? && j < |s.lists| && x in s.lists[j] && Cursor(pc)
    ensures var after := CreateStep(s, k).nodes;
            var shut := Top(s.nodePool, |s.nodes|);
            Leads(after, Ahead(after, pc), x.node) <==>
              !(pc.Passing? && pc.at == shut) && LeadsPast(s.nodes, Ahead(s.nodes, pc), x.node, shut)
  {
    var after := CreateStep(s, k).nodes;
    var shut := Top(s.nodePool, |s.nodes|);
    TopIsUnheld(s);
    UnheldIsElsewhere(s, shut, j, x);
    RefillLeads(s.nodes, after, Ahead(s.nodes, pc), x.node, shut);
    assert after[shut].next == NIL;
    if pc.Passing? && pc.at == shut {
      assert forall fuel: nat :: !Walks(after, NIL, x.node, fuel);
    } else {
      assert Ahead(after, pc) == Ahead(s.nodes, pc);
    }
  }

  lemma {:induction false} FillKeepsParent(s: Process, k: nat, j: nat, x: Thread)
    requires HeapOk(s) && k < |s.pcs| && s.pcs[k].Claimed? && !Cut(s, Advance(k))
    requires j < |s.lists| && x in s.lists[j] && Fostered(s, j, x)
    ensures var t := CreateStep(s, k); |t.pcs| == |t.lists| && t.lists == s.lists && Fostered(t, j, x)
  {
    var t := CreateStep(s, k);
    if Unmarked(t, x) {
      var c: nat, y :| IsParent(s, c, y, x, j);
      if Cursor(s.pcs[c]) && s.pcs[c].victim == y && s.pcs[c].upTo == j {
        FillWays(s, k, s.pcs[c], j, x);
        assert Unmarked(s, x);
        assert !Loses(s.nodes, s.pcs[c], x, j, Top(s.nodePool, |s.nodes|));
      }
      assert IsParent(t, c, y, x, j);
    }
  }

  /** A thread whose creator's kill has lost its way to it has no parent left. */
  lemma {:induction false} LostParent(s: Process, c: nat, j: nat, x: Thread, d: nat, y: Thread)
    requires CountsRight(s) && c < |s.pcs| && j < |s.lists| && Cursor(s.pcs[c])
    requires s.pcs[c].victim.self == x.creator && s.pcs[c].upTo == j
    requires !Leads(s.nodes, Ahead(s.nodes, s.pcs[c]), x.node)
    ensures !IsParent(s, d, y, x, j)
  {
    assert PcOk(s, c);
    if d < |s.lists| && y in s.lists[d] && y.self == x.creator {
      OneParent(s, d, y, c, s.pcs[c].victim);
    }
  }

  lemma {:induction false} CutsOff(s: Process, t: Process, k: nat, c: nat, j: nat, x: Thread)
    requires HeapOk(s) && CountsRight(t) && k < |s.pcs| && s.pcs[k].Claimed? && t == CreateStep(s, k)
    requires c < |s.pcs| && j < |s.lists| && x in s.lists[j] && Unmarked(s, x)
    requires Loses(s.nodes, s.pcs[c], x, j, Top(s.nodePool, |s.nodes|))
    ensures |t.pcs| == |t.lists| == |s.lists| && x in t.lists[j] && !Fostered(t, j, x)
  {
    FillWays(s, k, s.pcs[c], j, x);
    assert t.lists == s.lists && t.pcs[c] == s.pcs[c] && Unmarked(t, x);
    forall d: nat, y ensures !IsParent(t, d, y, x, j) { LostParent(t, c, j, x, d, y); }
  }

  lemma {:induction false} CutLosesParent(s: Process, k: nat)
    requires HeapOk(s) && k < |s.pcs| && Cut(s, Advance(k)) && CountsRight(CreateStep(s, k))
    ensures var t := CreateStep(s, k); |t.pcs| == |t.lists| && !Parented(t)
  {
    var c: nat, j: nat, x :| c < |s.pcs| && j < |s.lists| && x in s.lists[j] && Unmarked(s, x) &&
      Loses(s.nodes, s.pcs[c], x, j, Top(s.nodePool, |s.nodes|));
    CutsOff(s, CreateStep(s, k), k, c, j, x);
  }

  // ----- every step and every run

  lemma {:induction false} AsideKeepsParent(s: Process, t: Process, k: nat, j: nat, x: Thread)
    requires Shaped(s) && Aside(s, t, k) && t.marked == s.marked && !Walking(s.pcs[k])
    requires Walking(t.pcs[k]) ==> t.pcs[k].Marking? && t.pcs[k].upTo == 0
    requires j < |s.lists| && x in s.lists[j] && Fostered(s, j, x)
    ensures |t.pcs| == |t.lists| && Fostered(t, j, x)
  {
    if Unmarked(t, x) {
      var c: nat, y :| IsParent(s, c, y, x, j);
      assert IsParent(t, c, y, x, j);
    }
  }

  lemma {:induction false} FreeKeepsParent(s: Process, k: nat, j: nat, x: Thread)
    requires Shaped(s) && k < |s.pcs| && s.pcs[k].Checked?
    requires j < |s.lists| && x in s.lists[j] && Fostered(s, j, x)
    ensures var t := ReleaseStep(s, k); |t.pcs| == |t.lists| && t.lists == s.lists && Fostered(t, j, x)
  {
    var t := ReleaseStep(s, k);
    if Unmarked(t, x) {
      var c: nat, y :| IsParent(s, c, y, x, j);
      assert IsParent(t, c, y, x, j);
    }
  }

  lemma {:induction false} ReleaseKeepsParent(s: Process, k: nat, j: nat, x: Thread)
    requires Shaped(s) && k < |s.pcs| && Releasing(s.pcs[k])
    requires j < |s.lists| && (x in s.lists[j] ==> Fostered(s, j, x))
    requires |ReleaseStep(s, k).lists| == |s.lists| && x in ReleaseStep(s, k).lists[j]
    ensures var t := ReleaseStep(s, k); |t.pcs| == |t.lists| && Fostered(t, j, x)
  {
    if s.pcs[k].Checked? {
      FreeKeepsParent(s, k, j, x);
    } else {
      ReleaseAside(s, k);
      AsideKeepsParent(s, ReleaseStep(s, k), k, j, x);
    }
  }

  lemma {:induction false} BeginKeepsParent(s: Process, step: Step, j: nat, x: Thread)
    requires Shaped(s) && Enabled(s, step) && !step.Advance?
    requires j < |s.lists| && (x in s.lists[j] ==> Fostered(s, j, x))
    requires |Apply(s, step).lists| == |s.lists| && x in Apply(s, step).lists[j]
    ensures var t := Apply(s, step); |t.pcs| == |t.lists| && Fostered(t, j, x)
  {
    AsideKeepsParent(s, Apply(s, step), step.core, j, x);
  }

  lemma {:induction false} CreationKeepsParent(s: Process, k: nat, j: nat, x: Thread)
    requires HeapOk(s) && k < |s.pcs| && Creating(s.pcs[k]) && !Cut(s, Advance(k)) && j < |s.lists|
    requires x in s.lists[j] ==> Fostered(s, j, x)
    requires |CreateStep(s, k).lists| == |s.lists| && x in CreateStep(s, k).lists[j]
    ensures var t := CreateStep(s, k); |t.pcs| == |t.lists| && Fostered(t, j, x)
  {
    if s.pcs[k].Ready? {
      PushKeepsParent(s, k, j, x);
    } else if s.pcs[k].Claimed? {
      FillKeepsParent(s, k, j, x);
    } else {
      CreateAside(s, k);
      AsideKeepsParent(s, CreateStep(s, k), k, j, x);
    }
  }

  lemma {:induction false} ExchangeOrRetryKeepsParent(s: Process, k: nat, j: nat, x: Thread)
    requires HeapOk(s) && NewOk(s) && k < |s.pcs| && s.pcs[k].Exchanging?
    requires j < |s.lists| && (x in s.lists[j] ==> Fostered(s, j, x))
    requires |ExchangeStep(s, k).lists| == |s.lists| && x in ExchangeStep(s, k).lists[j]
    ensures var t := ExchangeStep(s, k); |t.pcs| == |t.lists| && Fostered(t, j, x)
  {
    WithoutKeeps(s.lists[k], s.pcs[k].current, x);
    if ExchangeStep(s, k).pcs[k].Unlinked? {
      ExchangeKeepsParent(s, k, j, x);
    } else {
      RetryKeepsParent(s, k, j, x);
    }
  }

  lemma {:induction false} WalkKeepsParent(s: Process, k: nat, j: nat, x: Thread)
    requires HeapOk(s) && k < |s.pcs| && Walking(s.pcs[k])
    requires j < |s.lists| && (x in s.lists[j] ==> Fostered(s, j, x))
    requires |WalkStep(s, k).lists| == |s.lists| && x in WalkStep(s, k).lists[j]
    ensures var t := WalkStep(s, k); |t.pcs| == |t.lists| && Fostered(t, j, x)
  {
    if WalkStep(s, k).pcs[k].Unlinked? {
      UnlinkBridges(s, k);
      WithoutKeeps(s.lists[k], s.pcs[k].victim, x);
      UnlinkKeepsParent(s, k, j, x);
    } else {
      WalkAside(s, k);
      LookKeepsParent(s, k, j, x);
    }
  }

  lemma {:induction false} StepKeepsParent(s: Process, step: Step, j: nat, x: Thread)
    requires HeapOk(s) && NewOk(s) && Enabled(s, step) && Parented(s) && !Cut(s, step)
    requires Shaped(Apply(s, step)) && |Apply(s, step).lists| == |s.lists|
    requires j < |s.lists| && x in Apply(s, step).lists[j]
    ensures Fostered(Apply(s, step), j, x)
  {
    var k := step.core;
    assert x in s.lists[j] ==> Fostered(s, j, x);
    if !step.Advance? {
      BeginKeepsParent(s, step, j, x);
    } else if Creating(s.pcs[k]) {
      CreationKeepsParent(s, k, j, x);
    } else if Walking(s.pcs[k]) {
      WalkKeepsParent(s, k, j, x);
    } else if s.pcs[k].Exchanging? {
      ExchangeOrRetryKeepsParent(s, k, j, x);
    } else {
      ReleaseKeepsParent(s, k, j, x);
    }
  }

  lemma {:induction false} CoresStay(s: Process, step: Step)
    requires Shaped(s) && Enabled(s, step)
    ensures |Apply(s, step).lists| == |Apply(s, step).pcs| == |s.lists|
  {
    assert PcOk(s, step.core);
  }

  /** Every step keeps the parents if and only if it does not cut a kill's way to an unmarked child. */
  lemma {:induction false} StepKeepsParents(s: Process, step: Step)
    requires HeapOk(s) && CountsRight(s) && NewOk(s) && Enabled(s, step) && Parented(s)
    ensures Shaped(Apply(s, step)) && (Parented(Apply(s, step)) <==> !Cut(s, step))
  {
    StepKeepsShape(s, step);
    CoresStay(s, step);
    var t := Apply(s, step);
    if Cut(s, step) {
      StepKeepsCounts(s, step);
      CutLosesParent(s, step.core);
    } else {
      forall j: nat, x | j < |t.lists| && x in t.lists[j]
        ensures Fostered(t, j, x)
      {
        StepKeepsParent(s, step, j, x);
      }
    }
  }

  ghost predicate CutFree(s: Process, steps: seq<Step>)
    requires CanRun(s, steps)
    decreases |steps|
  {
    steps == [] || (!Cut(s, steps[0]) && CutFree(Apply(s, steps[0]), steps[1..]))
  }

  ghost predicate ParentedAlong(s: Process, steps: seq<Step>)
    requires CanRun(s, steps)
    decreases |steps|
  {
    Shaped(s) && Parented(s) && (steps == [] || ParentedAlong(Apply(s, steps[0]), steps[1..]))
  }

  /** Over a whole run every unmarked thread keeps its creator, at every moment, if and only if no block on the way
      of a kill is reused. */
  lemma {:induction false} RunKeepsParents(s: Process, steps: seq<Step>)
    requires HeapOk(s) && CountsRight(s) && NewOk(s) && CanRun(s, steps) && Parented(s)
    ensures ParentedAlong(s, steps) <==> CutFree(s, steps)
    ensures CutFree(s, steps) ==> Shaped(Run(s, steps)) && Parented(Run(s, steps))
    decreases |steps|
  {
    if steps != [] {
      StepKeepsParents(s, steps[0]);
      StepKeepsHeap(s, steps[0]);
      StepKeepsCounts(s, steps[0]);
      StepKeepsNew(s, steps[0]);
      if Parented(Apply(s, steps[0])) {
        RunKeepsParents(Apply(s, steps[0]), steps[1..]);
      }
    }
  }

  lemma {:induction false} StartIsParented(cores: nat, target: nat)
    requires target < cores
    ensures var s := Start(cores, target); HeapOk(s) && CountsRight(s) && NewOk(s) && Parented(s)
  {
    StartIsNew(cores, target);
    StartHasHeap(cores, target);
    StartIsBooked(cores, target);
    var s := Start(cores, target);
    forall k: nat, z | k < |s.lists| && z in s.lists[k] ensures Fostered(s, k, z) {}
  }

  /** After every such run, a listed thread that is not marked and was created by a thread has that very thread,
      not a later holder of its ID, still in a list. */
  lemma {:induction false} CreatorsAreAlive(cores: nat, target: nat, steps: seq<Step>, j: nat, x: Thread)
    requires target < cores && CanRun(Start(cores, target), steps) && CutFree(Start(cores, target), steps)
    ensures var t := Run(Start(cores, target), steps);
            j < |t.lists| && x in t.lists[j] && x.creatorTid != 0 && x.self !in t.marked ==>
            exists c: nat, y :: c < |t.lists| && y in t.lists[c] && y.self == x.creator && y.tid == x.creatorTid
  {
    StartIsParented(cores, target);
    RunKeepsParents(Start(cores, target), steps);
    var t := Run(Start(cores, target), steps);
    if j < |t.lists| && x in t.lists[j] && Unmarked(t, x) {
      assert Fostered(t, j, x);
      var c: nat, y :| IsParent(t, c, y, x, j);
      assert y in t.lists[c];
    }
  }

  /** When a kill takes a thread out of its list, be it the victim or one pushed in front of it, no unmarked child of
      that thread is left in any list. */
  lemma {:induction false} NoOrphanAtUnlink(s: Process, k: nat, j: nat, x: Thread)
    requires CountsRight(s) && NewOk(s) && Parented(s) && k < |s.pcs| && Seeking(s.pcs[k])
    requires |Advanced(s, k).pcs| == |s.pcs| && Advanced(s, k).pcs[k].Unlinked?
    requires j < |s.lists| && x in s.lists[j] && Unmarked(s, x)
    ensures x.creator != Advanced(s, k).pcs[k].victim.self
  {
    assert PcOk(s, k);
    if s.pcs[k].Exchanging? {
      TakenInsteadIsChildless(s, k, j, x);
    } else {
      VictimIsChildless(s, k, j, x);
    }
  }

  lemma {:induction false} TakenInsteadIsChildless(s: Process, k: nat, j: nat, x: Thread)
    requires Shaped(s) && NewOk(s) && k < |s.pcs| && s.pcs[k].Exchanging?
    requires j < |s.lists| && x in s.lists[j] && Unmarked(s, x)
    ensures x.creator != s.pcs[k].current.self
  {
    assert FrontNew(s, k) && Childless(s, s.pcs[k].current) && Around(s, x);
    assert !IsChild(x, s.pcs[k].current);
  }

  lemma {:induction false} VictimIsChildless(s: Process, k: nat, j: nat, x: Thread)
    requires CountsRight(s) && Parented(s) && k < |s.pcs| && s.pcs[k].Marking? && s.pcs[k].upTo == |s.pcs|
    requires j < |s.lists| && x in s.lists[j] && Unmarked(s, x)
    ensures x.creator != s.pcs[k].victim.self
  {
    assert PcOk(s, k) && Fostered(s, j, x);
    var c: nat, y :| IsParent(s, c, y, x, j);
    if x.creator == s.pcs[k].victim.self { OneParent(s, c, y, k, s.pcs[k].victim); }
  }
}
