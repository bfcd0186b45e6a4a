/** How trees lie in the parser's arena: blocks are made in preorder, so a tree takes a stretch of the arena, and what
    is parsed next is hung behind the last block.
    Source: source/kernel/firmware/acpi/aml/main.c:296-312, 435-441 */
module AmlLayout {
  import opened AmlGrammar
  import opened AmlMachine
  import opened AmlTerms

  function Size(t: Tree): nat
    decreases t
  {
    1 + Sizes(t.children)
  }

  /** How many blocks the trees take. */
  function Sizes(ts: seq<Tree>): nat
    decreases ts
  {
    if ts == [] then 0 else Size(ts[0]) + Sizes(ts[1..])
  }

  /** Where the last of the trees begins. */
  function LastAt(ts: seq<Tree>): nat
    requires ts != []
  {
    if |ts| == 1 then 0 else Size(ts[0]) + LastAt(ts[1..])
  }

  /** Block `n` and those behind it are the tree `t` below block `p`, with a sibling after it unless it is the last. */
  predicate Stands(blocks: seq<Block>, n: nat, p: int, t: Tree, last: bool)
    decreases t, 0
  {
    && n < |blocks|
    && blocks[n].left == p && blocks[n].kind == Entry(t.kind)
    && blocks[n].text == t.text && blocks[n].value == t.value
    && blocks[n].right == (if t.children == [] then -1 else n + 1)
    && blocks[n].down == (if last then -1 else n + Size(t))
    && Chain(blocks, n + 1, n, t.children)
  }

  /** The blocks from `from` on are the trees, one after the other, below block `p`. */
  predicate Chain(blocks: seq<Block>, from: nat, p: int, ts: seq<Tree>)
    decreases ts, 1
  {
    ts == [] ||
    (Stands(blocks, from, p, ts[0], |ts| == 1) && Chain(blocks, from + Size(ts[0]), p, ts[1..]))
  }

  /** The blocks agree, whatever their `end`. */
  predicate Same(a: seq<Block>, b: seq<Block>, i: nat) {
    i < |a| && i < |b| && b[i] == a[i].(end := b[i].end)
  }

  lemma {:induction false} StandsFrame(a: seq<Block>, b: seq<Block>, n: nat, p: int, t: Tree, last: bool)
    requires Stands(a, n, p, t, last) && forall i :: n <= i < n + Size(t) ==> Same(a, b, i)
    ensures Stands(b, n, p, t, last)
    decreases t, 0
  {
    assert Same(a, b, n);
    ChainFrame(a, b, n + 1, n, t.children);
  }

  lemma {:induction false} ChainFrame(a: seq<Block>, b: seq<Block>, from: nat, p: int, ts: seq<Tree>)
    requires Chain(a, from, p, ts) && forall i :: from <= i < from + Sizes(ts) ==> Same(a, b, i)
    ensures Chain(b, from, p, ts)
    decreases ts, 1
  {
    if ts != [] {
      StandsFrame(a, b, from, p, ts[0], |ts| == 1);
      ChainFrame(a, b, from + Size(ts[0]), p, ts[1..]);
    }
  }

  lemma {:induction false} LastFits(ts: seq<Tree>)
    requires ts != []
    ensures LastAt(ts) < Sizes(ts)
  {
    if |ts| > 1 { LastFits(ts[1..]); }
  }

  lemma {:induction false} LastStands(blocks: seq<Block>, from: nat, p: int, ts: seq<Tree>)
    requires Chain(blocks, from, p, ts) && ts != []
    ensures var n := from + LastAt(ts);
            n < |blocks| && blocks[n].left == p && blocks[n].down == -1
    decreases ts
  {
    if |ts| > 1 { LastStands(blocks, from + Size(ts[0]), p, ts[1..]); }
  }

  lemma {:induction false} SizesJoin(ts: seq<Tree>, us: seq<Tree>)
    ensures Sizes(ts + us) == Sizes(ts) + Sizes(us)
    ensures us != [] ==> LastAt(ts + us) == Sizes(ts) + LastAt(us)
  {
    if ts == [] {
      assert ts + us == us;
    } else {
      assert (ts + us)[0] == ts[0] && (ts + us)[1..] == ts[1..] + us;
      SizesJoin(ts[1..], us);
    }
  }

  /** Hanging more trees behind the last one makes one chain of both. */
  lemma {:induction false} ChainJoin(
      a: seq<Block>, b: seq<Block>, from: nat, p: int, ts: seq<Tree>, us: seq<Tree>)
    requires ts != [] && us != [] && Chain(a, from, p, ts) && Chain(b, from + Sizes(ts), p, us)
    requires forall i :: from <= i < from + Sizes(ts) && i != from + LastAt(ts) ==> Same(a, b, i)
    requires var n := from + LastAt(ts);
             n < |a| && n < |b| && b[n] == a[n].(down := from + Sizes(ts), end := b[n].end)
    ensures Chain(b, from, p, ts + us)
    decreases ts
  {
    assert (ts + us)[0] == ts[0] && (ts + us)[1..] == ts[1..] + us;
    if |ts| == 1 {
      assert ts[1..] == [] && Sizes(ts) == Size(ts[0]) && ts[1..] + us == us;
      ChainFrame(a, b, from + 1, from, ts[0].children);
    } else {
      LastFits(ts[1..]);
      StandsFrame(a, b, from, p, ts[0], false);
      ChainJoin(a, b, from + Size(ts[0]), p, ts[1..], us);
    }
  }

  // ----- what a stretch of the parse adds

  /** The block in whose section the next one comes. */
  function SectionOf(c: Config): int
    requires c.actual < |c.blocks|
  {
    if c.dir.Right? then c.actual else c.blocks[c.actual].left
  }

  /** Nothing hangs where the next block will. */
  predicate Free(c: Config) {
    && c.actual < |c.blocks|
    && (if c.dir.Right? then c.blocks[c.actual].right == -1 else c.blocks[c.actual].down == -1)
  }

  /** The current block with the next one hung on it. */
  function Hung(c: Config): Block
    requires c.actual < |c.blocks|
  {
    if c.dir.Right? then c.blocks[c.actual].(right := |c.blocks|) else c.blocks[c.actual].(down := |c.blocks|)
  }

  /** The parse has added the trees and nothing else. */
  predicate Grows(c: Config, d: Config, ts: seq<Tree>) {
    && c.actual < |c.blocks| && |d.blocks| == |c.blocks| + Sizes(ts)
    && (forall i :: 0 <= i < |c.blocks| && i != c.actual ==> d.blocks[i] == c.blocks[i])
    && d.blocks[c.actual] == (if ts == [] then c.blocks[c.actual] else Hung(c)).(end := d.blocks[c.actual].end)
    && Chain(d.blocks, |c.blocks|, SectionOf(c), ts)
    && (if ts == [] then d.actual == c.actual && d.dir == c.dir
        else d.actual == |c.blocks| + LastAt(ts) && d.dir == Stay)
  }

  lemma {:induction false} GrowsOn(c: Config, d: Config, ts: seq<Tree>)
    requires Grows(c, d, ts) && Free(c)
    ensures Free(d) && SectionOf(d) == SectionOf(c)
  {
    if ts != [] { LastStands(d.blocks, |c.blocks|, SectionOf(c), ts); }
  }

  /** One block more, at the place the next one is hung. */
  predicate OneMore(c: Config, d: Config, s: State, text: seq<byte>, value: nat) {
    var n := |c.blocks|;
    && c.actual < n && |d.blocks| == n + 1 && d.actual == n && d.dir == Stay
    && (forall i :: 0 <= i < n && i != c.actual ==> d.blocks[i] == c.blocks[i])
    && d.blocks[c.actual] == Hung(c).(end := d.blocks[c.actual].end)
    && d.blocks[n] == Block(SectionOf(c), -1, -1, d.blocks[n].start, d.blocks[n].end, Entry(s), text, value)
  }

  lemma {:induction false} GrowsOne(c: Config, d: Config, s: State, text: seq<byte>, value: nat)
    ensures OneMore(c, d, s, text, value) ==> Grows(c, d, [Leaf(s, text, value)])
    ensures Grows(c, d, [Leaf(s, text, value)]) ==> OneMore(c, d, s, text, value)
  {
    var leaf := Leaf(s, text, value);
    assert [leaf][1..] == [] && leaf.children == [] && [leaf][0] == leaf && |[leaf]| == 1;
    assert Size(leaf) == 1 && Sizes([leaf]) == 1 && LastAt([leaf]) == 0;
    if |d.blocks| > |c.blocks| && c.actual < |c.blocks| {
      OneStands(d.blocks, |c.blocks|, SectionOf(c), leaf);
    }
  }

  lemma {:induction false} OneStands(blocks: seq<Block>, n: nat, p: int, leaf: Tree)
    requires n < |blocks| && leaf.children == []
    ensures Chain(blocks, n, p, [leaf]) <==>
              (blocks[n] == Block(p, -1, -1, blocks[n].start, blocks[n].end, Entry(leaf.kind), leaf.text, leaf.value))
  {
    assert [leaf][1..] == [] && |[leaf]| == 1;
    assert Chain(blocks, n + Size(leaf), p, []) && Chain(blocks, n + 1, n, leaf.children);
    assert Stands(blocks, n, p, leaf, true) <==>
           (blocks[n] == Block(p, -1, -1, blocks[n].start, blocks[n].end, Entry(leaf.kind), leaf.text, leaf.value));
    assert Chain(blocks, n, p, [leaf]) <==>
           (Stands(blocks, n, p, [leaf][0], true) && Chain(blocks, n + Size(leaf), p, [leaf][1..]));
  }

  lemma {:induction false} GrowsNothing(c: Config, p: nat)
    requires c.actual < |c.blocks|
    ensures Grows(c, c.(ptr := p), [])
  {
  }

  lemma {:induction false} GrowsJoin(c: Config, d: Config, e: Config, ts: seq<Tree>, us: seq<Tree>)
    requires Free(c) && Grows(c, d, ts) && Grows(d, e, us)
    ensures Grows(c, e, ts + us)
  {
    GrowsOn(c, d, ts);
    SizesJoin(ts, us);
    if ts == [] {
      assert ts + us == us;
    } else if us == [] {
      assert ts + us == ts;
      ChainFrame(d.blocks, e.blocks, |c.blocks|, SectionOf(c), ts);
      LastFits(ts);
    } else {
      LastFits(ts);
      ChainJoin(d.blocks, e.blocks, |c.blocks|, SectionOf(c), ts, us);
    }
  }

  /** The trees that were parsed inside a new section are the children of the block that opened it. */
  lemma {:induction false} GrowsSection(c: Config, m: Config, d: Config, t: Tree)
    requires Free(c) && m.dir.Right? && Grows(c, m.(dir := Stay), [Leaf(t.kind, t.text, t.value)])
    requires Grows(m, d, t.children)
    ensures Free(m) && d.actual < |d.blocks| && SectionOf(d) == |c.blocks|
    ensures Grows(c, d.(actual := |c.blocks|, dir := Stay), [t])
  {
    var n := |c.blocks|;
    var leaf := Leaf(t.kind, t.text, t.value);
    assert [leaf][1..] == [] && [t][1..] == [];
    assert Stands(m.blocks, n, SectionOf(c), leaf, true);
    GrowsOn(m, d, t.children);
    assert Sizes([leaf]) == 1 && Sizes([t]) == Size(t);
    assert Stands(d.blocks, n, SectionOf(c), t, true);
  }

  // ----- the tree in an arena

  predicate OnwardAt(blocks: seq<Block>, i: nat)
    requires i < |blocks|
  {
    && (blocks[i].right == -1 || i < blocks[i].right < |blocks|)
    && (blocks[i].down == -1 || i < blocks[i].down < |blocks|)
  }

  /** Every link leads to a later block. */
  predicate Onward(blocks: seq<Block>) {
    forall i :: 0 <= i < |blocks| ==> OnwardAt(blocks, i)
  }

  lemma {:induction false} OkIsOnward(blocks: seq<Block>)
    requires BlocksOk(blocks)
    ensures Onward(blocks)
  {
    forall i | 0 <= i < |blocks| ensures OnwardAt(blocks, i) { assert BlockOk(blocks, i); }
  }

  /** The trees from block `n` on. */
  function TreesFrom(blocks: seq<Block>, n: int): seq<Tree>
    requires Onward(blocks) && -1 <= n < |blocks|
    decreases if n == -1 then 0 else |blocks| - n
  {
    if n == -1 then []
    else
      assert OnwardAt(blocks, n);
      var b := blocks[n];
      var kind := match b.kind case Entry(s) => s case _ => Nothing;
      [Node(kind, b.text, b.value, TreesFrom(blocks, b.right))] + TreesFrom(blocks, b.down)
  }

  lemma {:induction false} ChainIsRead(blocks: seq<Block>, from: nat, p: int, ts: seq<Tree>)
    requires Onward(blocks) && Chain(blocks, from, p, ts) && ts != []
    ensures from < |blocks| && TreesFrom(blocks, from) == ts
    decreases ts
  {
    assert OnwardAt(blocks, from);
    var t := ts[0];
    if t.children != [] {
      assert Chain(blocks, from + 1, from, t.children);
      ChainIsRead(blocks, from + 1, from, t.children);
    }
    if |ts| > 1 { ChainIsRead(blocks, from + Size(t), p, ts[1..]); }
    assert ts == [t] + ts[1..];
  }

  /** The trees are the same whatever `left` says. */
  lemma {:induction false} LeftIsNotRead(a: seq<Block>, b: seq<Block>, i: nat, left: int, n: int)
    requires Onward(a) && i < |a| && b == a[i := a[i].(left := left)] && -1 <= n < |a|
    ensures Onward(b) && TreesFrom(b, n) == TreesFrom(a, n)
    decreases if n == -1 then 0 else |a| - n
  {
    forall k | 0 <= k < |b| ensures OnwardAt(b, k) { assert OnwardAt(a, k); }
    if n != -1 {
      assert OnwardAt(a, n);
      LeftIsNotRead(a, b, i, left, a[n].right);
      LeftIsNotRead(a, b, i, left, a[n].down);
    }
  }
}
