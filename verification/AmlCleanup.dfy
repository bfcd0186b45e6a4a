/** Freeing the tree the AML parser built, with the 1024-slot traversal stack.
    Source: source/kernel/firmware/acpi/aml/main.c:156-184 */
module AmlCleanup {
  import opened AmlMachine
  import opened AmlDescent
  import opened AmlTree
  import F = Forest

  const SLOTS: nat := 1024

  /** The order in which blocks are freed: what hangs below a block, the block, what stands behind it. */
  function FreeOrder(b: seq<Block>, n: int): seq<nat>
    requires BlocksOk(b) && -1 <= n < |b|
    decreases if n == -1 then 0 else |b| - n
  {
    if n == -1 then []
    else
      assert BlockOk(b, n);
      FreeOrder(b, b[n].right) + ([n] + FreeOrder(b, b[n].down))
  }

  lemma LinksForward(b: seq<Block>)
    requires BlocksOk(b)
    ensures F.Forward(Links(b))
  {
    forall i | 0 <= i < |b|
      ensures F.NullOrAfter(Links(b), i, b[i].right) && F.NullOrAfter(Links(b), i, b[i].down)
    {
      assert BlockOk(b, i);
    }
  }

  /** Freeing meets the same blocks as the preorder walk does, equally often. */
  lemma {:induction false} FreesWhatPreorderMeets(b: seq<Block>, n: int, x: nat)
    requires BlocksOk(b) && F.Forward(Links(b)) && -1 <= n < |b|
    ensures F.Visits(FreeOrder(b, n), x) == F.VisitsFrom(Links(b), n, x)
    decreases if n == -1 then 0 else |b| - n
  {
    if n != -1 {
      assert BlockOk(b, n);
      F.VisitsUnfold(Links(b), n, x);
      FreesWhatPreorderMeets(b, b[n].right, x);
      FreesWhatPreorderMeets(b, b[n].down, x);
      F.VisitsConcat(FreeOrder(b, b[n].right), [n] + FreeOrder(b, b[n].down), x);
      F.VisitsConcat([n], FreeOrder(b, b[n].down), x);
      assert F.Visits([n], x) == if n == x then 1 else 0;
    }
  }

  /** In a shaped arena the zero block and what is freed from the table block on are all blocks, each once. */
  lemma {:induction false} FreesEachBlockOnce(b: seq<Block>, x: nat)
    requires Shaped(b)
    ensures F.Visits([0] + FreeOrder(b, 1), x) == if x < |b| then 1 else 0
  {
    LinksForward(b);
    F.PreorderIsComplete(Links(b));
    F.VisitsUnfold(Links(b), 0, x);
    FreesWhatPreorderMeets(b, 1, x);
    F.VisitsConcat([0], FreeOrder(b, 1), x);
    assert F.Visits([0], x) == if 0 == x then 1 else 0;
    assert F.Visits(F.Preorder(Links(b), 0), x) == F.VisitsFrom(Links(b), 0, x);
  }

  lemma OnceFromTable(b: seq<Block>, x: nat)
    requires Shaped(b)
    ensures F.Visits(FreeOrder(b, 1), x) <= 1
  {
    FreesEachBlockOnce(b, x);
    F.VisitsConcat([0], FreeOrder(b, 1), x);
  }

  // ----- the loop

  /** Some `right` links have been cut, nothing else is changed. */
  predicate CutOk(b: seq<Block>, a: seq<Block>, i: nat)
    requires |a| == |b| && i < |b|
  {
    a[i] == b[i] || a[i] == b[i].(right := -1)
  }

  predicate Cut(b: seq<Block>, a: seq<Block>) {
    |a| == |b| && forall i :: 0 <= i < |b| ==> CutOk(b, a, i)
  }

  /** What an entry of the traversal stack still stands for. */
  function Task(b: seq<Block>, a: seq<Block>, n: nat): seq<nat>
    requires BlocksOk(b) && |a| == |b| && n < |b|
  {
    assert BlockOk(b, n);
    if a[n].right == -1 then [n] + FreeOrder(b, b[n].down) else FreeOrder(b, n)
  }

  lemma {:induction false} UntouchedTask(b: seq<Block>, a: seq<Block>, n: nat)
    requires BlocksOk(b) && |a| == |b| && n < |b| && a[n] == b[n]
    ensures Task(b, a, n) == FreeOrder(b, n)
  {
    assert BlockOk(b, n);
    if b[n].right == -1 {
      assert FreeOrder(b, b[n].right) == [];
    }
  }

  lemma Assoc(x: seq<nat>, y: seq<nat>, z: seq<nat>)
    ensures x + (y + z) == (x + y) + z
  {
  }

  predicate Within(stack: seq<nat>, n: nat) {
    forall k :: 0 <= k < |stack| ==> stack[k] < n
  }

  /** The entries from the top of the stack, which is its end, down. */
  function Remaining(b: seq<Block>, a: seq<Block>, stack: seq<nat>): seq<nat>
    requires BlocksOk(b) && |a| == |b| && Within(stack, |b|)
  {
    if stack == [] then []
    else Task(b, a, stack[|stack| - 1]) + Remaining(b, a, stack[..|stack| - 1])
  }

  predicate Deep(b: seq<Block>, stack: seq<nat>, k: nat)
    requires BlocksOk(b) && Within(stack, |b|) && k < |stack|
  {
    stack[k] >= 1 && Level(b, stack[k]) == k
  }

  predicate CutExplained(b: seq<Block>, a: seq<Block>, stack: seq<nat>, freed: seq<nat>, i: nat)
    requires |a| == |b| && i < |b|
  {
    a[i] != b[i] ==> i in freed || i in stack
  }

  /** What holds whenever the loop looks at its stack: entry `k` is a block of level `k`, a link is cut only
      in blocks that are freed or on the stack, and what was freed plus what remains is the whole tree. */
  ghost predicate Freeing(b: seq<Block>, a: seq<Block>, stack: seq<nat>, freed: seq<nat>) {
    && Shaped(b)
    && Cut(b, a)
    && Within(stack, |b|)
    && (forall k :: 0 <= k < |stack| ==> Deep(b, stack, k))
    && (forall i :: 0 <= i < |b| ==> CutExplained(b, a, stack, freed, i))
    && freed + Remaining(b, a, stack) == FreeOrder(b, 1)
  }

  lemma {:induction false} EntriesRemain(b: seq<Block>, a: seq<Block>, stack: seq<nat>, x: nat)
    requires BlocksOk(b) && |a| == |b| && Within(stack, |b|) && x in stack
    ensures F.Visits(Remaining(b, a, stack), x) >= 1
    decreases |stack|
  {
    var top := stack[|stack| - 1];
    var rest := stack[..|stack| - 1];
    F.VisitsConcat(Task(b, a, top), Remaining(b, a, rest), x);
    if x == top {
      assert BlockOk(b, top);
      assert top in Task(b, a, top);
      F.VisitsMember(Task(b, a, top), x);
    } else {
      assert x in rest;
      EntriesRemain(b, a, rest, x);
    }
  }

  lemma {:induction false} RemainingFrame(b: seq<Block>, a: seq<Block>, a': seq<Block>, stack: seq<nat>)
    requires BlocksOk(b) && |a| == |b| && |a'| == |b| && Within(stack, |b|)
    requires forall k :: 0 <= k < |stack| ==> a'[stack[k]] == a[stack[k]]
    ensures Remaining(b, a', stack) == Remaining(b, a, stack)
  {
    if stack != [] {
      RemainingFrame(b, a, a', stack[..|stack| - 1]);
    }
  }

  lemma {:induction false} InOwnOrder(b: seq<Block>, n: nat)
    requires BlocksOk(b) && n < |b|
    ensures F.Visits(FreeOrder(b, n), n) >= 1
  {
    assert BlockOk(b, n);
    F.VisitsConcat(FreeOrder(b, b[n].right), [n] + FreeOrder(b, b[n].down), n);
  }

  lemma {:induction false} BelowIsInTask(b: seq<Block>, a: seq<Block>, n: nat)
    requires BlocksOk(b) && |a| == |b| && n < |b| && a[n] == b[n] && b[n].right != -1
    ensures n < b[n].right < |b| && F.Visits(Task(b, a, n), b[n].right) >= 1
  {
    assert BlockOk(b, n);
    var r := b[n].right;
    InOwnOrder(b, r);
    F.VisitsConcat(FreeOrder(b, r), [n] + FreeOrder(b, b[n].down), r);
  }

  lemma {:induction false} BehindIsInTask(b: seq<Block>, a: seq<Block>, n: nat)
    requires BlocksOk(b) && |a| == |b| && n < |b| && a[n].right == -1 && b[n].down != -1
    ensures n < b[n].down < |b| && F.Visits(Task(b, a, n), b[n].down) >= 1
  {
    assert BlockOk(b, n);
    var d := b[n].down;
    InOwnOrder(b, d);
    F.VisitsConcat([n], FreeOrder(b, d), d);
  }

  /** The children of the top entry are still untouched: a block is in only one place of the order. */
  lemma {:induction false} ChildIsUntouched(b: seq<Block>, a: seq<Block>, stack: seq<nat>, freed: seq<nat>, x: nat)
    requires Freeing(b, a, stack, freed) && stack != [] && x < |b|
    requires x != stack[|stack| - 1] && F.Visits(Task(b, a, stack[|stack| - 1]), x) >= 1
    ensures x !in freed && x !in stack && a[x] == b[x]
  {
    var top := stack[|stack| - 1];
    var rest := stack[..|stack| - 1];
    OnceFromTable(b, x);
    F.VisitsConcat(freed, Remaining(b, a, stack), x);
    F.VisitsConcat(Task(b, a, top), Remaining(b, a, rest), x);
    F.VisitsMember(freed, x);
    if x in rest {
      EntriesRemain(b, a, rest, x);
    }
    assert CutExplained(b, a, stack, freed, x);
  }

  /** No entry of the stack has been freed. */
  lemma {:induction false} EntriesAreAlive(b: seq<Block>, a: seq<Block>, stack: seq<nat>, freed: seq<nat>, x: nat)
    requires Freeing(b, a, stack, freed) && x in stack
    ensures x !in freed
  {
    OnceFromTable(b, x);
    F.VisitsConcat(freed, Remaining(b, a, stack), x);
    EntriesRemain(b, a, stack, x);
    F.VisitsMember(freed, x);
  }

  lemma {:induction false} FreeingStarts(b: seq<Block>)
    requires Shaped(b)
    ensures Freeing(b, b, [1], [])
  {
    assert BlockOk(b, 1);
    assert Deep(b, [1], 0);
    assert [1][..0] == [];
    assert Remaining(b, b, [1]) == Task(b, b, 1) + Remaining(b, b, []);
    assert Task(b, b, 1) == FreeOrder(b, 1);
  }

  lemma {:induction false} DescendCuts(b: seq<Block>, a: seq<Block>, stack: seq<nat>, freed: seq<nat>, i: nat)
    requires |a| == |b| && i < |b| && stack != [] && stack[|stack| - 1] < |b| && a[stack[|stack| - 1]].right >= 0
    requires CutOk(b, a, i) && CutExplained(b, a, stack, freed, i)
    ensures var top := stack[|stack| - 1];
            var a' := a[top := a[top].(right := -1)];
            CutOk(b, a', i) && CutExplained(b, a', stack + [a[top].right], freed, i)
  {
  }

  /** What is known of the section on top: nothing of it has been touched, and there is a slot for it. */
  lemma {:induction false} SectionOnTop(b: seq<Block>, a: seq<Block>, stack: seq<nat>, freed: seq<nat>)
    requires Freeing(b, a, stack, freed) && stack != [] && a[stack[|stack| - 1]].right != -1
    ensures var top := stack[|stack| - 1];
            var r := a[top].right;
            && a[top] == b[top] && top < r < |b| && |stack| < SLOTS && r !in freed && a[r] == b[r]
            && Level(b, r) == |stack| && top !in stack[..|stack| - 1]
  {
    var top := stack[|stack| - 1];
    var rest := stack[..|stack| - 1];
    var r := a[top].right;
    assert BlockOk(b, top) && ParentOk(b, top) && CutOk(b, a, top) && Deep(b, stack, |stack| - 1);
    assert a[top] == b[top];
    assert BlockOk(b, r) && LevelOk(b, r);
    assert Level(b, r) == |stack|;
    BelowIsInTask(b, a, top);
    ChildIsUntouched(b, a, stack, freed, r);
    forall k | 0 <= k < |rest|
      ensures rest[k] != top
    {
      assert Deep(b, stack, k);
    }
  }

  lemma {:induction false} Descend(b: seq<Block>, a: seq<Block>, stack: seq<nat>, freed: seq<nat>)
    requires Freeing(b, a, stack, freed) && stack != [] && a[stack[|stack| - 1]].right != -1
    ensures var top := stack[|stack| - 1];
            var r := a[top].right;
            && top < r < |b| && |stack| < SLOTS && r !in freed
            && Freeing(b, a[top := a[top].(right := -1)], stack + [r], freed)
  {
    SectionOnTop(b, a, stack, freed);
    var top := stack[|stack| - 1];
    var rest := stack[..|stack| - 1];
    var r := a[top].right;
    var a' := a[top := a[top].(right := -1)];
    forall k | 0 <= k < |stack| + 1
      ensures Deep(b, stack + [r], k)
    {
      if k < |stack| { assert Deep(b, stack, k); }
    }
    forall i | 0 <= i < |b|
      ensures CutOk(b, a', i) && CutExplained(b, a', stack + [r], freed, i)
    {
      assert CutOk(b, a, i) && CutExplained(b, a, stack, freed, i);
      DescendCuts(b, a, stack, freed, i);
    }
    assert rest + [top] == stack;
    DescendKeepsRemaining(b, a, rest, top);
  }

  lemma {:induction false} DescendKeepsRemaining(b: seq<Block>, a: seq<Block>, rest: seq<nat>, top: nat)
    requires BlocksOk(b) && |a| == |b| && Within(rest, |b|) && top < |b| && top !in rest
    requires a[top].right != -1 && a[top] == b[top]
    requires top < b[top].right < |b| && a[b[top].right] == b[b[top].right]
    ensures Within(rest + [top], |b|) && Within(rest + [top] + [b[top].right], |b|)
    ensures Remaining(b, a[top := a[top].(right := -1)], rest + [top] + [b[top].right]) == Remaining(b, a, rest + [top])
  {
    var r := b[top].right;
    var a' := a[top := a[top].(right := -1)];
    assert BlockOk(b, top);
    RemainingFrame(b, a, a', rest);
    UntouchedTask(b, a', r);
    UntouchedTask(b, a, top);
    RemainingPush(b, a, rest, top);
    RemainingPush(b, a', rest, top);
    RemainingPush(b, a', rest + [top], r);
    Assoc(FreeOrder(b, r), [top] + FreeOrder(b, b[top].down), Remaining(b, a, rest));
  }

  lemma {:induction false} RemainingPush(b: seq<Block>, a: seq<Block>, rest: seq<nat>, n: nat)
    requires BlocksOk(b) && |a| == |b| && Within(rest, |b|) && n < |b|
    ensures Within(rest + [n], |b|)
    ensures Remaining(b, a, rest + [n]) == Task(b, a, n) + Remaining(b, a, rest)
  {
    assert (rest + [n])[..|rest|] == rest;
  }

  /** The top entry is freed; what stands behind it comes next. */
  lemma {:induction false} RetireKeepsOrder(b: seq<Block>, a: seq<Block>, rest: seq<nat>, top: nat, freed: seq<nat>)
    requires BlocksOk(b) && 1 < |b| && |a| == |b| && Within(rest, |b|) && top < |b| && a[top].right == -1
    requires Within(rest + [top], |b|) && freed + Remaining(b, a, rest + [top]) == FreeOrder(b, 1)
    ensures -1 <= b[top].down < |b|
    ensures (freed + [top]) + (FreeOrder(b, b[top].down) + Remaining(b, a, rest)) == FreeOrder(b, 1)
  {
    assert BlockOk(b, top);
    RemainingPush(b, a, rest, top);
    var behind := FreeOrder(b, b[top].down);
    var later := Remaining(b, a, rest);
    Assoc([top], behind, later);
    Assoc(freed, [top], behind + later);
  }

  lemma {:induction false} RetireLast(b: seq<Block>, a: seq<Block>, stack: seq<nat>, freed: seq<nat>)
    requires Freeing(b, a, stack, freed) && stack != []
    requires a[stack[|stack| - 1]].right == -1 && a[stack[|stack| - 1]].down == -1
    ensures Freeing(b, a, stack[..|stack| - 1], freed + [stack[|stack| - 1]])
  {
    var top := stack[|stack| - 1];
    var rest := stack[..|stack| - 1];
    assert rest + [top] == stack;
    assert CutOk(b, a, top);
    RetireKeepsOrder(b, a, rest, top, freed);
    assert [] + Remaining(b, a, rest) == Remaining(b, a, rest);
    forall k | 0 <= k < |rest|
      ensures Deep(b, rest, k)
    {
      assert Deep(b, stack, k);
    }
    forall i | 0 <= i < |b|
      ensures CutExplained(b, a, rest, freed + [top], i)
    {
      assert CutExplained(b, a, stack, freed, i);
    }
  }

  lemma {:induction false} BehindIsLevel(b: seq<Block>, n: nat)
    requires Shaped(b) && 1 <= n < |b| && b[n].down != -1
    ensures n < b[n].down < |b| && Level(b, b[n].down) == Level(b, n)
  {
    assert BlockOk(b, n) && ParentOk(b, n);
    assert BlockOk(b, b[n].down) && ParentOk(b, b[n].down);
  }

  lemma {:induction false} DeepReplaced(b: seq<Block>, rest: seq<nat>, top: nat, d: nat, k: nat)
    requires BlocksOk(b) && Within(rest + [top], |b|) && d < |b| && top < |b| && k <= |rest|
    requires Within(rest + [d], |b|) && Deep(b, rest + [top], k) && d >= 1 && Level(b, d) == Level(b, top)
    ensures Deep(b, rest + [d], k)
  {
  }

  lemma {:induction false} RetireAndFollow(b: seq<Block>, a: seq<Block>, rest: seq<nat>, top: nat, freed: seq<nat>)
    requires Freeing(b, a, rest + [top], freed)
    requires top < |b| && a[top].right == -1 && a[top].down != -1
    ensures var d := a[top].down;
            top < d < |b| && d !in freed && Freeing(b, a, rest + [d], freed + [top])
  {
    var stack := rest + [top];
    var d := a[top].down;
    assert stack[|rest|] == top && stack[..|rest|] == rest;
    assert Within(rest, |b|) by { assert forall k :: 0 <= k < |rest| ==> stack[k] == rest[k]; }
    assert CutOk(b, a, top) && Deep(b, stack, |rest|);
    BehindIsLevel(b, top);
    BehindIsInTask(b, a, top);
    ChildIsUntouched(b, a, stack, freed, d);
    RetireKeepsOrder(b, a, rest, top, freed);
    UntouchedTask(b, a, d);
    RemainingPush(b, a, rest, d);
    forall k | 0 <= k < |rest| + 1
      ensures Deep(b, rest + [d], k)
    {
      assert Deep(b, stack, k);
      DeepReplaced(b, rest, top, d, k);
    }
    forall i | 0 <= i < |b|
      ensures CutExplained(b, a, rest + [d], freed + [top], i)
    {
      assert CutExplained(b, a, stack, freed, i);
    }
  }

  /** What is freed is a beginning of the order, and all of it when the stack is empty. */
  lemma {:induction false} FreeingGoesOn(b: seq<Block>, a: seq<Block>, stack: seq<nat>, freed: seq<nat>)
    requires Freeing(b, a, stack, freed)
    ensures |freed| <= |FreeOrder(b, 1)|
    ensures stack == [] ==> freed == FreeOrder(b, 1)
    ensures stack != [] ==> stack[|stack| - 1] < |b|
  {
    assert |freed + Remaining(b, a, stack)| == |freed| + |Remaining(b, a, stack)|;
    assert freed + [] == freed;
  }

  /** How much is left to do, by freed blocks and then by the number of the block on top. */
  ghost predicate Sooner(b: seq<Block>, stack: seq<nat>, freed: seq<nat>, top: nat, before: seq<nat>) {
    |freed| > |before| || (|freed| == |before| && stack != [] && stack[|stack| - 1] > top)
  }

  /** One round of the traversal: down into the section on top, or on to its successor, or back. */
  method FreeNext(blocks: array<Block>, stack: array<nat>, depth: nat, freed: seq<nat>, ghost b: seq<Block>)
    returns (d: int, f: seq<nat>)
    requires depth < stack.Length == SLOTS && Freeing(b, blocks[..], stack[..depth + 1], freed)
    modifies blocks, stack
    ensures -1 <= d < SLOTS && Freeing(b, blocks[..], stack[..d + 1], f)
    ensures Sooner(b, stack[..d + 1], f, old(stack[depth]), freed)
  {
    ghost var entries := stack[..depth + 1];
    var n := stack[depth];
    assert entries[|entries| - 1] == n && entries[..|entries| - 1] == stack[..depth];
    EntriesAreAlive(b, blocks[..], entries, freed, n);
    assert n !in freed;
    d, f := depth, freed;
    if blocks[n].right != -1 {
      Descend(b, blocks[..], entries, freed);
      d := depth + 1;
      stack[d] := blocks[n].right;
      blocks[n] := blocks[n].(right := -1);
      assert stack[..d + 1] == entries + [stack[d]];
    } else if blocks[n].down != -1 {
      assert entries == stack[..depth] + [n];
      RetireAndFollow(b, blocks[..], stack[..depth], n, freed);
      stack[d] := blocks[n].down;
      f := freed + [n];
      assert stack[..d + 1] == stack[..depth] + [stack[d]];
    } else {
      RetireLast(b, blocks[..], entries, freed);
      d := depth - 1;
      f := freed + [n];
      assert stack[..d + 1] == entries[..|entries| - 1];
    }
  }

  /** Frees the tree below and behind the table block. `blocks` is the heap the nodes live in; every block the
      loop looks at or changes is one it has not freed, and the traversal stack is never left. */
  method FreePartOfTree(blocks: array<Block>) returns (freed: seq<nat>)
    requires Shaped(blocks[..])
    modifies blocks
    ensures freed == FreeOrder(old(blocks[..]), 1)
  {
    ghost var b := blocks[..];
    var stack := new nat[SLOTS];
    var depth := 0;
    stack[depth] := 1;
    freed := [];
    FreeingStarts(b);
    assert stack[..depth + 1] == [1];
    ghost var total := |FreeOrder(b, 1)|;
    while depth >= 0
      invariant -1 <= depth < SLOTS
      invariant Freeing(b, blocks[..], stack[..depth + 1], freed)
      decreases total - |freed|, if depth >= 0 then |b| - stack[depth] else 0
    {
      FreeingGoesOn(b, blocks[..], stack[..depth + 1], freed);
      depth, freed := FreeNext(blocks, stack, depth, freed, b);
      FreeingGoesOn(b, blocks[..], stack[..depth + 1], freed);
    }
    FreeingGoesOn(b, blocks[..], stack[..depth + 1], freed);
  }
}
