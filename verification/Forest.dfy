/** First-child/next-sibling trees in an arena: links are arena indices, -1 is the null pointer. */
module Forest {

  datatype Link = Link(first: int, next: int)

  predicate NullOrAfter(f: seq<Link>, i: int, target: int) {
    target == -1 || i < target < |f|
  }

  /** Links lead to younger nodes only, so walking down always ends. */
  predicate Forward(f: seq<Link>) {
    forall i :: 0 <= i < |f| ==> NullOrAfter(f, i, f[i].first) && NullOrAfter(f, i, f[i].next)
  }

  predicate Points(f: seq<Link>, i: nat, j: nat)
    requires i < |f|
  {
    f[i].first == j || f[i].next == j
  }

  /** The links of `i` are the ones its targets remember, and they differ. */
  predicate Remembered(f: seq<Link>, pred: seq<nat>, i: nat)
    requires Forward(f) && |pred| == |f| && i < |f|
  {
    assert NullOrAfter(f, i, f[i].first) && NullOrAfter(f, i, f[i].next);
    && (f[i].first != -1 ==> pred[f[i].first] == i && f[i].first != f[i].next)
    && (f[i].next != -1 ==> pred[f[i].next] == i)
  }

  /** Nothing points at node 0, and every other node is the target of exactly one link: the `first` or
      the `next` of `pred[j]`. */
  predicate LinkedOnce(f: seq<Link>, pred: seq<nat>) {
    && Forward(f)
    && |pred| == |f|
    && (forall j :: 1 <= j < |f| ==> pred[j] < j)
    && (forall j :: 1 <= j < |f| ==> Points(f, pred[j], j))
    && (forall i :: 0 <= i < |f| ==> Remembered(f, pred, i))
  }

  ghost predicate TreeShaped(f: seq<Link>) {
    exists pred :: LinkedOnce(f, pred)
  }

  /** The nodes met from `n` on: the node, what hangs below it, then its later siblings. */
  function Preorder(f: seq<Link>, n: int): seq<nat>
    requires Forward(f) && -1 <= n < |f|
    decreases if n == -1 then 0 else |f| - n
  {
    if n == -1 then [] else [n] + (Preorder(f, f[n].first) + Preorder(f, f[n].next))
  }

  function Visits(s: seq<nat>, x: nat): nat {
    if s == [] then 0 else (if s[0] == x then 1 else 0) + Visits(s[1..], x)
  }

  lemma {:induction false} VisitsConcat(s: seq<nat>, t: seq<nat>, x: nat)
    ensures Visits(s + t, x) == Visits(s, x) + Visits(t, x)
  {
    if s == [] {
      assert s + t == t;
    } else {
      assert (s + t)[1..] == s[1..] + t;
      VisitsConcat(s[1..], t, x);
    }
  }

  function VisitsFrom(f: seq<Link>, n: int, x: nat): nat
    requires Forward(f) && -1 <= n < |f|
  {
    Visits(Preorder(f, n), x)
  }

  lemma VisitsUnfold(f: seq<Link>, n: nat, x: nat)
    requires Forward(f) && n < |f|
    ensures VisitsFrom(f, n, x) ==
            (if n == x then 1 else 0) + VisitsFrom(f, f[n].first, x) + VisitsFrom(f, f[n].next, x)
  {
    var below := Preorder(f, f[n].first);
    var after := Preorder(f, f[n].next);
    VisitsConcat(below, after, x);
    VisitsConcat([n], below + after, x);
    assert Visits([n], x) == if n == x then 1 else 0;
  }

  lemma {:induction false} OnlyLaterNodes(f: seq<Link>, n: int, x: nat)
    requires Forward(f) && -1 <= n < |f| && (n == -1 || x < n || |f| <= x)
    ensures VisitsFrom(f, n, x) == 0
    decreases if n == -1 then 0 else |f| - n
  {
    if n != -1 {
      VisitsUnfold(f, n, x);
      OnlyLaterNodes(f, f[n].first, x);
      OnlyLaterNodes(f, f[n].next, x);
    }
  }

  /** A walk meets `x` once for starting there and once for every time it meets the node before it. */
  lemma {:induction false} VisitsThroughPred(f: seq<Link>, pred: seq<nat>, n: int, x: nat)
    requires LinkedOnce(f, pred) && -1 <= n < |f| && 1 <= x < |f|
    ensures VisitsFrom(f, n, x) == (if n == x then 1 else 0) + VisitsFrom(f, n, pred[x])
    decreases if n == -1 then 0 else |f| - n
  {
    if n != -1 {
      VisitsUnfold(f, n, x);
      VisitsUnfold(f, n, pred[x]);
      VisitsThroughPred(f, pred, f[n].first, x);
      VisitsThroughPred(f, pred, f[n].next, x);
      LinksToOnce(f, pred, n, x);
    }
  }

  lemma LinksToOnce(f: seq<Link>, pred: seq<nat>, n: nat, x: nat)
    requires LinkedOnce(f, pred) && n < |f| && 1 <= x < |f|
    ensures (if f[n].first == x then 1 else 0) + (if f[n].next == x then 1 else 0) == (if n == pred[x] then 1 else 0)
  {
    assert Points(f, pred[x], x);
    assert Remembered(f, pred, n) && Remembered(f, pred, pred[x]);
    assert NullOrAfter(f, n, f[n].first) && NullOrAfter(f, n, f[n].next);
  }

  lemma {:induction false} EachVisitedOnce(f: seq<Link>, pred: seq<nat>, x: nat)
    requires LinkedOnce(f, pred) && x < |f|
    ensures VisitsFrom(f, 0, x) == 1
  {
    if x == 0 {
      VisitsUnfold(f, 0, 0);
      OnlyLaterNodes(f, f[0].first, 0);
      OnlyLaterNodes(f, f[0].next, 0);
    } else {
      VisitsThroughPred(f, pred, 0, x);
      EachVisitedOnce(f, pred, pred[x]);
    }
  }

  /** In a tree-shaped arena the preorder from node 0 meets every node exactly once. */
  lemma PreorderIsComplete(f: seq<Link>)
    requires TreeShaped(f) && f != []
    ensures Forward(f)
    ensures forall x: nat :: Visits(Preorder(f, 0), x) == if x < |f| then 1 else 0
  {
    var pred :| LinkedOnce(f, pred);
    forall x: nat
      ensures Visits(Preorder(f, 0), x) == if x < |f| then 1 else 0
    {
      if x < |f| {
        EachVisitedOnce(f, pred, x);
      } else {
        OnlyLaterNodes(f, 0, x);
      }
      assert VisitsFrom(f, 0, x) == Visits(Preorder(f, 0), x);
    }
  }

  lemma {:induction false} VisitsMember(s: seq<nat>, x: nat)
    ensures x in s <==> Visits(s, x) > 0
  {
    if s != [] {
      VisitsMember(s[1..], x);
      assert s == [s[0]] + s[1..];
    }
  }

  // ----- growing the tree

  /** Hanging a new last node below `p` (as first child) or after `p` (as next sibling). */
  function Grown(f: seq<Link>, p: nat, asFirst: bool): seq<Link>
    requires p < |f|
  {
    f[p := if asFirst then f[p].(first := |f|) else f[p].(next := |f|)] + [Link(-1, -1)]
  }

  lemma GrownLinkedOnce(f: seq<Link>, pred: seq<nat>, p: nat, asFirst: bool)
    requires LinkedOnce(f, pred) && p < |f|
    requires if asFirst then f[p].first == -1 else f[p].next == -1
    ensures LinkedOnce(Grown(f, p, asFirst), pred + [p])
  {
    var g := Grown(f, p, asFirst);
    assert forall i :: 0 <= i < |f| && i != p ==> g[i] == f[i];
    assert forall i :: 0 <= i < |f| ==> NullOrAfter(f, i, f[i].first) && NullOrAfter(f, i, f[i].next);
    forall j | 1 <= j < |g|
      ensures Points(g, (pred + [p])[j], j)
    {
      if j < |f| {
        assert Points(f, pred[j], j);
      }
    }
    forall i | 0 <= i < |g|
      ensures Remembered(g, pred + [p], i)
    {
      if i < |f| {
        assert Remembered(f, pred, i);
      }
    }
  }

  lemma GrownTreeShaped(f: seq<Link>, p: nat, asFirst: bool)
    requires TreeShaped(f) && p < |f|
    requires if asFirst then f[p].first == -1 else f[p].next == -1
    ensures TreeShaped(Grown(f, p, asFirst))
  {
    var pred :| LinkedOnce(f, pred);
    GrownLinkedOnce(f, pred, p, asFirst);
  }
}
