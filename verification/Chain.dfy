/** Singly linked lists in an arena: `next` holds indices, -1 is NULL, and `order` lists the nodes from the head. */
module Chain {

  const NIL: int := -1

  predicate Link(next: seq<int>, order: seq<nat>, k: nat)
    requires k < |order|
  {
    && order[k] < |next|
    && next[order[k]] == (if k + 1 < |order| then order[k + 1] else NIL)
  }

  predicate Distinct(order: seq<nat>) {
    forall k, l :: 0 <= k < l < |order| ==> order[k] != order[l]
  }

  predicate Chained(head: int, next: seq<int>, order: seq<nat>) {
    && head == (if order == [] then NIL else order[0])
    && (forall k :: 0 <= k < |order| ==> Link(next, order, k))
    && Distinct(order)
  }

  function Without(order: seq<nat>, p: nat): seq<nat> {
    if order == [] then [] else if order[0] == p then order[1..] else [order[0]] + Without(order[1..], p)
  }

  /** The node before `p` when walking from `at`, in at most `fuel` moves. */
  function Before(next: seq<int>, at: int, p: nat, fuel: nat): int
    decreases fuel
  {
    if fuel == 0 || !(0 <= at < |next|) then NIL
    else if next[at] == p then at
    else Before(next, next[at], p, fuel - 1)
  }

  lemma IndexIn(order: seq<nat>, p: nat) returns (k: nat)
    requires p in order
    ensures k < |order| && order[k] == p
  {
    k :| 0 <= k < |order| && order[k] == p;
  }

  lemma {:induction false} WithoutDrops(order: seq<nat>, k: nat)
    requires k < |order| && Distinct(order)
    ensures Without(order, order[k]) == order[..k] + order[k + 1..]
  {
    if k == 0 {
      assert order[..0] + order[1..] == order[1..];
    } else {
      var rest := order[1..];
      assert rest[k - 1] == order[k] && order[0] != order[k];
      WithoutDrops(rest, k - 1);
      assert order[..k] == [order[0]] + rest[..k - 1] && rest[k..] == order[k + 1..];
      assert [order[0]] + (rest[..k - 1] + rest[k..]) == order[..k] + order[k + 1..];
    }
  }

  lemma {:induction false} OthersStay(order: seq<nat>, k: nat, p: nat)
    requires k < |order| && p in order && p != order[k]
    ensures p in order[..k] + order[k + 1..]
  {
    var i := IndexIn(order, p);
    assert i < k ==> (order[..k] + order[k + 1..])[i] == p;
    assert i > k ==> (order[..k] + order[k + 1..])[i - 1] == p;
  }

  /** An unlinked node still leads back into the list. */
  lemma {:induction false} LeadsBack(head: int, next: seq<int>, order: seq<nat>, k: nat)
    requires Chained(head, next, order) && k < |order|
    ensures order[k] < |next| && order[k] !in Without(order, order[k])
    ensures next[order[k]] == NIL || (next[order[k]] >= 0 && next[order[k]] in Without(order, order[k]))
    ensures forall p :: p in Without(order, order[k]) ==> p in order
  {
    WithoutDrops(order, k);
    assert Link(next, order, k);
    var rest := order[..k] + order[k + 1..];
    if k + 1 < |order| { assert rest[k] == order[k + 1]; }
  }

  lemma {:induction false} DistinctBelow(order: seq<nat>, n: nat)
    requires Distinct(order) && forall i :: 0 <= i < |order| ==> order[i] < n
    ensures |order| <= n
  {
    if order != [] {
      var first := order[0];
      assert first < n;
      if exists k :: 0 <= k < |order| && order[k] == n - 1 {
        var k :| 0 <= k < |order| && order[k] == n - 1;
        DistinctBelow(order[..k] + order[k + 1..], n - 1);
      } else {
        DistinctBelow(order, n - 1);
      }
    }
  }

  /** A list is never longer than its arena. */
  lemma {:induction false} ChainFits(head: int, next: seq<int>, order: seq<nat>)
    requires Chained(head, next, order)
    ensures |order| <= |next|
  {
    forall k | 0 <= k < |order| ensures order[k] < |next| { assert Link(next, order, k); }
    DistinctBelow(order, |next|);
  }

  /** The walk finds the node before another one. */
  lemma {:induction false} WalkFinds(head: int, next: seq<int>, order: seq<nat>, at: nat, k: nat, fuel: nat)
    requires Chained(head, next, order) && at < k < |order| && fuel >= k - at
    ensures Before(next, order[at], order[k], fuel) == order[k - 1]
    decreases k - at
  {
    assert Link(next, order, at);
    if at + 1 < k {
      WalkFinds(head, next, order, at + 1, k, fuel - 1);
    }
  }

  lemma {:induction false} PushChained(head: int, next: seq<int>, order: seq<nat>)
    requires Chained(head, next, order)
    ensures Chained(|next|, next + [head], [|next|] + order)
  {
    forall k | 0 <= k < |order| ensures order[k] < |next| { assert Link(next, order, k); }
    forall k | 0 <= k < 1 + |order|
      ensures Link(next + [head], [|next|] + order, k)
    {
      if k > 0 { assert Link(next, order, k - 1); }
    }
  }

  /** The head after the node at place `k` is unlinked, and the links. */
  function HeadWithout(head: int, next: seq<int>, order: seq<nat>, k: nat): int
    requires k < |order| && order[k] < |next|
  {
    if k == 0 then next[order[k]] else head
  }

  function NextWithout(next: seq<int>, order: seq<nat>, k: nat): seq<int>
    requires k < |order| && order[k] < |next| && (k > 0 ==> order[k - 1] < |next|)
  {
    if k == 0 then next else next[order[k - 1] := next[order[k]]]
  }

  /** Closing the list over the node at place `k` takes it out and changes nothing else. */
  lemma {:induction false} UnlinkChained(head: int, next: seq<int>, order: seq<nat>, k: nat)
    requires Chained(head, next, order) && k < |order|
    ensures order[k] < |next| && (k > 0 ==> order[k - 1] < |next|)
    ensures Chained(HeadWithout(head, next, order, k), NextWithout(next, order, k), Without(order, order[k]))
    ensures Without(order, order[k]) == order[..k] + order[k + 1..]
  {
    WithoutDrops(order, k);
    assert Link(next, order, k);
    if k > 0 { assert Link(next, order, k - 1); }
    var rest := order[..k] + order[k + 1..];
    var links := NextWithout(next, order, k);
    forall i | 0 <= i < |rest|
      ensures Link(links, rest, i)
    {
      var j := if i < k then i else i + 1;
      assert Link(next, order, j) && rest[i] == order[j];
      if i + 1 < |rest| { assert rest[i + 1] == order[if i + 1 < k then i + 1 else i + 2]; }
    }
  }
}
