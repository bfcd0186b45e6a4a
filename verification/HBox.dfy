/** Wrapping the elements of a horizontal box into parts, in two passes that must agree: the first counts the
    parts to allocate them, the second fills them.
    Source: source/userspace_library/gui/gui.c:707-784 */
module HBox {

  datatype Item = Item(width: nat, height: nat)

  datatype Part = Part(width: nat, height: nat, count: nat)

  const EMPTY := Part(0, 0, 0)

  function Max(a: nat, b: nat): nat {
    if a > b then a else b
  }

  function Sum(items: seq<Item>): nat {
    if items == [] then 0 else Sum(items[..|items| - 1]) + items[|items| - 1].width
  }

  function Tallest(items: seq<Item>): nat {
    if items == [] then 0 else Max(items[|items| - 1].height, Tallest(items[..|items| - 1]))
  }

  // ----- the counting pass

  /** `width` is that of the elements not yet counted in any part. */
  datatype Tally = Tally(parts: nat, width: nat)

  function Tallied(t: Tally, width: nat, limit: nat): Tally {
    if t.width + width > limit then Tally(t.parts + 1, if t.width > 0 then width else 0)
    else Tally(t.parts, t.width + width)
  }

  function TallyOf(items: seq<Item>, limit: nat, k: nat): Tally
    requires k <= |items|
  {
    if k == 0 then Tally(0, 0) else Tallied(TallyOf(items, limit, k - 1), items[k - 1].width, limit)
  }

  function PartsCounted(items: seq<Item>, limit: nat): nat {
    var t := TallyOf(items, limit, |items|);
    t.parts + (if t.width > 0 then 1 else 0)
  }

  // ----- the filling pass

  datatype Filling = Filling(closed: seq<Part>, open: Part)

  function Filled(f: Filling, item: Item, limit: nat): Filling {
    if f.open.width + item.width > limit then
      if f.open.count > 0 then Filling(f.closed + [f.open], Part(item.width, item.height, 1))
      else Filling(f.closed + [Part(item.width, item.height, 1)], EMPTY)
    else Filling(f.closed, Part(f.open.width + item.width, Max(item.height, f.open.height), f.open.count + 1))
  }

  function FillOf(items: seq<Item>, limit: nat, k: nat): Filling
    requires k <= |items|
  {
    if k == 0 then Filling([], EMPTY) else Filled(FillOf(items, limit, k - 1), items[k - 1], limit)
  }

  function Used(f: Filling): seq<Part> {
    if f.open.count > 0 then f.closed + [f.open] else f.closed
  }

  /** The parts the box ends up with. */
  function Parts(items: seq<Item>, limit: nat): seq<Part> {
    Used(FillOf(items, limit, |items|))
  }

  // ----- when the passes agree

  predicate Oversize(items: seq<Item>, limit: nat, k: nat)
    requires k < |items|
  {
    items[k].width > limit
  }

  predicate ZeroWidths(items: seq<Item>, i: nat, j: nat)
    requires i <= j <= |items|
  {
    forall k :: i <= k < j ==> items[k].width == 0
  }

  /** A run of elements without width that begins the box or follows an oversize element, and is ended by an
      oversize element or the end of the box. */
  predicate LooseRun(items: seq<Item>, limit: nat, i: nat, j: nat) {
    && i < j <= |items|
    && ZeroWidths(items, i, j)
    && (i == 0 || Oversize(items, limit, i - 1))
    && (j == |items| || Oversize(items, limit, j))
  }

  ghost predicate NoLooseRun(items: seq<Item>, limit: nat) {
    forall i: nat, j: nat :: !LooseRun(items, limit, i, j)
  }

  /** Such a run may begin at `k`. */
  predicate Edge(items: seq<Item>, limit: nat, k: nat)
    requires k <= |items|
  {
    k == 0 || Oversize(items, limit, k - 1)
  }

  /** Such a run reaches up to `k`. */
  predicate Pending(items: seq<Item>, limit: nat, k: nat)
    requires k <= |items|
  {
    k > 0 && items[k - 1].width == 0 && (Pending(items, limit, k - 1) || Edge(items, limit, k - 1))
  }

  /** Such a run has been ended by an oversize element before `k`. */
  predicate Broken(items: seq<Item>, limit: nat, k: nat)
    requires k <= |items|
  {
    k > 0 && (Broken(items, limit, k - 1) || (Pending(items, limit, k - 1) && Oversize(items, limit, k - 1)))
  }

  lemma {:induction false} PendingMeans(items: seq<Item>, limit: nat, k: nat)
    requires k <= |items|
    ensures Pending(items, limit, k) <==>
            exists i: nat :: i < k && ZeroWidths(items, i, k) && Edge(items, limit, i)
  {
    if k > 0 {
      PendingMeans(items, limit, k - 1);
      if Pending(items, limit, k) {
        if Pending(items, limit, k - 1) {
          var i: nat :| i < k - 1 && ZeroWidths(items, i, k - 1) && Edge(items, limit, i);
          assert ZeroWidths(items, i, k);
        } else {
          assert ZeroWidths(items, k - 1, k);
        }
      }
      if i: nat :| i < k && ZeroWidths(items, i, k) && Edge(items, limit, i) {
        assert items[k - 1].width == 0;
        if i < k - 1 { assert ZeroWidths(items, i, k - 1); }
      }
    }
  }

  lemma {:induction false} BrokenMeans(items: seq<Item>, limit: nat, k: nat)
    requires k <= |items|
    ensures Broken(items, limit, k) <==>
            exists j: nat :: j < k && Pending(items, limit, j) && Oversize(items, limit, j)
  {
    if k > 0 { BrokenMeans(items, limit, k - 1); }
  }

  lemma {:induction false} LooseRunMeans(items: seq<Item>, limit: nat)
    ensures NoLooseRun(items, limit) <==> !Broken(items, limit, |items|) && !Pending(items, limit, |items|)
  {
    BrokenMeans(items, limit, |items|);
    PendingMeans(items, limit, |items|);
    if i: nat, j: nat :| LooseRun(items, limit, i, j) {
      PendingMeans(items, limit, j);
    }
    if Pending(items, limit, |items|) {
      var i: nat :| i < |items| && ZeroWidths(items, i, |items|) && Edge(items, limit, i);
      assert LooseRun(items, limit, i, |items|);
    }
    if Broken(items, limit, |items|) {
      var j: nat :| j < |items| && Pending(items, limit, j) && Oversize(items, limit, j);
      PendingMeans(items, limit, j);
      var i: nat :| i < j && ZeroWidths(items, i, j) && Edge(items, limit, i);
      assert LooseRun(items, limit, i, j);
    }
  }

  /** How the two passes stand to each other after `k` elements. */
  predicate Together(items: seq<Item>, limit: nat, k: nat)
    requires k <= |items|
  {
    var t, f := TallyOf(items, limit, k), FillOf(items, limit, k);
    var alone := t.width == 0 && f.open.width > limit;
    && (f.open.count == 0 ==> f.open == EMPTY)
    && (if Pending(items, limit, k) then t.width == 0 && f.open.width == 0 && f.open.count > 0
        else alone || (t.width == f.open.width && (t.width > 0 <==> f.open.count > 0)))
    && (f.open.width > limit ==> f.open.count > 0)
    && (Edge(items, limit, k) <==> (t.width == 0 && f.open.count == 0) || f.open.width > limit)
    && t.parts <= |f.closed|
    && (Broken(items, limit, k) <==> t.parts < |f.closed| || alone)
  }

  lemma {:induction false} PassesStayTogether(items: seq<Item>, limit: nat, k: nat)
    requires k <= |items|
    ensures Together(items, limit, k)
  {
    if k > 0 {
      PassesStayTogether(items, limit, k - 1);
    }
  }

  /** The filling pass stays within the counted parts exactly when there is no loose run, and then it uses all
      of them. */
  lemma {:induction false} PassesAgreeIff(items: seq<Item>, limit: nat)
    ensures |Parts(items, limit)| <= PartsCounted(items, limit) <==> NoLooseRun(items, limit)
    ensures |Parts(items, limit)| >= PartsCounted(items, limit)
  {
    PassesStayTogether(items, limit, |items|);
    LooseRunMeans(items, limit);
  }

  /** An element without width before one that is too wide: one part is counted and two are filled. */
  lemma {:induction false} TwoForOne(height: nat)
    ensures var items, limit := [Item(0, height), Item(5, height)], 3;
            && LooseRun(items, limit, 0, 1) && Sum(items) > limit
            && PartsCounted(items, limit) == 1 && |Parts(items, limit)| == 2
  {
    var items, limit := [Item(0, height), Item(5, height)], 3;
    assert TallyOf(items, limit, 1) == Tally(0, 0) && TallyOf(items, limit, 2) == Tally(1, 0);
    assert FillOf(items, limit, 1) == Filling([], Part(0, height, 1));
    assert FillOf(items, limit, 2) == Filling([] + [Part(0, height, 1)], Part(5, height, 1));
    assert items[..1] == [Item(0, height)] && items[..1][..0] == [];
    assert Sum(items[..1]) == 0;
  }

  /** Elements of width 1 to the limit always agree. */
  lemma {:induction false} ProperWidthsAgree(items: seq<Item>, limit: nat)
    requires forall k :: 0 <= k < |items| ==> 1 <= items[k].width <= limit
    ensures |Parts(items, limit)| == PartsCounted(items, limit)
  {
    PassesAgreeIff(items, limit);
    forall i: nat, j: nat
      ensures !LooseRun(items, limit, i, j)
    {
      if i < j <= |items| && ZeroWidths(items, i, j) { assert items[i].width == 0; }
    }
  }

  lemma {:induction false} UsedGrows(items: seq<Item>, limit: nat, k: nat, n: nat)
    requires k <= n <= |items|
    ensures |Used(FillOf(items, limit, k))| <= |Used(FillOf(items, limit, n))|
    decreases n
  {
    if k < n { UsedGrows(items, limit, k, n - 1); }
  }

  // ----- what the parts are

  /** The parts are consecutive runs of the elements, with the runs' widths and heights. */
  predicate Covers(parts: seq<Part>, items: seq<Item>)
    decreases |parts|
  {
    if parts == [] then items == []
    else
      var p := parts[|parts| - 1];
      && 1 <= p.count <= |items|
      && p.width == Sum(items[|items| - p.count..])
      && p.height == Tallest(items[|items| - p.count..])
      && Covers(parts[..|parts| - 1], items[..|items| - p.count])
  }

  /** `open` describes the last elements, the closed parts the others. */
  predicate FillCovers(f: Filling, items: seq<Item>) {
    && f.open.count <= |items|
    && f.open.width == Sum(items[|items| - f.open.count..])
    && f.open.height == Tallest(items[|items| - f.open.count..])
    && Covers(f.closed, items[..|items| - f.open.count])
  }

  lemma {:induction false} AppendItem(items: seq<Item>, item: Item, from: nat)
    requires from <= |items|
    ensures (items + [item])[from..] == items[from..] + [item]
    ensures Sum(items[from..] + [item]) == Sum(items[from..]) + item.width
    ensures Tallest(items[from..] + [item]) == Max(item.height, Tallest(items[from..]))
  {
    assert (items[from..] + [item])[..|items| - from] == items[from..];
  }

  lemma {:induction false} OneItem(item: Item)
    ensures Sum([item]) == item.width && Tallest([item]) == item.height
  {
    assert [item][..0] == [];
  }

  lemma {:induction false} CloseCovers(closed: seq<Part>, p: Part, items: seq<Item>)
    requires 1 <= p.count <= |items|
    requires p.width == Sum(items[|items| - p.count..]) && p.height == Tallest(items[|items| - p.count..])
    requires Covers(closed, items[..|items| - p.count])
    ensures Covers(closed + [p], items)
  {
    assert (closed + [p])[..|closed|] == closed;
  }

  lemma {:induction false} WidenCovers(f: Filling, items: seq<Item>, item: Item, limit: nat)
    requires FillCovers(f, items) && f.open.width + item.width <= limit
    ensures FillCovers(Filled(f, item, limit), items + [item])
  {
    var all, from := items + [item], |items| - f.open.count;
    AppendItem(items, item, from);
    var g := Filled(f, item, limit);
    assert g == Filling(f.closed, Part(f.open.width + item.width, Max(item.height, f.open.height), f.open.count + 1));
    assert |all| - g.open.count == from && all[..from] == items[..from];
  }

  lemma {:induction false} LastAlone(items: seq<Item>, item: Item)
    ensures (items + [item])[|items|..] == [item] && (items + [item])[..|items|] == items
  {
  }

  lemma {:induction false} CloseThenOpen(f: Filling, items: seq<Item>, item: Item)
    requires FillCovers(f, items) && f.open.count > 0
    ensures FillCovers(Filling(f.closed + [f.open], Part(item.width, item.height, 1)), items + [item])
  {
    var all := items + [item];
    LastAlone(items, item);
    OneItem(item);
    CloseCovers(f.closed, f.open, items);
    assert |all| - 1 == |items|;
  }

  lemma {:induction false} CloseAlone(f: Filling, items: seq<Item>, item: Item)
    requires FillCovers(f, items) && f.open.count == 0
    ensures FillCovers(Filling(f.closed + [Part(item.width, item.height, 1)], EMPTY), items + [item])
  {
    var all := items + [item];
    LastAlone(items, item);
    OneItem(item);
    assert items[..|items| - 0] == items;
    CloseCovers(f.closed, Part(item.width, item.height, 1), all);
    assert all[..|all| - 0] == all && all[|all|..] == [];
  }

  lemma {:induction false} NextCovers(f: Filling, items: seq<Item>, item: Item, limit: nat)
    requires FillCovers(f, items)
    ensures FillCovers(Filled(f, item, limit), items + [item])
  {
    if f.open.width + item.width <= limit {
      WidenCovers(f, items, item, limit);
    } else if f.open.count > 0 {
      CloseThenOpen(f, items, item);
    } else {
      CloseAlone(f, items, item);
    }
  }

  lemma {:induction false} FillOfCovers(items: seq<Item>, limit: nat, k: nat)
    requires k <= |items|
    ensures FillCovers(FillOf(items, limit, k), items[..k])
  {
    if k == 0 {
      assert items[..0] == [];
    } else {
      FillOfCovers(items, limit, k - 1);
      var f, before, item := FillOf(items, limit, k - 1), items[..k - 1], items[k - 1];
      NextCovers(f, before, item, limit);
      assert items[..k] == before + [item];
      assert FillOf(items, limit, k) == Filled(f, item, limit);
    }
  }

  /** Too wide is only a part that is a single element. */
  predicate Fits(p: Part, limit: nat) {
    p.width <= limit || p.count == 1
  }

  predicate AllFit(parts: seq<Part>, limit: nat) {
    forall k :: 0 <= k < |parts| ==> Fits(parts[k], limit)
  }

  lemma {:induction false} FillOfFits(items: seq<Item>, limit: nat, k: nat)
    requires k <= |items|
    ensures AllFit(FillOf(items, limit, k).closed, limit) && Fits(FillOf(items, limit, k).open, limit)
  {
    if k > 0 { FillOfFits(items, limit, k - 1); }
  }

  /** For all elements: the parts are consecutive, cover every element once in order, and none is wider than the
      limit unless it is a single element. */
  lemma {:induction false} PartsPartition(items: seq<Item>, limit: nat)
    ensures Covers(Parts(items, limit), items) && AllFit(Parts(items, limit), limit)
  {
    var f := FillOf(items, limit, |items|);
    FillOfCovers(items, limit, |items|);
    FillOfFits(items, limit, |items|);
    assert items[..|items|] == items;
    if f.open.count > 0 {
      CloseCovers(f.closed, f.open, items);
    } else {
      assert items[..|items| - 0] == items;
    }
  }

  // ----- no partition has fewer parts

  /** Another way to wrap: `starts[k]` says that element `k` begins a part. */
  function Other(items: seq<Item>, starts: seq<bool>, k: nat): Tally
    requires k <= |items| == |starts|
  {
    if k == 0 then Tally(0, 0)
    else
      var t := Other(items, starts, k - 1);
      if starts[k - 1] || k == 1 then Tally(t.parts + 1, items[k - 1].width)
      else Tally(t.parts, t.width + items[k - 1].width)
  }

  predicate OtherFits(items: seq<Item>, starts: seq<bool>, limit: nat)
    requires |items| == |starts|
  {
    forall k :: 0 <= k <= |items| ==> Other(items, starts, k).width <= limit
  }

  lemma {:induction false} GreedyStaysAhead(items: seq<Item>, starts: seq<bool>, limit: nat, k: nat)
    requires |items| == |starts| && OtherFits(items, starts, limit) && k <= |items|
    requires forall i :: 0 <= i < |items| ==> items[i].width <= limit
    ensures var f, t := FillOf(items, limit, k), Other(items, starts, k);
            && (k > 0 ==> f.open.count > 0)
            && (|Used(f)| < t.parts || (|Used(f)| == t.parts && f.open.width <= t.width))
  {
    if k > 0 {
      GreedyStaysAhead(items, starts, limit, k - 1);
      assert Other(items, starts, k).width <= limit;
      assert items[k - 1].width <= limit;
    }
  }

  /** No way to wrap elements that each fit, in order and within the limit, takes fewer parts. */
  lemma {:induction false} PartsAreMinimal(items: seq<Item>, starts: seq<bool>, limit: nat)
    requires |items| == |starts| && OtherFits(items, starts, limit)
    requires forall i :: 0 <= i < |items| ==> items[i].width <= limit
    ensures |Parts(items, limit)| <= Other(items, starts, |items|).parts
  {
    GreedyStaysAhead(items, starts, limit, |items|);
  }

  // ----- the two passes as they run

  function Widest(parts: seq<Part>): nat {
    if parts == [] then 0 else Max(parts[|parts| - 1].width, Widest(parts[..|parts| - 1]))
  }

  function TotalHeight(parts: seq<Part>): nat {
    if parts == [] then 0 else TotalHeight(parts[..|parts| - 1]) + parts[|parts| - 1].height
  }

  /** The width of the widest: none is wider, and one is as wide. */
  lemma {:induction false} WidestIs(parts: seq<Part>)
    ensures forall k :: 0 <= k < |parts| ==> parts[k].width <= Widest(parts)
    ensures parts != [] ==> exists k :: 0 <= k < |parts| && parts[k].width == Widest(parts)
    ensures parts == [] ==> Widest(parts) == 0
  {
    if parts != [] {
      var n := |parts| - 1;
      WidestIs(parts[..n]);
      forall k | 0 <= k < |parts| ensures parts[k].width <= Widest(parts) {
        if k < n { assert parts[..n][k] == parts[k]; }
      }
      if parts[n].width != Widest(parts) {
        var k :| 0 <= k < n && parts[..n][k].width == Widest(parts[..n]);
        assert parts[k].width == Widest(parts);
      }
    }
  }

  /** The heights of parts one below the other add up. */
  lemma {:induction false} HeightsAddUp(a: seq<Part>, b: seq<Part>)
    ensures TotalHeight(a + b) == TotalHeight(a) + TotalHeight(b)
    ensures |b| == 1 ==> TotalHeight(b) == b[0].height
  {
    if b == [] {
      assert a + b == a;
    } else {
      var n := |b| - 1;
      assert (a + b)[..|a + b| - 1] == a + b[..n];
      HeightsAddUp(a, b[..n]);
    }
  }

  method CountParts(items: seq<Item>, limit: nat) returns (n: nat)
    ensures n == PartsCounted(items, limit)
  {
    n := 0;
    var partWidth: nat := 0;
    for i: nat := 0 to |items|
      invariant TallyOf(items, limit, i) == Tally(n, partWidth)
    {
      if partWidth + items[i].width > limit {
        n := n + 1;
        if partWidth > 0 {
          partWidth := items[i].width;
        } else {
          partWidth := 0;
        }
      } else {
        partWidth := partWidth + items[i].width;
      }
    }
    if partWidth > 0 {
      n := n + 1;
    }
  }

  /** What the array holds while it is filled: the closed parts, the open one, zeroes. */
  predicate Holds(parts: seq<Part>, f: Filling) {
    && |f.closed| <= |parts| && parts[..|f.closed|] == f.closed
    && (forall k :: |f.closed| < k < |parts| ==> parts[k] == EMPTY)
    && (|f.closed| < |parts| ==> parts[|f.closed|] == f.open)
  }

  /** The next element would be put, or looked for, behind the last of `n` parts. */
  predicate Outside(f: Filling, item: Item, limit: nat, n: nat) {
    |f.closed| >= n || (f.open.width + item.width > limit && f.open.count > 0 && |f.closed| + 1 >= n)
  }

  lemma {:induction false} OutsideIsTooMany(items: seq<Item>, limit: nat, k: nat, n: nat)
    requires k < |items| && |FillOf(items, limit, k).closed| <= n
    ensures Outside(FillOf(items, limit, k), items[k], limit, n) <==> |Used(FillOf(items, limit, k + 1))| > n
  {
  }

  /** One element of the filling pass; `part` is the index of the open part. */
  method FillOne(parts: array<Part>, part: nat, item: Item, limit: nat, ghost f: Filling) returns (next: nat)
    requires part == |f.closed| < parts.Length && |Used(Filled(f, item, limit))| <= parts.Length
    requires Holds(parts[..], f) && (f.open.count == 0 ==> f.open == EMPTY)
    modifies parts
    ensures next == |Filled(f, item, limit).closed| && Holds(parts[..], Filled(f, item, limit))
  {
    next := part;
    assert parts[part] == f.open;
    ghost var before := parts[..];
    if parts[part].width + item.width > limit {
      if parts[part].count > 0 {
        next := part + 1;
        parts[next] := Part(item.width, item.height, 1);
        assert parts[..next] == before[..part] + [f.open];
      } else {
        parts[part] := Part(item.width, item.height, 1);
        next := part + 1;
        assert parts[..next] == before[..part] + [Part(item.width, item.height, 1)];
      }
    } else {
      parts[part] := Part(parts[part].width + item.width, Max(item.height, parts[part].height), parts[part].count + 1);
      assert parts[..part] == before[..part];
    }
  }

  lemma {:induction false} EmptyIsZero(items: seq<Item>, limit: nat, k: nat)
    requires k <= |items|
    ensures FillOf(items, limit, k).open.count == 0 ==> FillOf(items, limit, k).open == EMPTY
  {
    PassesStayTogether(items, limit, k);
  }

  /** One element of the filling pass, unless the source would leave its array for it. */
  method FillNext(parts: array<Part>, part: nat, items: seq<Item>, i: nat, limit: nat) returns (inside: bool, next: nat)
    requires i < |items| && part == |FillOf(items, limit, i).closed| && Holds(parts[..], FillOf(items, limit, i))
    requires |Used(FillOf(items, limit, i))| <= parts.Length
    modifies parts
    ensures inside <==> !Outside(FillOf(items, limit, i), items[i], limit, parts.Length)
    ensures inside <==> |Used(FillOf(items, limit, i + 1))| <= parts.Length
    ensures inside ==> next == |FillOf(items, limit, i + 1).closed| && Holds(parts[..], FillOf(items, limit, i + 1))
    ensures !inside ==> parts[..] == old(parts[..])
  {
    EmptyIsZero(items, limit, i);
    OutsideIsTooMany(items, limit, i, parts.Length);
    next := part;
    if part >= parts.Length {
      return false, next;
    }
    if parts[part].width + items[i].width > limit && parts[part].count > 0 && part + 1 >= parts.Length {
      return false, next;
    }
    next := FillOne(parts, part, items[i], limit, FillOf(items, limit, i));
    return true, next;
  }

  /** The pass has come to an element for which the source leaves its array. */
  ghost predicate Stuck(parts: seq<Part>, items: seq<Item>, limit: nat) {
    exists k: nat :: k < |items| && Holds(parts, FillOf(items, limit, k)) &&
      Outside(FillOf(items, limit, k), items[k], limit, |parts|)
  }

  lemma {:induction false} StuckIsLoose(parts: seq<Part>, items: seq<Item>, limit: nat, k: nat)
    requires k < |items| && Holds(parts, FillOf(items, limit, k)) && |parts| == PartsCounted(items, limit)
    requires Outside(FillOf(items, limit, k), items[k], limit, |parts|)
    requires |Used(FillOf(items, limit, k + 1))| > |parts|
    ensures Stuck(parts, items, limit) && !NoLooseRun(items, limit)
  {
    UsedGrows(items, limit, k + 1, |items|);
    PassesAgreeIff(items, limit);
  }

  lemma {:induction false} AllUsed(parts: seq<Part>, items: seq<Item>, limit: nat)
    requires Holds(parts, FillOf(items, limit, |items|))
    requires |Parts(items, limit)| <= |parts| == PartsCounted(items, limit)
    ensures parts == Parts(items, limit) && NoLooseRun(items, limit)
  {
    PassesAgreeIff(items, limit);
    var f := FillOf(items, limit, |items|);
    assert f.open.count == 0 ==> parts == f.closed;
    assert f.open.count > 0 ==> parts == f.closed + [f.open];
  }

  /** The filling pass. The source does not look at the number of parts; where it would leave its array, this stops
      with `inside` false and in the array what the source has put there before. */
  method FillParts(items: seq<Item>, limit: nat, parts: array<Part>) returns (inside: bool)
    requires parts.Length == PartsCounted(items, limit)
    requires forall k :: 0 <= k < parts.Length ==> parts[k] == EMPTY
    modifies parts
    ensures inside <==> NoLooseRun(items, limit)
    ensures inside ==> parts[..] == Parts(items, limit)
    ensures !inside ==> Stuck(parts[..], items, limit)
  {
    var part := 0;
    for i: nat := 0 to |items|
      invariant part == |FillOf(items, limit, i).closed| && Holds(parts[..], FillOf(items, limit, i))
      invariant |Used(FillOf(items, limit, i))| <= parts.Length
    {
      inside, part := FillNext(parts, part, items, i, limit);
      if !inside {
        StuckIsLoose(parts[..], items, limit, i);
        return;
      }
    }
    inside := true;
    AllUsed(parts[..], items, limit);
  }

  /** The layout of a box; `inside` tells whether the source stays within the array of parts it has counted. */
  method Layout(items: seq<Item>, wrap: bool, limit: nat)
    returns (inside: bool, parts: array<Part>, width: nat, height: nat)
    ensures fresh(parts)
    ensures inside <==> !(wrap && Sum(items) > limit) || NoLooseRun(items, limit)
    ensures inside ==> parts[..] == if wrap && Sum(items) > limit then Parts(items, limit) else []
    ensures inside ==> width == if wrap && Sum(items) > limit then Widest(Parts(items, limit)) else Sum(items)
    ensures inside ==> height == if wrap && Sum(items) > limit then TotalHeight(Parts(items, limit)) else Tallest(items)
    ensures forall k :: inside && 0 <= k < parts.Length ==> parts[k].width <= width
  {
    width, height := 0, 0;
    for i: nat := 0 to |items|
      invariant width == Sum(items[..i]) && height == Tallest(items[..i])
    {
      assert items[..i + 1][..i] == items[..i];
      width := width + items[i].width;
      height := Max(items[i].height, height);
    }
    assert items[..|items|] == items;
    if wrap && width > limit {
      var n := CountParts(items, limit);
      parts := new Part[n](_ => EMPTY);
      inside := FillParts(items, limit, parts);
      width, height := 0, 0;
      for i: nat := 0 to n
        invariant width == Widest(parts[..i]) && height == TotalHeight(parts[..i])
      {
        assert parts[..i + 1][..i] == parts[..i];
        width := Max(parts[i].width, width);
        height := height + parts[i].height;
      }
      assert parts[..n] == parts[..];
      WidestIs(parts[..]);
      assert forall k :: 0 <= k < n ==> parts[..][k] == parts[k];
    } else {
      inside, parts := true, new Part[0];
    }
  }
}
