/** The tree of hardware devices and the stackless walk that counts the uninitialised ones.
    Source: source/kernel/hardware/main.c */
module HardwareTree {
  import opened Forest

  /** A `hardware_t`; pointers are indices into the arena of allocated nodes, -1 is NULL. */
  datatype Device = Device(initialized: bool, controller: int, prev: int, next: int, firstDevice: int)

  function Links(devices: seq<Device>): (f: seq<Link>)
    ensures |f| == |devices|
    ensures forall i :: 0 <= i < |f| ==> f[i] == Link(devices[i].firstDevice, devices[i].next)
  {
    seq(|devices|, i requires 0 <= i < |devices| => Link(devices[i].firstDevice, devices[i].next))
  }

  /** Both pointers of `i` lead to younger devices, which know their parent and their predecessor. */
  predicate DeviceOk(d: seq<Device>, i: nat)
    requires i < |d|
  {
    var first, next := d[i].firstDevice, d[i].next;
    && (first == -1 || (i < first < |d| && d[first].controller == i && d[first].prev == -1))
    && (next == -1 || (i < next < |d| && d[next].controller == d[i].controller && d[next].prev == i))
    && -1 <= d[i].controller < i
  }

  /** The root has no parent and no sibling. */
  predicate Parented(d: seq<Device>) {
    && d != [] && d[0].controller == -1 && d[0].next == -1
    && (forall i :: 1 <= i < |d| ==> d[i].controller >= 0)
    && (forall i :: 0 <= i < |d| ==> DeviceOk(d, i))
  }

  ghost predicate WellLinked(d: seq<Device>) {
    Parented(d) && TreeShaped(Links(d)) && Forward(Links(d))
  }

  // ----- the walk

  /** What the walk has still to do once everything below and after a child of `p` is done. */
  function AfterParent(d: seq<Device>, p: int): seq<nat>
    requires Parented(d) && Forward(Links(d)) && -1 <= p < |d|
    decreases p
  {
    if p == -1 then []
    else
      assert DeviceOk(d, p);
      Preorder(Links(d), d[p].next) + AfterParent(d, d[p].controller)
  }

  /** What the walk has still to do when it is about to look at `n`. */
  function Todo(d: seq<Device>, n: int): seq<nat>
    requires Parented(d) && Forward(Links(d)) && -1 <= n < |d|
  {
    if n == -1 then [] else assert DeviceOk(d, n); Preorder(Links(d), n) + AfterParent(d, d[n].controller)
  }

  predicate InArena(d: seq<Device>, nodes: seq<nat>) {
    forall k :: 0 <= k < |nodes| ==> nodes[k] < |d|
  }

  function CountUninitialized(d: seq<Device>, nodes: seq<nat>): nat
    requires InArena(d, nodes)
  {
    if nodes == [] then 0
    else (if d[nodes[0]].initialized then 0 else 1) + CountUninitialized(d, nodes[1..])
  }

  lemma {:induction false} CountAppend(d: seq<Device>, nodes: seq<nat>, x: nat)
    requires InArena(d, nodes) && x < |d|
    ensures InArena(d, nodes + [x])
    ensures CountUninitialized(d, nodes + [x]) == CountUninitialized(d, nodes) + (if d[x].initialized then 0 else 1)
  {
    if nodes == [] {
      assert nodes + [x] == [x];
    } else {
      assert (nodes + [x])[1..] == nodes[1..] + [x];
      CountAppend(d, nodes[1..], x);
    }
  }

  function Uninitialized(d: seq<Device>): set<nat> {
    set i: nat | i < |d| && !d[i].initialized
  }

  function UninitializedAmong(d: seq<Device>, nodes: seq<nat>): set<nat> {
    set i: nat | i in nodes && i < |d| && !d[i].initialized
  }

  /** Counting along a walk that meets no device twice counts the uninitialised devices it meets. */
  lemma {:induction false} CountIsCardinality(d: seq<Device>, nodes: seq<nat>)
    requires forall x: nat :: Visits(nodes, x) <= 1
    requires InArena(d, nodes)
    ensures CountUninitialized(d, nodes) == |UninitializedAmong(d, nodes)|
  {
    if nodes == [] {
      assert UninitializedAmong(d, nodes) == {};
    } else {
      var rest := nodes[1..];
      forall x: nat
        ensures Visits(rest, x) <= 1
      {
        assert Visits(nodes, x) >= Visits(rest, x);
      }
      CountIsCardinality(d, rest);
      VisitsMember(rest, nodes[0]);
      assert Visits(nodes, nodes[0]) == 1 + Visits(rest, nodes[0]);
      assert nodes == [nodes[0]] + rest;
      assert UninitializedAmong(d, nodes)
          == if d[nodes[0]].initialized then UninitializedAmong(d, rest) else UninitializedAmong(d, rest) + {nodes[0]};
    }
  }

  /** The preorder of a well-linked arena lists every device once and counts the uninitialised ones. */
  lemma {:induction false} PreorderCounts(d: seq<Device>)
    requires WellLinked(d)
    ensures forall x: nat :: Visits(Preorder(Links(d), 0), x) == if x < |d| then 1 else 0
    ensures InArena(d, Preorder(Links(d), 0))
    ensures CountUninitialized(d, Preorder(Links(d), 0)) == |Uninitialized(d)|
  {
    var nodes := Preorder(Links(d), 0);
    PreorderIsComplete(Links(d));
    forall x: nat
      ensures x in nodes <==> x < |d|
    {
      VisitsMember(nodes, x);
    }
    assert forall k :: 0 <= k < |nodes| ==> nodes[k] in nodes;
    CountIsCardinality(d, nodes);
    assert UninitializedAmong(d, nodes) == Uninitialized(d);
  }

  lemma {:induction false} StartOfWalk(d: seq<Device>)
    requires WellLinked(d)
    ensures Todo(d, 0) == Preorder(Links(d), 0)
  {
  }

  // ----- one move of the walk

  lemma {:induction false} Assoc(a: seq<nat>, b: seq<nat>, c: seq<nat>)
    ensures (a + b) + c == a + (b + c)
  {
  }

  lemma {:induction false} MoveDown(d: seq<Device>, n: nat)
    requires WellLinked(d) && n < |d| && d[n].firstDevice != -1
    ensures 0 <= d[n].firstDevice < |d| && Todo(d, n) == [n] + Todo(d, d[n].firstDevice)
  {
    assert DeviceOk(d, n);
    var below := Preorder(Links(d), d[n].firstDevice);
    var right := Preorder(Links(d), d[n].next);
    var above := AfterParent(d, d[n].controller);
    assert Preorder(Links(d), n) == [n] + (below + right);
    Assoc([n], below + right, above);
    Assoc(below, right, above);
  }

  lemma {:induction false} MoveRight(d: seq<Device>, n: nat)
    requires WellLinked(d) && n < |d| && d[n].firstDevice == -1 && d[n].next != -1
    ensures 0 <= d[n].next < |d| && Todo(d, n) == [n] + Todo(d, d[n].next)
  {
    assert DeviceOk(d, n);
    var right := Preorder(Links(d), d[n].next);
    assert Preorder(Links(d), n) == [n] + ([] + right) == [n] + right;
    Assoc([n], right, AfterParent(d, d[n].controller));
  }

  lemma {:induction false} MoveUp(d: seq<Device>, n: nat)
    requires WellLinked(d) && n < |d| && d[n].firstDevice == -1 && d[n].next == -1
    ensures -1 <= d[n].controller < n && Todo(d, n) == [n] + AfterParent(d, d[n].controller)
  {
    assert DeviceOk(d, n);
    assert Preorder(Links(d), n) == [n] + ([] + []) == [n];
  }

  lemma {:induction false} Climb(d: seq<Device>, p: nat)
    requires WellLinked(d) && p < |d|
    ensures -1 <= d[p].controller < p && -1 <= d[p].next < |d|
    ensures AfterParent(d, p) == if d[p].next != -1 then Todo(d, d[p].next) else AfterParent(d, d[p].controller)
  {
    assert Links(d)[p] == Link(d[p].firstDevice, d[p].next);
    assert DeviceOk(d, p);
    if d[p].next == -1 {
      assert AfterParent(d, p) == [] + AfterParent(d, d[p].controller);
    } else {
      assert d[d[p].next].controller == d[p].controller;
    }
  }

  // ----- adding a device

  /** The arena after a new last child is chained to `p`. */
  function Attached(d: seq<Device>, controller: nat, last: int, hasInit: bool): seq<Device>
    requires controller < |d| && -1 <= last < |d|
  {
    if last == -1 then d[controller := d[controller].(firstDevice := |d|)] + [Device(!hasInit, controller, -1, -1, -1)]
    else d[last := d[last].(next := |d|)] + [Device(!hasInit, controller, last, -1, -1)]
  }

  /** `last` is the last child of `controller`, or -1 when it has none. */
  predicate IsLastChild(d: seq<Device>, controller: nat, last: int)
    requires controller < |d|
  {
    if last == -1 then d[controller].firstDevice == -1
    else 0 < last < |d| && d[last].controller == controller && d[last].next == -1
  }

  lemma {:induction false} AttachedWellLinked(d: seq<Device>, controller: nat, last: int, hasInit: bool)
    requires WellLinked(d) && controller < |d| && -1 <= last < |d| && IsLastChild(d, controller, last)
    ensures WellLinked(Attached(d, controller, last, hasInit))
  {
    var e := Attached(d, controller, last, hasInit);
    var p := if last == -1 then controller else last;
    GrownTreeShaped(Links(d), p, last == -1);
    assert Links(e) == Grown(Links(d), p, last == -1);
    AttachedParented(d, controller, last, hasInit);
  }

  lemma {:induction false} AttachedParented(d: seq<Device>, controller: nat, last: int, hasInit: bool)
    requires WellLinked(d) && controller < |d| && -1 <= last < |d| && IsLastChild(d, controller, last)
    ensures Parented(Attached(d, controller, last, hasInit))
  {
    var e := Attached(d, controller, last, hasInit);
    forall i | 0 <= i < |e|
      ensures DeviceOk(e, i)
    {
      if i < |d| {
        assert DeviceOk(d, i);
      }
      if last != -1 {
        assert DeviceOk(d, last);
      }
    }
  }

  /** A device with an initialiser is one more that is not initialised, and nothing else about that changes. */
  lemma {:induction false} OneMoreToDo(d: seq<Device>, controller: nat, last: int, hasInit: bool)
    requires controller < |d| && -1 <= last < |d|
    ensures Uninitialized(Attached(d, controller, last, hasInit)) == Uninitialized(d) + if hasInit then {|d|} else {}
  {
    var e := Attached(d, controller, last, hasInit);
    assert |e| == |d| + 1 && forall i :: 0 <= i < |d| ==> e[i].initialized == d[i].initialized;
  }

  class Registry {
    var devices: seq<Device>

    ghost predicate Valid()
      reads this
    {
      WellLinked(devices)
    }

    /** The motherboard alone. */
    constructor ()
      ensures Valid() && devices == [Device(true, -1, -1, -1, -1)]
    {
      devices := [Device(true, -1, -1, -1, -1)];
      new;
      assert LinkedOnce(Links(devices), [0]);
    }

    /** Chains a new device behind the last child of `controller`. */
    method AddHardware(controller: nat, hasInit: bool) returns (added: nat)
      requires Valid() && controller < |devices|
      modifies this
      ensures Valid() && added == |old(devices)|
      ensures exists last :: -1 <= last < |old(devices)| && IsLastChild(old(devices), controller, last)
                             && devices == Attached(old(devices), controller, last, hasInit)
      ensures |devices| == added + 1 && devices[added].controller == controller
      ensures devices[added].initialized == !hasInit
      ensures Uninitialized(devices) == Uninitialized(old(devices)) + if hasInit then {added} else {}
    {
      added := |devices|;
      var last := -1;
      if devices[controller].firstDevice != -1 {
        assert DeviceOk(devices, controller);
        last := devices[controller].firstDevice;
        while devices[last].next != -1
          invariant 0 < last < |devices| && devices[last].controller == controller
          decreases |devices| - last
        {
          assert DeviceOk(devices, last);
          last := devices[last].next;
        }
      }
      AttachedWellLinked(devices, controller, last, hasInit);
      OneMoreToDo(devices, controller, last, hasInit);
      devices := Attached(devices, controller, last, hasInit);
    }

    /** Climbs from a finished child list of `parent` to the next device to visit, or to -1. */
    method NextAbove(parent: int) returns (current: int)
      requires Valid() && -1 <= parent < |devices|
      ensures -1 <= current < |devices|
      ensures Todo(devices, current) == AfterParent(devices, parent)
    {
      var controller := parent;
      current := controller;
      while controller != -1
        invariant -1 <= controller < |devices| && current == controller
        invariant AfterParent(devices, controller) == AfterParent(devices, parent)
        decreases controller
      {
        Climb(devices, controller);
        if devices[controller].next != -1 {
          current := devices[controller].next;
          break;
        }
        controller := devices[controller].controller;
        current := controller;
      }
    }

    /** The walk's move from `at`: down, else right, else up to the next unvisited sibling. */
    method NextDevice(at: nat) returns (next: int)
      requires Valid() && at < |devices|
      ensures -1 <= next < |devices|
      ensures Todo(devices, at) == [at] + Todo(devices, next)
    {
      if devices[at].firstDevice != -1 {
        MoveDown(devices, at);
        next := devices[at].firstDevice;
      } else if devices[at].next != -1 {
        MoveRight(devices, at);
        next := devices[at].next;
      } else {
        MoveUp(devices, at);
        next := NextAbove(devices[at].controller);
      }
    }

    /** Walks the tree by its own pointers, without a stack. */
    method HowManyUninitialized() returns (count: nat, ghost visited: seq<nat>)
      requires Valid()
      ensures visited == Preorder(Links(devices), 0)
      ensures count == |Uninitialized(devices)|
    {
      count := 0;
      visited := [];
      var current := 0;
      PreorderCounts(devices);
      StartOfWalk(devices);
      ghost var rest := Todo(devices, 0);
      while current != -1
        invariant -1 <= current < |devices| && rest == Todo(devices, current)
        invariant visited + rest == Preorder(Links(devices), 0)
        invariant InArena(devices, visited) && count == CountUninitialized(devices, visited)
        decreases |rest|
      {
        if !devices[current].initialized {
          count := count + 1;
        }
        CountAppend(devices, visited, current);
        var next := NextDevice(current);
        rest := Todo(devices, next);
        Assoc(visited, [current], rest);
        visited := visited + [current];
        current := next;
      }
    }
  }
}
