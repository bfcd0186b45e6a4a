/** One core's list of kernel threads and the scan that picks the next one to run.
    Source: source/kernel/hardware/devices/cpu/scheduler.c:375-392, 1152-1267 */
module KernelScan {
  import opened Chain

  const WIDTH: nat := 0x1_0000_0000

  datatype Status = Status(killMe: bool, blocked: bool, sleeping: bool, wakeAt: nat)

  /** The signed 32-bit difference of the clock and the end of the sleep is positive. */
  predicate Expired(now: nat, wakeAt: nat) {
    0 < (now - wakeAt) % WIDTH < WIDTH / 2
  }

  /** A clock read `d` ticks after the end of a sleep, wrapped around or not, shows the sleep as over if and only
      if `d` is positive, as long as `d` fits a signed word. */
  lemma ExpiredIffLater(wakeAt: nat, d: int)
    requires wakeAt < WIDTH && -(WIDTH / 2) <= d < WIDTH / 2
    ensures Expired((wakeAt + d) % WIDTH, wakeAt) <==> d > 0
  {
    assert ((wakeAt + d) % WIDTH - wakeAt) % WIDTH == d % WIDTH;
  }

  predicate Ready(st: Status, now: nat) {
    !st.blocked && (!st.sleeping || Expired(now, st.wakeAt))
  }

  /** The sleep ended `d` ticks ago, as the wrapped clock counts them; a negative `d` is still to come. */
  predicate EndedAgo(now: nat, wakeAt: nat, d: int) {
    (wakeAt + d) % WIDTH == now % WIDTH
  }

  /** The sleep is over: it ended some ticks ago, fewer than half the clock's range. */
  ghost predicate SleptEnough(now: nat, wakeAt: nat) {
    exists d :: 0 < d < WIDTH / 2 && EndedAgo(now, wakeAt, d)
  }

  /** It ends now or later, at most half the clock's range ahead. */
  ghost predicate SleepsOn(now: nat, wakeAt: nat) {
    exists d :: -(WIDTH / 2) <= d <= 0 && EndedAgo(now, wakeAt, d)
  }

  lemma EndsAtOneTime(now: nat, wakeAt: nat, d: int)
    requires -(WIDTH / 2) <= d < WIDTH / 2 && EndedAgo(now, wakeAt, d)
    ensures d % WIDTH == (now - wakeAt) % WIDTH
  {
    var a, b := (wakeAt + d) / WIDTH, now / WIDTH;
    assert wakeAt + d == a * WIDTH + (wakeAt + d) % WIDTH && now == b * WIDTH + now % WIDTH;
    assert now - wakeAt == d + (b - a) * WIDTH;
    AddTurns(d, b - a);
  }

  lemma AddTurns(d: int, k: int)
    ensures (d + k * WIDTH) % WIDTH == d % WIDTH
  {
    assert d == d / WIDTH * WIDTH + d % WIDTH;
    assert d + k * WIDTH == (d / WIDTH + k) * WIDTH + d % WIDTH;
  }

  /** Every sleep is over or goes on, and the comparison of the source says which. */
  lemma ExpiredIffSlept(now: nat, wakeAt: nat)
    ensures Expired(now, wakeAt) <==> SleptEnough(now, wakeAt)
    ensures Expired(now, wakeAt) <==> !SleepsOn(now, wakeAt)
  {
    var r := (now - wakeAt) % WIDTH;
    var d := if r < WIDTH / 2 then r else r - WIDTH;
    assert EndedAgo(now, wakeAt, d) by {
      assert now - wakeAt == (now - wakeAt) / WIDTH * WIDTH + r;
      var k := (now - wakeAt) / WIDTH + (if r < WIDTH / 2 then 0 else 1);
      assert now == (wakeAt + d) + k * WIDTH;
      AddTurns(wakeAt + d, k);
    }
    if e :| 0 < e < WIDTH / 2 && EndedAgo(now, wakeAt, e) { EndsAtOneTime(now, wakeAt, e); }
    if e :| -(WIDTH / 2) <= e <= 0 && EndedAgo(now, wakeAt, e) { EndsAtOneTime(now, wakeAt, e); }
  }

  /** The thread may be switched to: it is not to be killed, not blocked, and does not sleep or has slept enough. */
  ghost predicate MayRun(st: Status, now: nat) {
    !st.killMe && !st.blocked && (!st.sleeping || SleptEnough(now, st.wakeAt))
  }

  /** The thread is passed over: it is not to be killed, and blocked or still asleep. */
  ghost predicate MustWait(st: Status, now: nat) {
    !st.killMe && (st.blocked || (st.sleeping && SleepsOn(now, st.wakeAt)))
  }

  // ----- the scan as a function of the list

  predicate Within(order: seq<nat>, n: nat) {
    forall k :: 0 <= k < |order| ==> order[k] < n
  }

  /** The list without its `p`-th thread. */
  function Cut(order: seq<nat>, p: nat): (r: seq<nat>)
    requires p < |order|
    ensures |r| == |order| - 1 && forall k :: 0 <= k < |r| ==> r[k] == order[if k < p then k else k + 1]
  {
    order[..p] + order[p + 1..]
  }

  /** What a scan leaves: the list, and the place of the thread it switches to, or -1 for none. */
  datatype Outcome = Outcome(order: seq<nat>, at: int)

  /** Looking from place `p` on: a thread to be killed is taken out and the scan starts again at the head. */
  function ScanFrom(order: seq<nat>, status: seq<Status>, now: nat, p: nat): (o: Outcome)
    requires Within(order, |status|) && p <= |order|
    decreases |order|, |order| - p
  {
    if p == |order| then Outcome(order, -1)
    else if status[order[p]].killMe then
      ScanFrom(Cut(order, p), status, now, 0)
    else if !Ready(status[order[p]], now) then ScanFrom(order, status, now, p + 1)
    else Outcome(order, p)
  }

  /** What any scan does: it takes out only threads to be killed, keeps the others in their order, and switches
      to a thread that is ready and not to be killed; a scan without kills takes the first such from `p` on. */
  lemma {:induction false} ScanPicks(order: seq<nat>, status: seq<Status>, now: nat, p: nat)
    requires Within(order, |status|) && p <= |order|
    ensures var o := ScanFrom(order, status, now, p);
            && Within(o.order, |status|)
            && -1 <= o.at < |o.order|
            && (o.at >= 0 ==> !status[o.order[o.at]].killMe && Ready(status[o.order[o.at]], now))
            && Survivors(o.order, status) == Survivors(order, status)
    decreases |order|, |order| - p
  {
    if p < |order| {
      if status[order[p]].killMe {
        ScanPicks(Cut(order, p), status, now, 0);
        SurvivorsWithout(order, status, p);
      } else if !Ready(status[order[p]], now) {
        ScanPicks(order, status, now, p + 1);
      }
    }
  }

  /** From where a scan that came to the outcome `o` has looked without finding anything to kill. */
  function LookedFrom(order: seq<nat>, o: Outcome, p: nat): nat {
    if |o.order| < |order| then 0 else p
  }

  /** A scan switches to a thread that may run, and all threads it passed over since it last began at the head have
      to wait; if it finds none, all it looked at have to. */
  lemma {:induction false} ScanSkips(order: seq<nat>, status: seq<Status>, now: nat, p: nat)
    requires Within(order, |status|) && p <= |order|
    ensures var o := ScanFrom(order, status, now, p);
            && Within(o.order, |status|) && -1 <= o.at < |o.order| <= |order|
            && (|o.order| == |order| ==> o.order == order)
            && (o.at >= 0 ==> MayRun(status[o.order[o.at]], now))
            && forall k :: LookedFrom(order, o, p) <= k < (if o.at < 0 then |o.order| else o.at) ==>
                 MustWait(status[o.order[k]], now)
    decreases |order|, |order| - p
  {
    ScanPicks(order, status, now, p);
    if p < |order| {
      var st := status[order[p]];
      ExpiredIffSlept(now, st.wakeAt);
      if st.killMe {
        ScanSkips(Cut(order, p), status, now, 0);
      } else if !Ready(st, now) {
        assert MustWait(st, now);
        ScanSkips(order, status, now, p + 1);
      } else {
        assert MayRun(st, now);
      }
    }
  }

  /** The threads of a list that are not to be killed. */
  function Survivors(order: seq<nat>, status: seq<Status>): seq<nat>
    requires Within(order, |status|)
  {
    if order == [] then []
    else (if status[order[0]].killMe then [] else [order[0]]) + Survivors(order[1..], status)
  }

  lemma {:induction false} SurvivorsWithout(order: seq<nat>, status: seq<Status>, p: nat)
    requires Within(order, |status|) && p < |order| && status[order[p]].killMe
    ensures Survivors(Cut(order, p), status) == Survivors(order, status)
  {
    if p == 0 {
      assert Cut(order, 0) == order[1..];
    } else {
      assert Cut(order, p)[1..] == Cut(order[1..], p - 1);
      SurvivorsWithout(order[1..], status, p - 1);
    }
  }

  /** A thread that is switched to sleeps no longer. */
  function Woken(status: seq<Status>, thread: int): seq<Status> {
    if 0 <= thread < |status| then status[thread := status[thread].(sleeping := false)] else status
  }

  // ----- the list on the heap

  class ThreadList {
    var head: int
    var cursor: int
    var next: seq<int>
    var status: seq<Status>
    var running: int
    ghost var order: seq<nat>

    ghost predicate Valid()
      reads this
    {
      && |status| == |next|
      && running == |order|
      && Chained(head, next, order)
      && (cursor == NIL || (cursor >= 0 && cursor in order))
    }

    constructor ()
      ensures Valid() && order == [] && cursor == NIL
    {
      head, cursor, next, status, running, order := NIL, NIL, [], [], 0, [];
    }

    /** Pushes a new thread at the head; the cursor stays on its thread. */
    method Push(st: Status) returns (t: nat)
      requires Valid()
      modifies this
      ensures Valid() && t !in old(order) && order == [t] + old(order)
      ensures status == old(status) + [st] && t == |old(status)|
      ensures Place() == if old(Place()) == -1 then -1 else old(Place()) + 1
    {
      PushChained(head, next, order);
      ghost var before := order;
      forall p | p in before ensures p < |next| {
        var k := IndexIn(before, p);
        assert Link(next, before, k);
      }
      running := running + 1;
      t := |next|;
      next := next + [head];
      status := status + [st];
      head := t;
      order := [t] + order;
    }

    /** The creator's look at the cursor. */
    method Look() returns (none: bool)
      requires Valid()
      ensures none == (Place() == -1)
    {
      return cursor == NIL;
    }

    /** The creator's store; it does not look again. */
    method SetCurrent(t: nat)
      requires Valid() && t in order
      modifies this`cursor
      ensures Valid() && Place() >= 0 && order[Place()] == t
    {
      cursor := t;
    }

    /** A creation that nobody comes between: the new thread becomes the current one if there is none. */
    method Create(st: Status) returns (t: nat)
      requires Valid()
      modifies this
      ensures Valid() && t !in old(order) && order == [t] + old(order)
      ensures status == old(status) + [st] && t == |old(status)|
      ensures Place() == if old(Place()) == -1 then 0 else old(Place()) + 1
    {
      t := Push(st);
      var none := Look();
      if none {
        SetCurrent(t);
      }
    }

    /** Takes `current` out: behind `previous`, or, from the head, by looking for the thread before it. */
    method Unlink(previous: int, current: nat)
      requires Valid() && current in order
      requires previous != NIL ==> previous >= 0 && previous in order && previous < |next| && next[previous] == current
      modifies this`head, this`next, this`order
      ensures order == Without(old(order), current) && Chained(head, next, order)
      ensures |next| == |old(next)| && |order| == |old(order)| - 1
    {
      ghost var k := IndexIn(order, current);
      assert Link(next, order, k);
      UnlinkChained(head, next, order, k);
      if previous == NIL {
        if head == current {
          assert k == 0;
          head := next[current];
        } else {
          var walk := head;
          ghost var i := 0;
          while walk != NIL
            invariant 0 <= i < k && walk == order[i]
            invariant unchanged(this)
            decreases k - i
          {
            assert Link(next, order, i);
            if next[walk] == current {
              assert i + 1 == k;
              next := next[walk := next[current]];
              break;
            }
            walk := next[walk];
            i := i + 1;
          }
        }
      } else {
        ghost var l := IndexIn(order, previous);
        assert Link(next, order, l);
        assert l + 1 == k;
        next := next[previous := next[current]];
      }
      order := Without(order, current);
    }

    /** The place of the cursor, -1 before the head. */
    ghost function Place(): (p: int)
      requires Valid()
      reads this
      ensures -1 <= p < |order| && (p == -1 <==> cursor == NIL) && (p >= 0 ==> order[p] == cursor)
    {
      if cursor == NIL then -1 else
        var k :| 0 <= k < |order| && order[k] == cursor;
        k
    }

    /** Moves the cursor to the next thread, or from NULL to the first. */
    method MoveOn()
      requires Valid()
      modifies this`cursor
      ensures Valid() && Place() == if old(Place()) + 1 < |order| then old(Place()) + 1 else -1
    {
      ghost var place := Place();
      assert place >= 0 ==> Link(next, order, place);
      cursor := if cursor == NIL then head else next[cursor];
      if place + 1 < |order| {
        assert cursor == order[place + 1];
      }
    }

    /** Takes the thread under the cursor out; the next scan begins at the head. */
    method Kill(previous: int)
      requires Valid() && cursor != NIL
      requires previous == if Place() == 0 then NIL else order[Place() - 1]
      modifies this
      ensures Valid() && Place() == -1 && order == Cut(old(order), old(Place())) && status == old(status)
    {
      ghost var place := Place();
      UnlinkChained(head, next, order, place);
      if place > 0 { assert Link(next, order, place - 1); }
      Unlink(previous, cursor);
      running := running - 1;
      cursor := NIL;
    }

    /** Whether the thread under the cursor can run now; a sleep that is over is ended. */
    method TryWake(now: nat) returns (ready: bool)
      requires Valid() && cursor != NIL && 0 <= cursor < |status|
      modifies this`status
      ensures Valid() && ready == Ready(old(status)[cursor], now)
      ensures status == if ready then old(status)[cursor := old(status)[cursor].(sleeping := false)] else old(status)
    {
      if status[cursor].blocked {
        return false;
      }
      if status[cursor].sleeping {
        if Expired(now, status[cursor].wakeAt) {
          status := status[cursor := status[cursor].(sleeping := false)];
        } else {
          return false;
        }
      }
      return true;
    }

    /** One round of the scan: on to the next thread, which is killed, passed over, or switched to. */
    method ScanOne(now: nat) returns (more: bool)
      requires Valid()
      modifies this
      ensures Valid() && Within(old(order), |old(status)|)
      ensures more ==> status == old(status) && Within(order, |status|)
      ensures more ==> ScanFrom(order, status, now, Place() + 1) == ScanFrom(old(order), status, now, old(Place()) + 1)
      ensures more ==> |order| < |old(order)| || (|order| == |old(order)| && Place() > old(Place()))
      ensures !more ==> Outcome(order, Place()) == ScanFrom(old(order), old(status), now, old(Place()) + 1)
      ensures !more ==> status == Woken(old(status), cursor)
    {
      ThreadsAreKnown();
      ghost var before, p := order, Place() + 1;
      var previous := cursor;
      MoveOn();
      if cursor == NIL {
        return false;
      }
      assert p < |before| && cursor == before[p];
      if status[cursor].killMe {
        Kill(previous);
        ThreadsAreKnown();
        return true;
      }
      var ready := TryWake(now);
      return !ready;
    }

    /** Moves the cursor on until it stands on a thread to switch to, killing on the way; -1 at the end. */
    method Scan(now: nat) returns (found: int)
      requires Valid()
      modifies this
      ensures Valid() && found == cursor && Within(old(order), |old(status)|)
      ensures status == Woken(old(status), found)
      ensures ScanFrom(old(order), old(status), now, old(Place()) + 1) == Outcome(order, Place())
      ensures found != NIL ==> 0 <= found < |old(status)| == |status| && MayRun(old(status)[found], now)
      ensures found != NIL ==> status[found] == old(status)[found].(sleeping := false)
      ensures |status| == |old(status)| && forall t :: 0 <= t < |status| && t != found ==> status[t] == old(status)[t]
    {
      ThreadsAreKnown();
      ScanSkips(order, status, now, Place() + 1);
      var more := true;
      ghost var goal := ScanFrom(order, status, now, Place() + 1);
      while more
        invariant Valid()
        invariant more ==> status == old(status) && Within(order, |status|)
        invariant more ==> ScanFrom(order, status, now, Place() + 1) == goal
        invariant !more ==> Outcome(order, Place()) == goal && status == Woken(old(status), cursor)
        decreases more, |order|, |order| - Place()
      {
        more := ScanOne(now);
      }
      return cursor;
    }

    lemma ThreadsAreKnown()
      requires |status| == |next| && Chained(head, next, order)
      ensures Within(order, |status|)
    {
      forall k | 0 <= k < |order| ensures order[k] < |status| { assert Link(next, order, k); }
    }
  }

  // ----- fairness

  /** What happens to one core's list while nothing is killed: a creator pushes a thread, looks at the cursor, and,
      if it has seen NULL, stores its thread there, at any time; a scan picks one of the threads ready then. */
  datatype Event = Pushed(thread: nat) | Looked(thread: nat) | Stored(thread: nat) | Scanned(ready: set<nat>)

  /** `at` is the place of the cursor, -1 for NULL; `looking` are the threads whose creators have yet to look,
      `pending` those whose creators have seen NULL and have yet to store. */
  datatype View = View(order: seq<nat>, at: int, looking: set<nat>, pending: set<nat>)

  predicate Sane(v: View) {
    && Distinct(v.order) && -1 <= v.at < |v.order|
    && (forall t :: t in v.looking ==> t in v.order)
    && (forall t :: t in v.pending ==> t in v.order)
  }

  function FirstReady(order: seq<nat>, ready: set<nat>, p: nat): (at: int)
    requires p <= |order|
    ensures at == -1 || (p <= at < |order| && order[at] in ready)
    ensures forall k :: p <= k < (if at == -1 then |order| else at) ==> order[k] !in ready
    decreases |order| - p
  {
    if p == |order| then -1 else if order[p] in ready then p else FirstReady(order, ready, p + 1)
  }

  function PlaceOf(order: seq<nat>, t: nat): (p: nat)
    requires t in order
    ensures p < |order| && order[p] == t
  {
    if order[0] == t then 0 else 1 + PlaceOf(order[1..], t)
  }

  predicate Possible(v: View, e: Event) {
    match e
    case Pushed(t) => t !in v.order
    case Looked(t) => t in v.looking
    case Stored(t) => t in v.pending
    case Scanned(_) => true
  }

  function After(v: View, e: Event): (w: View)
    requires Sane(v) && Possible(v, e)
    ensures Sane(w)
  {
    match e
    case Pushed(t) => View([t] + v.order, if v.at == -1 then -1 else v.at + 1, v.looking + {t}, v.pending)
    case Looked(t) => v.(looking := v.looking - {t}, pending := if v.at == -1 then v.pending + {t} else v.pending)
    case Stored(t) => v.(at := PlaceOf(v.order, t), pending := v.pending - {t})
    case Scanned(ready) => v.(at := FirstReady(v.order, ready, v.at + 1))
  }

  /** Without kills the scan of the list is the search for the first ready thread. */
  lemma {:induction false} ScanIsSearch(order: seq<nat>, status: seq<Status>, now: nat, p: nat, ready: set<nat>)
    requires Within(order, |status|) && p <= |order|
    requires forall k :: 0 <= k < |order| ==> !status[order[k]].killMe
    requires forall k :: 0 <= k < |order| ==> (order[k] in ready <==> Ready(status[order[k]], now))
    ensures ScanFrom(order, status, now, p) == Outcome(order, FirstReady(order, ready, p))
    decreases |order| - p
  {
    if p < |order| && order[p] !in ready {
      ScanIsSearch(order, status, now, p + 1, ready);
    }
  }

  /** The window: possible events, with `a` and `b` ready at every scan. */
  predicate Window(v: View, events: seq<Event>, a: nat, b: nat)
    requires Sane(v)
    decreases |events|
  {
    events == [] ||
    (Possible(v, events[0]) && (events[0].Scanned? ==> a in events[0].ready && b in events[0].ready)
     && Window(After(v, events[0]), events[1..], a, b))
  }

  function Picks(v: View, e: Event, x: nat): nat
    requires Sane(v) && Possible(v, e)
  {
    if e.Scanned? && After(v, e).at >= 0 && After(v, e).order[After(v, e).at] == x then 1 else 0
  }

  /** How often `x` is switched to. */
  function Dispatches(v: View, events: seq<Event>, x: nat, a: nat, b: nat): nat
    requires Sane(v) && Window(v, events, a, b)
    decreases |events|
  {
    if events == [] then 0
    else Picks(v, events[0], x) + Dispatches(After(v, events[0]), events[1..], x, a, b)
  }

  function End(v: View, events: seq<Event>, a: nat, b: nat): (w: View)
    requires Sane(v) && Window(v, events, a, b)
    ensures Sane(w)
    decreases |events|
  {
    if events == [] then v else End(After(v, events[0]), events[1..], a, b)
  }

  predicate InFrontOf(v: View, a: nat, b: nat) {
    a in v.order && b in v.order && PlaceOf(v.order, a) < PlaceOf(v.order, b)
  }

  /** One if the cursor is at `a` or between `a` and `b`, so that `b` is due; `a` stands before `b`. */
  function Due(v: View, a: nat, b: nat): int
    requires InFrontOf(v, a, b)
  {
    if PlaceOf(v.order, a) <= v.at < PlaceOf(v.order, b) then 1 else 0
  }

  lemma {:induction false} PlaceIsUnique(order: seq<nat>, p: nat)
    requires Distinct(order) && p < |order|
    ensures PlaceOf(order, order[p]) == p
  {
  }

  lemma {:induction false} StaysBefore(v: View, e: Event, a: nat, b: nat)
    requires Sane(v) && Possible(v, e) && InFrontOf(v, a, b)
    ensures InFrontOf(After(v, e), a, b)
    ensures e.Pushed? ==> PlaceOf(After(v, e).order, a) == PlaceOf(v.order, a) + 1
    ensures e.Pushed? ==> PlaceOf(After(v, e).order, b) == PlaceOf(v.order, b) + 1
  {
    if e.Pushed? { assert After(v, e).order[1..] == v.order; }
  }

  /** By how much the store of a creator moves the turn between `a` and `b`. */
  function Jump(v: View, e: Event, a: nat, b: nat): int
    requires Sane(v) && Possible(v, e) && InFrontOf(v, a, b)
  {
    StaysBefore(v, e, a, b);
    if e.Stored? then Due(After(v, e), a, b) - Due(v, a, b) else 0
  }

  function Jumps(v: View, events: seq<Event>, a: nat, b: nat): int
    requires Sane(v) && Window(v, events, a, b) && InFrontOf(v, a, b)
    decreases |events|
  {
    if events == [] then 0
    else
      StaysBefore(v, events[0], a, b);
      Jump(v, events[0], a, b) + Jumps(After(v, events[0]), events[1..], a, b)
  }

  /** One scan moves the turn from `a` to `b` by switching to `a`, and back by switching to `b`. */
  lemma {:induction false} ScanTurns(v: View, e: Event, a: nat, b: nat)
    requires Sane(v) && e.Scanned? && a in e.ready && b in e.ready && InFrontOf(v, a, b)
    ensures InFrontOf(After(v, e), a, b)
    ensures Picks(v, e, a) - Picks(v, e, b) == Due(After(v, e), a, b) - Due(v, a, b)
  {
    var i, j := PlaceOf(v.order, a), PlaceOf(v.order, b);
    var at := After(v, e).at;
    if at >= 0 && v.order[at] == a { PlaceIsUnique(v.order, at); }
    if at >= 0 && v.order[at] == b { PlaceIsUnique(v.order, at); }
  }

  /** The first event of a window, and the rest. */
  lemma {:induction false} WindowOpens(v: View, events: seq<Event>, a: nat, b: nat)
    requires Sane(v) && Window(v, events, a, b) && InFrontOf(v, a, b) && events != []
    ensures var e, w, rest := events[0], After(v, events[0]), events[1..];
            && Window(w, rest, a, b) && InFrontOf(w, a, b)
            && Dispatches(v, events, a, a, b) == Picks(v, e, a) + Dispatches(w, rest, a, a, b)
            && Dispatches(v, events, b, a, b) == Picks(v, e, b) + Dispatches(w, rest, b, a, b)
            && End(v, events, a, b) == End(w, rest, a, b)
            && Jumps(v, events, a, b) == Jump(v, e, a, b) + Jumps(w, rest, a, b)
  {
    StaysBefore(v, events[0], a, b);
  }

  lemma {:induction false} PushTurns(v: View, e: Event, a: nat, b: nat)
    requires Sane(v) && e.Pushed? && Possible(v, e) && InFrontOf(v, a, b)
    ensures InFrontOf(After(v, e), a, b) && Due(After(v, e), a, b) == Due(v, a, b)
  {
    StaysBefore(v, e, a, b);
    var i, j, w := PlaceOf(v.order, a), PlaceOf(v.order, b), After(v, e);
    assert PlaceOf(w.order, a) == i + 1 && PlaceOf(w.order, b) == j + 1;
    assert i + 1 <= w.at < j + 1 <==> i <= v.at < j;
  }

  lemma {:induction false} LookTurns(v: View, e: Event, a: nat, b: nat)
    requires Sane(v) && e.Looked? && Possible(v, e) && InFrontOf(v, a, b)
    ensures InFrontOf(After(v, e), a, b) && Due(After(v, e), a, b) == Due(v, a, b)
  {
    assert After(v, e).order == v.order && After(v, e).at == v.at;
  }

  /** What one event does to the difference in turns. */
  lemma {:induction false} EventTurns(v: View, e: Event, a: nat, b: nat)
    requires Sane(v) && Possible(v, e) && InFrontOf(v, a, b) && (e.Scanned? ==> a in e.ready && b in e.ready)
    ensures InFrontOf(After(v, e), a, b)
    ensures Picks(v, e, a) - Picks(v, e, b) == Due(After(v, e), a, b) - Due(v, a, b) - Jump(v, e, a, b)
  {
    if e.Scanned? {
      ScanTurns(v, e, a, b);
    } else if e.Stored? {
      StaysBefore(v, e, a, b);
    } else if e.Pushed? {
      PushTurns(v, e, a, b);
    } else {
      LookTurns(v, e, a, b);
    }
  }

  /** In any window without kills: the difference in turns of two threads that are ready all along is the change of
      whose turn it is, less what the creators' stores have changed of it. */
  lemma {:induction false} TurnsCount(v: View, events: seq<Event>, a: nat, b: nat)
    requires Sane(v) && Window(v, events, a, b) && InFrontOf(v, a, b)
    ensures var w := End(v, events, a, b);
            && InFrontOf(w, a, b)
            && Dispatches(v, events, a, a, b) - Dispatches(v, events, b, a, b) ==
               Due(w, a, b) - Due(v, a, b) - Jumps(v, events, a, b)
    decreases |events|
  {
    if events != [] {
      WindowOpens(v, events, a, b);
      EventTurns(v, events[0], a, b);
      TurnsCount(After(v, events[0]), events[1..], a, b);
    }
  }

  /** A creator's store that moves the turn. */
  predicate Late(v: View, e: Event, a: nat, b: nat)
    requires Sane(v) && Possible(v, e) && InFrontOf(v, a, b)
  {
    Jump(v, e, a, b) != 0
  }

  function LateStores(v: View, events: seq<Event>, a: nat, b: nat): nat
    requires Sane(v) && Window(v, events, a, b) && InFrontOf(v, a, b)
    decreases |events|
  {
    if events == [] then 0
    else
      StaysBefore(v, events[0], a, b);
      (if Late(v, events[0], a, b) then 1 else 0) + LateStores(After(v, events[0]), events[1..], a, b)
  }

  /** A store moves the turn only of threads the cursor has come to since the creator looked, or behind one of which
      the new thread stands: if the cursor is still NULL, or before both, and so is the new thread, it does not. */
  lemma {:induction false} LateMeansMoved(v: View, e: Event, a: nat, b: nat)
    requires Sane(v) && Possible(v, e) && InFrontOf(v, a, b) && e.Stored?
    ensures Late(v, e, a, b) <==>
              (PlaceOf(v.order, a) <= v.at < PlaceOf(v.order, b)) !=
              (PlaceOf(v.order, a) <= PlaceOf(v.order, e.thread) < PlaceOf(v.order, b))
    ensures v.at == -1 && PlaceOf(v.order, e.thread) < PlaceOf(v.order, a) ==> !Late(v, e, a, b)
  {
    StaysBefore(v, e, a, b);
  }

  lemma {:induction false} JumpsAreLate(v: View, events: seq<Event>, a: nat, b: nat)
    requires Sane(v) && Window(v, events, a, b) && InFrontOf(v, a, b)
    ensures -(LateStores(v, events, a, b) as int) <= Jumps(v, events, a, b) <= LateStores(v, events, a, b)
    decreases |events|
  {
    if events != [] {
      StaysBefore(v, events[0], a, b);
      JumpsAreLate(After(v, events[0]), events[1..], a, b);
    }
  }

  /** In any window without kills two threads that are ready all along are switched to equally often, up to one and
      the number of late stores, whatever other threads block, wake up or are created. */
  lemma {:induction false} ScanIsFair(v: View, events: seq<Event>, a: nat, b: nat)
    requires Sane(v) && Window(v, events, a, b) && InFrontOf(v, a, b)
    ensures var late := LateStores(v, events, a, b);
            -1 - late <= Dispatches(v, events, a, a, b) - Dispatches(v, events, b, a, b) <= 1 + late
  {
    TurnsCount(v, events, a, b);
    JumpsAreLate(v, events, a, b);
  }

  // ----- the bound is attained

  /** `k` new threads in front of 0 and 1. */
  function Order(k: nat): (order: seq<nat>)
    ensures |order| == k + 2
  {
    if k == 0 then [0, 1] else [k + 1] + Order(k - 1)
  }

  /** The threads whose creators have seen NULL. */
  function Waiting(k: nat): (pending: set<nat>)
    ensures forall t :: t in pending <==> 2 <= t < k + 2
  {
    if k == 0 then {} else Waiting(k - 1) + {k + 1}
  }

  function Crowd(k: nat, at: int, pending: nat): View {
    View(Order(k), at, {}, Waiting(pending))
  }

  lemma {:induction false} OrderAt(k: nat, p: nat)
    requires p < k + 2
    ensures Order(k)[p] == if p < k then k + 1 - p else p - k
  {
    if k > 0 && p > 0 { OrderAt(k - 1, p - 1); }
  }

  lemma {:induction false} OrderIsDistinct(k: nat)
    ensures Distinct(Order(k))
    ensures forall t :: 0 <= t < k + 2 ==> t in Order(k)
    ensures PlaceOf(Order(k), 0) == k && PlaceOf(Order(k), 1) == k + 1
    ensures forall p :: 0 <= p < k ==> 2 <= Order(k)[p] < k + 2
  {
    forall p | 0 <= p < k + 2 ensures Order(k)[p] == (if p < k then k + 1 - p else p - k) { OrderAt(k, p); }
    forall t | 0 <= t < k + 2 ensures t in Order(k) {
      assert Order(k)[if t >= 2 then k + 1 - t else k + t] == t;
    }
    PlaceIsUnique(Order(k), k);
    PlaceIsUnique(Order(k), k + 1);
  }

  /** Scans, and between them the stores of `n` creators. */
  function Displaced(n: nat): seq<Event> {
    [Scanned({0, 1})] + if n == 0 then [] else [Stored(n + 1)] + Displaced(n - 1)
  }

  lemma {:induction false} CrowdIsSane(k: nat, at: int, pending: nat)
    requires -1 <= at < k + 2 && pending <= k
    ensures Sane(Crowd(k, at, pending)) && InFrontOf(Crowd(k, at, pending), 0, 1)
  {
    OrderIsDistinct(k);
  }

  lemma {:induction false} FirstIs(order: seq<nat>, ready: set<nat>, p: nat, k: nat)
    requires p <= k < |order| && order[k] in ready && forall q :: p <= q < k ==> order[q] !in ready
    ensures FirstReady(order, ready, p) == k
  {
  }

  /** The cursor is in front of thread 0, so a scan switches to it. */
  lemma {:induction false} ScanFindsFirst(k: nat, at: int, pending: nat)
    requires -1 <= at < k && pending <= k && Sane(Crowd(k, at, pending))
    ensures After(Crowd(k, at, pending), Scanned({0, 1})) == Crowd(k, k, pending)
    ensures Picks(Crowd(k, at, pending), Scanned({0, 1}), 0) == 1
    ensures Picks(Crowd(k, at, pending), Scanned({0, 1}), 1) == 0
  {
    OrderAt(k, k);
    forall q | at + 1 <= q < k ensures Order(k)[q] !in {0, 1} { OrderAt(k, q); }
    FirstIs(Order(k), {0, 1}, at + 1, k);
  }

  lemma {:induction false} WindowStarts(v: View, e: Event, rest: seq<Event>, x: nat)
    requires Sane(v) && Possible(v, e) && (e.Scanned? ==> 0 in e.ready && 1 in e.ready)
    requires Window(After(v, e), rest, 0, 1)
    ensures Window(v, [e] + rest, 0, 1)
    ensures Dispatches(v, [e] + rest, x, 0, 1) == Picks(v, e, x) + Dispatches(After(v, e), rest, x, 0, 1)
  {
    assert ([e] + rest)[1..] == rest;
  }

  lemma FewerWait(n: nat)
    requires n > 0
    ensures n + 1 in Waiting(n) && Waiting(n) - {n + 1} == Waiting(n - 1)
  {
  }

  lemma {:induction false} StoreGoesBack(k: nat, n: nat)
    requires 0 < n <= k && Sane(Crowd(k, k, n))
    ensures Possible(Crowd(k, k, n), Stored(n + 1))
    ensures After(Crowd(k, k, n), Stored(n + 1)) == Crowd(k, k - n, n - 1)
  {
    OrderAt(k, k - n);
    PlaceIsUnique(Order(k), k - n);
    FewerWait(n);
    var w := After(Crowd(k, k, n), Stored(n + 1));
    assert w.order == Order(k) && w.at == k - n && w.looking == {};
  }

  /** What thread 0 and thread 1 get of a window. */
  predicate Turns(v: View, events: seq<Event>, first: nat, second: nat) {
    && Sane(v) && Window(v, events, 0, 1)
    && Dispatches(v, events, 0, 0, 1) == first && Dispatches(v, events, 1, 0, 1) == second
  }

  lemma {:induction false} ScanThen(k: nat, at: int, n: nat, rest: seq<Event>, turns: nat)
    requires -1 <= at < k && n <= k && Turns(Crowd(k, k, n), rest, turns, 0)
    ensures Turns(Crowd(k, at, n), [Scanned({0, 1})] + rest, turns + 1, 0)
  {
    CrowdIsSane(k, at, n);
    ScanFindsFirst(k, at, n);
    WindowStarts(Crowd(k, at, n), Scanned({0, 1}), rest, 0);
    WindowStarts(Crowd(k, at, n), Scanned({0, 1}), rest, 1);
  }

  lemma {:induction false} StoreThen(k: nat, n: nat, rest: seq<Event>, turns: nat)
    requires 0 < n <= k && Turns(Crowd(k, k - n, n - 1), rest, turns, 0)
    ensures Turns(Crowd(k, k, n), [Stored(n + 1)] + rest, turns, 0)
  {
    CrowdIsSane(k, k, n);
    StoreGoesBack(k, n);
    WindowStarts(Crowd(k, k, n), Stored(n + 1), rest, 0);
    WindowStarts(Crowd(k, k, n), Stored(n + 1), rest, 1);
  }

  lemma {:induction false} NoTurns(k: nat)
    ensures Turns(Crowd(k, k, 0), [], 0, 0)
  {
    CrowdIsSane(k, k, 0);
  }

  /** Each store puts the cursor in front of thread 0 again: thread 0 has all the turns. */
  lemma {:induction false} DisplacedTurns(k: nat, at: int, n: nat)
    requires -1 <= at < k && n <= k
    ensures Turns(Crowd(k, at, n), Displaced(n), n + 1, 0)
    decreases n
  {
    if n == 0 {
      NoTurns(k);
      ScanThen(k, at, 0, [], 0);
      assert Displaced(0) == [Scanned({0, 1})] + [];
    } else {
      DisplacedTurns(k, k - n, n - 1);
      var rest := Displaced(n - 1);
      StoreThen(k, n, rest, n);
      ScanThen(k, at, n, [Stored(n + 1)] + rest, n);
      assert Displaced(n) == [Scanned({0, 1})] + ([Stored(n + 1)] + rest);
    }
  }

  /** Creators of the threads from `j` to `k` push and see NULL; their stores come between the scans. */
  function Preempted(j: nat, k: nat): seq<Event>
    requires j <= k
    decreases k - j
  {
    if j == k then Displaced(k) else [Pushed(j + 2)] + ([Looked(j + 2)] + Preempted(j + 1, k))
  }

  /** The next thread has been pushed; its creator has yet to look. */
  function Pushing(j: nat): View {
    View([j + 2] + Order(j), -1, {j + 2}, Waiting(j))
  }

  lemma {:induction false} PushNext(j: nat)
    requires Sane(Crowd(j, -1, j))
    ensures Possible(Crowd(j, -1, j), Pushed(j + 2)) && After(Crowd(j, -1, j), Pushed(j + 2)) == Pushing(j)
  {
    forall p | 0 <= p < j + 2 ensures Order(j)[p] < j + 2 { OrderAt(j, p); }
    assert {} + {j + 2} == {j + 2};
  }

  lemma {:induction false} LookNext(j: nat)
    requires Sane(Pushing(j))
    ensures Possible(Pushing(j), Looked(j + 2)) && After(Pushing(j), Looked(j + 2)) == Crowd(j + 1, -1, j + 1)
  {
    assert {j + 2} - {j + 2} == {};
    assert Order(j + 1) == [j + 2] + Order(j) && Waiting(j + 1) == Waiting(j) + {j + 2};
  }

  lemma {:induction false} LookThen(v: View, t: nat, w: View, rest: seq<Event>, turns: nat)
    requires Sane(v) && Possible(v, Looked(t)) && w == After(v, Looked(t)) && Turns(w, rest, turns, 0)
    ensures Turns(v, [Looked(t)] + rest, turns, 0)
  {
    WindowStarts(v, Looked(t), rest, 0);
    WindowStarts(v, Looked(t), rest, 1);
  }

  lemma {:induction false} PushThen(v: View, t: nat, w: View, rest: seq<Event>, turns: nat)
    requires Sane(v) && Possible(v, Pushed(t)) && w == After(v, Pushed(t)) && Turns(w, rest, turns, 0)
    ensures Turns(v, [Pushed(t)] + rest, turns, 0)
  {
    WindowStarts(v, Pushed(t), rest, 0);
    WindowStarts(v, Pushed(t), rest, 1);
  }

  lemma {:induction false} PreemptThen(j: nat, rest: seq<Event>, turns: nat)
    requires Turns(Crowd(j + 1, -1, j + 1), rest, turns, 0)
    ensures Turns(Crowd(j, -1, j), [Pushed(j + 2)] + ([Looked(j + 2)] + rest), turns, 0)
  {
    CrowdIsSane(j, -1, j);
    PushNext(j);
    LookNext(j);
    LookThen(Pushing(j), j + 2, Crowd(j + 1, -1, j + 1), rest, turns);
    PushThen(Crowd(j, -1, j), j + 2, Pushing(j), [Looked(j + 2)] + rest, turns);
  }

  lemma {:induction false} PreemptedTurns(j: nat, k: nat)
    requires j <= k && 0 < k
    ensures Turns(Crowd(j, -1, j), Preempted(j, k), k + 1, 0)
    decreases k - j
  {
    if j == k {
      DisplacedTurns(k, -1, k);
    } else {
      PreemptedTurns(j + 1, k);
      PreemptThen(j, Preempted(j + 1, k), k + 1);
      assert Preempted(j, k) == [Pushed(j + 2)] + ([Looked(j + 2)] + Preempted(j + 1, k));
    }
  }

  /** The bound is attained for every number of late stores: from a list of two threads and a cursor that is NULL,
      with `k` creators interrupted between look and store, one thread gets `k` + 1 turns and the other none. */
  lemma {:induction false} LateStoresStarve(k: nat)
    requires k > 0
    ensures Turns(View([0, 1], -1, {}, {}), Preempted(0, k), k + 1, 0)
  {
    PreemptedTurns(0, k);
  }
}
