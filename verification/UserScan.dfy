/** The scan of a process's threads on one core: delete signals, kills and the marks they leave in all lists.
    Source: source/kernel/hardware/devices/cpu/scheduler.c:1007-1147 */
module UserScan {
  import K = KernelScan

  /** `handler` says that the thread has a handler for the delete signal; `creator` is a thread ID. */
  datatype Status = Status(
    tid: nat,
    creator: nat,
    killMe: bool,
    deleteMe: bool,
    signalRunning: bool,
    handler: bool,
    blocked: bool,
    sleeping: bool,
    wakeAt: nat)

  predicate Ready(st: Status, now: nat) {
    !st.blocked && (!st.sleeping || K.Expired(now, st.wakeAt))
  }

  /** The delete signal is delivered once: to the handler, or, without one, by killing. */
  function Signalled(st: Status): Status {
    if st.deleteMe && !st.signalRunning
    then st.(killMe := st.killMe || !st.handler, signalRunning := true, sleeping := false, blocked := false)
    else st
  }

  /** Told to go if created by `tid`. */
  function Told(st: Status, tid: nat): Status {
    if st.creator == tid then st.(deleteMe := true) else st
  }

  function Marked(list: seq<Status>, tid: nat): (r: seq<Status>)
    ensures |r| == |list|
  {
    seq(|list|, i requires 0 <= i < |list| => Told(list[i], tid))
  }

  /** The list with its first `n` threads looked at. */
  function MarkedTo(list: seq<Status>, n: nat, tid: nat): (r: seq<Status>)
    ensures |r| == |list|
  {
    seq(|list|, i requires 0 <= i < |list| => if i < n then Told(list[i], tid) else list[i])
  }

  lemma {:induction false} MarkedNext(list: seq<Status>, n: nat, tid: nat)
    requires n < |list|
    ensures MarkedTo(list, n, tid)[n] == list[n]
    ensures MarkedTo(list, n + 1, tid) == MarkedTo(list, n, tid)[n := Told(list[n], tid)]
  {
  }

  lemma {:induction false} MarkedFromTo(list: seq<Status>, tid: nat)
    ensures MarkedTo(list, 0, tid) == list && MarkedTo(list, |list|, tid) == Marked(list, tid)
  {
  }

  /** Every thread created by `tid`, on whatever core, is told to go. */
  function MarkedAll(lists: seq<seq<Status>>, tid: nat): (r: seq<seq<Status>>)
    ensures |r| == |lists|
  {
    seq(|lists|, i requires 0 <= i < |lists| => Marked(lists[i], tid))
  }

  /** The thread is told to go, or was, exactly if its creator has the ID; nothing else of it changes. */
  function ToldIf(st: Status, named: bool): Status {
    st.(deleteMe := st.deleteMe || named)
  }

  /** Marking tells exactly the threads that name `tid` as their creator's, in every list. */
  lemma {:induction false} MarksExactly(lists: seq<seq<Status>>, tid: nat)
    ensures var r := MarkedAll(lists, tid);
            forall j, k :: 0 <= j < |lists| && 0 <= k < |lists[j]| ==>
              |r[j]| == |lists[j]| && r[j][k] == ToldIf(lists[j][k], lists[j][k].creator == tid)
  {
  }

  function Cut(list: seq<Status>, p: nat): (r: seq<Status>)
    requires p < |list|
    ensures |r| == |list| - 1
  {
    list[..p] + list[p + 1..]
  }

  /** The lists after thread `p` of list `me` has been killed. */
  function Killed(lists: seq<seq<Status>>, me: nat, p: nat): (r: seq<seq<Status>>)
    requires me < |lists| && p < |lists[me]|
    ensures |r| == |lists| && |r[me]| == |lists[me]| - 1
  {
    var marked := MarkedAll(lists, lists[me][p].tid);
    marked[me := Cut(marked[me], p)]
  }

  /** What a scan of list `me` leaves: the lists, and the place of the thread it switches to, or -1 for none. */
  datatype Outcome = Outcome(lists: seq<seq<Status>>, at: int)

  function ScanFrom(lists: seq<seq<Status>>, me: nat, now: nat, p: nat): (o: Outcome)
    requires me < |lists| && p <= |lists[me]|
    ensures |o.lists| == |lists| && -1 <= o.at < |o.lists[me]| <= |lists[me]|
    decreases |lists[me]|, |lists[me]| - p
  {
    if p == |lists[me]| then Outcome(lists, -1)
    else
      var st := Signalled(lists[me][p]);
      var told := lists[me := lists[me][p := st]];
      if st.killMe then ScanFrom(Killed(told, me, p), me, now, 0)
      else if Ready(st, now) then Outcome(told[me := told[me][p := st.(sleeping := false)]], p)
      else ScanFrom(told, me, now, p + 1)
  }

  /** A thread newly told to go is killed, or can run its handler at once, whatever it was waiting for. */
  lemma SignalActs(st: Status, now: nat)
    requires st.deleteMe && !st.signalRunning
    ensures Signalled(st).killMe || (st.handler && Ready(Signalled(st), now))
    ensures Signalled(Signalled(st)) == Signalled(st)
  {
  }

  /** What the delete signal does to a thread: nothing unless it is told to go and has not got the signal; else it has
      it, neither sleeps nor is blocked, and is to be killed if it has no handler. */
  predicate Heeds(st: Status, after: Status) {
    if st.deleteMe && !st.signalRunning
    then && (after.killMe <==> st.killMe || !st.handler)
         && after.signalRunning && !after.sleeping && !after.blocked
         && after == st.(killMe := after.killMe, signalRunning := true, sleeping := false, blocked := false)
    else after == st
  }

  lemma SignalHeeds(st: Status)
    ensures Heeds(st, Signalled(st))
  {
  }

  /** Nothing is left to do for a thread's flags. */
  predicate Settled(st: Status) {
    !st.killMe && (st.deleteMe ==> st.signalRunning)
  }

  /** A scan that starts at the head, or kills and so starts again there, leaves no thread before the one it
      switches to, and at the end of the list none at all, that is to be killed or has not been told to go
      though its creator was killed. So one such scan kills whole families of threads without handlers. */
  lemma {:induction false} ScanSettles(lists: seq<seq<Status>>, me: nat, now: nat, p: nat)
    requires me < |lists| && p <= |lists[me]| && forall k :: 0 <= k < p ==> Settled(lists[me][k])
    ensures var o := ScanFrom(lists, me, now, p);
            && (o.at == -1 ==> forall k :: 0 <= k < |o.lists[me]| ==> Settled(o.lists[me][k]))
            && (o.at >= 0 ==> forall k :: 0 <= k <= o.at ==> Settled(o.lists[me][k]))
    decreases |lists[me]|, |lists[me]| - p
  {
    if p < |lists[me]| {
      var st := Signalled(lists[me][p]);
      var told := lists[me := lists[me][p := st]];
      if st.killMe {
        ScanSettles(Killed(told, me, p), me, now, 0);
      } else if !Ready(st, now) {
        ScanSettles(told, me, now, p + 1);
      }
    }
  }

  /** A kill shortens the list, so this is the only case in which a scan may pass over unsettled threads. */
  lemma {:induction false} ShorterMeansSettled(lists: seq<seq<Status>>, me: nat, now: nat, p: nat)
    requires me < |lists| && p <= |lists[me]| && |ScanFrom(lists, me, now, p).lists[me]| < |lists[me]|
    ensures var o := ScanFrom(lists, me, now, p);
            forall k :: 0 <= k < (if o.at == -1 then |o.lists[me]| else o.at + 1) ==> Settled(o.lists[me][k])
    decreases |lists[me]| - p
  {
    if p < |lists[me]| {
      var st := Signalled(lists[me][p]);
      var told := lists[me := lists[me][p := st]];
      if st.killMe {
        ScanSettles(Killed(told, me, p), me, now, 0);
      } else if !Ready(st, now) {
        ShorterMeansSettled(told, me, now, p + 1);
      }
    }
  }

  // ----- who is told to go

  /** The IDs of the threads a scan kills, in order. */
  function KilledTids(lists: seq<seq<Status>>, me: nat, now: nat, p: nat): seq<nat>
    requires me < |lists| && p <= |lists[me]|
    decreases |lists[me]|, |lists[me]| - p
  {
    if p == |lists[me]| then []
    else
      var st := Signalled(lists[me][p]);
      var told := lists[me := lists[me][p := st]];
      if st.killMe then [st.tid] + KilledTids(Killed(told, me, p), me, now, 0)
      else if Ready(st, now) then []
      else KilledTids(told, me, now, p + 1)
  }

  lemma {:induction false} TidsOfCut(list: seq<Status>, p: nat)
    requires p < |list|
    ensures multiset(Tids(list)) == multiset(Tids(Cut(list, p))) + multiset{list[p].tid}
  {
    var all, rest := Tids(list), Tids(Cut(list, p));
    assert all == all[..p] + [list[p].tid] + all[p + 1..];
    assert rest == all[..p] + all[p + 1..];
  }

  lemma {:induction false} TidsOfUpdate(list: seq<Status>, p: nat, st: Status)
    requires p < |list| && st.tid == list[p].tid
    ensures Tids(list[p := st]) == Tids(list)
  {
  }

  lemma {:induction false} TidsOfKilled(lists: seq<seq<Status>>, me: nat, p: nat)
    requires me < |lists| && p < |lists[me]|
    ensures multiset(Tids(lists[me])) == multiset(Tids(Killed(lists, me, p)[me])) + multiset{lists[me][p].tid}
  {
    var marked := Marked(lists[me], lists[me][p].tid);
    assert Tids(marked) == Tids(lists[me]);
    TidsOfCut(marked, p);
  }

  lemma OneMore(x: nat, rest: seq<nat>)
    ensures multiset([x] + rest) == multiset(rest) + multiset{x}
  {
  }

  /** They are the IDs that are missing from its list afterwards. */
  lemma {:induction false} KilledAreGone(lists: seq<seq<Status>>, me: nat, now: nat, p: nat)
    requires me < |lists| && p <= |lists[me]|
    ensures multiset(Tids(lists[me])) ==
            multiset(Tids(ScanFrom(lists, me, now, p).lists[me])) + multiset(KilledTids(lists, me, now, p))
    decreases |lists[me]|, |lists[me]| - p
  {
    if p < |lists[me]| {
      var list := lists[me];
      var st := Signalled(list[p]);
      var told := lists[me := list[p := st]];
      TidsOfUpdate(list, p, st);
      if st.killMe {
        TidsOfKilled(told, me, p);
        KilledAreGone(Killed(told, me, p), me, now, 0);
        OneMore(st.tid, KilledTids(Killed(told, me, p), me, now, 0));
      } else if Ready(st, now) {
        TidsOfUpdate(list[p := st], p, st.(sleeping := false));
      } else {
        KilledAreGone(told, me, now, p + 1);
      }
    }
  }

  /** A scan leaves the threads of other cores as they were, but for telling exactly those to go whose creator it has
      killed. */
  lemma {:induction false} ScanTells(lists: seq<seq<Status>>, me: nat, now: nat, p: nat, j: nat, k: nat)
    requires me < |lists| && p <= |lists[me]| && j < |lists| && j != me && k < |lists[j]|
    ensures var o := ScanFrom(lists, me, now, p);
            && |o.lists[j]| == |lists[j]|
            && o.lists[j][k] == ToldIf(lists[j][k], lists[j][k].creator in KilledTids(lists, me, now, p))
    decreases |lists[me]|, |lists[me]| - p
  {
    if p < |lists[me]| {
      var st := Signalled(lists[me][p]);
      var told := lists[me := lists[me][p := st]];
      if st.killMe {
        MarksExactly(told, st.tid);
        ScanTells(Killed(told, me, p), me, now, 0, j, k);
      } else if !Ready(st, now) {
        ScanTells(told, me, now, p + 1, j, k);
      }
    }
  }

  /** What a scan makes of a thread that stays: it is told to go if its creator is killed, and may be signalled. */
  predicate Became(before: Status, after: Status, killed: seq<nat>) {
    var told := ToldIf(before, before.creator in killed);
    after == told || Heeds(told, after)
  }

  /** The same for the thread that is switched to; if it slept, it has slept enough and is woken. */
  ghost predicate Chosen(before: Status, after: Status, killed: seq<nat>, now: nat) {
    var told := ToldIf(before, before.creator in killed);
    && !after.killMe && !after.blocked && !after.sleeping
    && (Heeds(told, after) || (K.SleptEnough(now, told.wakeAt) && Heeds(told, after.(sleeping := true))))
  }

  /** The thread is passed over. */
  ghost predicate MustWait(st: Status, now: nat) {
    !st.killMe && (st.blocked || (st.sleeping && K.SleepsOn(now, st.wakeAt)))
  }

  lemma {:induction false} BecameThrough(before: Status, between: Status, after: Status, tid: nat, killed: seq<nat>)
    requires between == ToldIf(before, before.creator == tid) && Became(between, after, killed)
    ensures Became(before, after, [tid] + killed)
  {
    assert before.creator in [tid] + killed <==> before.creator == tid || before.creator in killed;
  }

  lemma {:induction false} ChosenThrough(
      before: Status, between: Status, after: Status, tid: nat, killed: seq<nat>, now: nat)
    requires between == ToldIf(before, before.creator == tid) && Chosen(between, after, killed, now)
    ensures Chosen(before, after, [tid] + killed, now)
  {
    assert before.creator in [tid] + killed <==> before.creator == tid || before.creator in killed;
  }

  lemma {:induction false} BecameSignalled(before: Status, after: Status, killed: seq<nat>)
    requires Became(Signalled(before), after, killed)
    ensures Became(before, after, killed)
  {
  }

  lemma {:induction false} ChosenSignalled(before: Status, after: Status, killed: seq<nat>, now: nat)
    requires Chosen(Signalled(before), after, killed, now)
    ensures Chosen(before, after, killed, now)
  {
  }

  /** Where a place of the shortened list was before the cut. */
  function Uncut(k: nat, p: nat): nat {
    if k < p then k else k + 1
  }

  /** What became of the threads of the scanned list: each that stays was in it, at place `k'` or later. */
  ghost predicate Stays(before: seq<Status>, o: seq<Status>, k: nat, at: int, killed: seq<nat>, now: nat)
    requires k < |o|
  {
    exists q: nat :: q < |before| &&
      if k == at then Chosen(before[q], o[k], killed, now) else Became(before[q], o[k], killed)
  }

  lemma {:induction false} StaysThroughKill(
      list: seq<Status>, next: seq<Status>, p: nat, tid: nat, o: seq<Status>, k: nat, at: int, rest: seq<nat>, now: nat)
    requires p < |list| == |next| + 1 && k < |o| && Stays(next, o, k, at, rest, now)
    requires forall q :: 0 <= q < |next| ==> next[q] == ToldIf(list[Uncut(q, p)], list[Uncut(q, p)].creator == tid)
    ensures Stays(list, o, k, at, [tid] + rest, now)
  {
    var q: nat :| q < |next| &&
      if k == at then Chosen(next[q], o[k], rest, now) else Became(next[q], o[k], rest);
    var u := Uncut(q, p);
    if k == at {
      ChosenThrough(list[u], next[q], o[k], tid, rest, now);
    } else {
      BecameThrough(list[u], next[q], o[k], tid, rest);
    }
  }

  lemma {:induction false} StaysThroughSignal(
      list: seq<Status>, p: nat, o: seq<Status>, k: nat, at: int, killed: seq<nat>, now: nat)
    requires p < |list| && k < |o| && Stays(list[p := Signalled(list[p])], o, k, at, killed, now)
    ensures Stays(list, o, k, at, killed, now)
  {
    var told := list[p := Signalled(list[p])];
    var q: nat :| q < |told| &&
      if k == at then Chosen(told[q], o[k], killed, now) else Became(told[q], o[k], killed);
    if q == p && k == at { ChosenSignalled(list[q], o[k], killed, now); }
    if q == p && k != at { BecameSignalled(list[q], o[k], killed); }
  }

  lemma {:induction false} StaysAsItIs(list: seq<Status>, k: nat, now: nat)
    requires k < |list|
    ensures Stays(list, list, k, -1, [], now)
  {
    assert Became(list[k], list[k], []);
  }

  lemma {:induction false} StaysChosen(list: seq<Status>, p: nat, k: nat, now: nat)
    requires p < |list| && k < |list|
    requires var st := Signalled(list[p]); !st.killMe && Ready(st, now)
    ensures Stays(list, list[p := Signalled(list[p]).(sleeping := false)], k, p, [], now)
  {
    var o := list[p := Signalled(list[p]).(sleeping := false)];
    K.ExpiredIffSlept(now, Signalled(list[p]).wakeAt);
    if k == p {
      assert Chosen(list[k], o[k], [], now);
    } else {
      assert Became(list[k], o[k], []);
    }
  }

  /** The lists as the scan of place `p` has delivered its signal. */
  function Heard(lists: seq<seq<Status>>, me: nat, p: nat): (r: seq<seq<Status>>)
    requires me < |lists| && p < |lists[me]|
    ensures |r| == |lists| && |r[me]| == |lists[me]|
  {
    lists[me := lists[me][p := Signalled(lists[me][p])]]
  }

  lemma {:induction false} KillMoves(lists: seq<seq<Status>>, me: nat, p: nat, q: nat)
    requires me < |lists| && p < |lists[me]| && q < |lists[me]| - 1
    ensures var u, tid := Uncut(q, p), Signalled(lists[me][p]).tid;
            Killed(Heard(lists, me, p), me, p)[me][q] == ToldIf(lists[me][u], lists[me][u].creator == tid)
  {
    var u := Uncut(q, p);
    var told: seq<seq<Status>> := Heard(lists, me, p);
    var tid := told[me][p].tid;
    MarksExactly(told, tid);
    assert told[me][u] == lists[me][u];
    assert Killed(told, me, p)[me] == Cut(MarkedAll(told, tid)[me], p);
    assert Killed(told, me, p)[me][q] == MarkedAll(told, tid)[me][u];
  }

  lemma {:induction false} LeavesKill(lists: seq<seq<Status>>, me: nat, now: nat, p: nat, k: nat)
    requires me < |lists| && p < |lists[me]| && Signalled(lists[me][p]).killMe
    requires var next := Killed(Heard(lists, me, p), me, p);
             var o := ScanFrom(next, me, now, 0);
             k < |o.lists[me]| && Stays(next[me], o.lists[me], k, o.at, KilledTids(next, me, now, 0), now)
    ensures var o := ScanFrom(lists, me, now, p);
            k < |o.lists[me]| && Stays(lists[me], o.lists[me], k, o.at, KilledTids(lists, me, now, p), now)
  {
    var next, tid := Killed(Heard(lists, me, p), me, p), Signalled(lists[me][p]).tid;
    var o := ScanFrom(next, me, now, 0);
    assert ScanFrom(lists, me, now, p) == o;
    assert KilledTids(lists, me, now, p) == [tid] + KilledTids(next, me, now, 0);
    forall q | 0 <= q < |next[me]|
      ensures next[me][q] == ToldIf(lists[me][Uncut(q, p)], lists[me][Uncut(q, p)].creator == tid)
    {
      KillMoves(lists, me, p, q);
    }
    StaysThroughKill(lists[me], next[me], p, tid, o.lists[me], k, o.at, KilledTids(next, me, now, 0), now);
  }

  lemma {:induction false} LeavesSkip(lists: seq<seq<Status>>, me: nat, now: nat, p: nat, k: nat)
    requires me < |lists| && p < |lists[me]|
    requires !Signalled(lists[me][p]).killMe && !Ready(Signalled(lists[me][p]), now)
    requires var told := Heard(lists, me, p);
             var o := ScanFrom(told, me, now, p + 1);
             k < |o.lists[me]| && Stays(told[me], o.lists[me], k, o.at, KilledTids(told, me, now, p + 1), now)
    ensures var o := ScanFrom(lists, me, now, p);
            k < |o.lists[me]| && Stays(lists[me], o.lists[me], k, o.at, KilledTids(lists, me, now, p), now)
  {
    var told := Heard(lists, me, p);
    var o := ScanFrom(told, me, now, p + 1);
    assert ScanFrom(lists, me, now, p) == o && KilledTids(lists, me, now, p) == KilledTids(told, me, now, p + 1);
    assert told[me] == lists[me][p := Signalled(lists[me][p])];
    StaysThroughSignal(lists[me], p, o.lists[me], k, o.at, KilledTids(told, me, now, p + 1), now);
  }

  /** Every thread left in the list a scan has gone through was in it before, and has been told to go exactly if its
      creator was killed; and the one that is switched to was then neither blocked nor asleep. */
  lemma {:induction false} ScanLeaves(lists: seq<seq<Status>>, me: nat, now: nat, p: nat, k: nat)
    requires me < |lists| && p <= |lists[me]| && k < |ScanFrom(lists, me, now, p).lists[me]|
    ensures var o := ScanFrom(lists, me, now, p);
            Stays(lists[me], o.lists[me], k, o.at, KilledTids(lists, me, now, p), now)
    decreases |lists[me]|, |lists[me]| - p
  {
    var list := lists[me];
    if p == |list| {
      StaysAsItIs(list, k, now);
    } else if Signalled(list[p]).killMe {
      ScanLeaves(Killed(Heard(lists, me, p), me, p), me, now, 0, k);
      LeavesKill(lists, me, now, p, k);
    } else if Ready(Signalled(list[p]), now) {
      var st := Signalled(list[p]);
      StaysChosen(list, p, k, now);
      assert list[p := st][p := st.(sleeping := false)] == list[p := st.(sleeping := false)];
    } else {
      ScanLeaves(Heard(lists, me, p), me, now, p + 1, k);
      LeavesSkip(lists, me, now, p, k);
    }
  }

  /** The thread is to be killed, or told to go without having got the signal or a handler for it. */
  predicate Doomed(st: Status, killed: seq<nat>) {
    st.killMe || ((st.deleteMe || st.creator in killed) && !st.handler && !st.signalRunning)
  }

  ghost predicate WasDoomed(list: seq<Status>, tid: nat, killed: seq<nat>) {
    exists k :: 0 <= k < |list| && list[k].tid == tid && Doomed(list[k], killed)
  }

  lemma {:induction false} DoomedBeforeKill(lists: seq<seq<Status>>, me: nat, p: nat, tid: nat, rest: seq<nat>)
    requires me < |lists| && p < |lists[me]|
    requires WasDoomed(Killed(Heard(lists, me, p), me, p)[me], tid, rest)
    ensures WasDoomed(lists[me], tid, [Signalled(lists[me][p]).tid] + rest)
  {
    var next: seq<Status> := Killed(Heard(lists, me, p), me, p)[me];
    var q :| 0 <= q < |next| && next[q].tid == tid && Doomed(next[q], rest);
    KillMoves(lists, me, p, q);
    var st := lists[me][Uncut(q, p)];
    assert st.tid == tid && Doomed(st, [Signalled(lists[me][p]).tid] + rest);
  }

  lemma {:induction false} DoomedBeforeSkip(lists: seq<seq<Status>>, me: nat, p: nat, tid: nat, killed: seq<nat>)
    requires me < |lists| && p < |lists[me]| && !Signalled(lists[me][p]).killMe
    requires WasDoomed(Heard(lists, me, p)[me], tid, killed)
    ensures WasDoomed(lists[me], tid, killed)
  {
    var told: seq<Status> := Heard(lists, me, p)[me];
    var k :| 0 <= k < |told| && told[k].tid == tid && Doomed(told[k], killed);
    assert lists[me][k].tid == tid && Doomed(lists[me][k], killed);
  }

  /** A scan kills only threads that were to be killed, or are told to go, before it or because it killed their creator,
      and have neither a handler nor got the signal. */
  lemma {:induction false} KillsOnlyDoomed(lists: seq<seq<Status>>, me: nat, now: nat, p: nat, i: nat)
    requires me < |lists| && p <= |lists[me]| && i < |KilledTids(lists, me, now, p)|
    ensures var killed := KilledTids(lists, me, now, p);
            WasDoomed(lists[me], killed[i], killed)
    decreases |lists[me]|, |lists[me]| - p
  {
    var killed := KilledTids(lists, me, now, p);
    var st := Signalled(lists[me][p]);
    if st.killMe {
      if i == 0 {
        assert lists[me][p].tid == killed[0] && Doomed(lists[me][p], killed);
      } else {
        KillsOnlyDoomed(Killed(Heard(lists, me, p), me, p), me, now, 0, i - 1);
        DoomedBeforeKill(lists, me, p, killed[i], killed[1..]);
      }
    } else {
      KillsOnlyDoomed(Heard(lists, me, p), me, now, p + 1, i);
      DoomedBeforeSkip(lists, me, p, killed[i], killed);
    }
  }

  /** From where a scan that came to the outcome `o` has looked without finding anything to kill. */
  function LookedFrom(lists: seq<seq<Status>>, me: nat, o: Outcome, p: nat): nat
    requires me < |lists| == |o.lists|
  {
    if |o.lists[me]| < |lists[me]| then 0 else p
  }

  /** All threads that a scan passed over since it last began at the head have to wait, blocked or still asleep. */
  lemma {:induction false} ScanSkips(lists: seq<seq<Status>>, me: nat, now: nat, p: nat)
    requires me < |lists| && p <= |lists[me]|
    ensures var o := ScanFrom(lists, me, now, p);
            && (|o.lists[me]| == |lists[me]| ==> forall k :: 0 <= k < p ==> o.lists[me][k] == lists[me][k])
            && forall k :: LookedFrom(lists, me, o, p) <= k < (if o.at < 0 then |o.lists[me]| else o.at) ==>
                 MustWait(o.lists[me][k], now)
    decreases |lists[me]|, |lists[me]| - p
  {
    if p < |lists[me]| {
      var st := Signalled(lists[me][p]);
      var told := lists[me := lists[me][p := st]];
      K.ExpiredIffSlept(now, st.wakeAt);
      if st.killMe {
        ScanSkips(Killed(told, me, p), me, now, 0);
      } else if !Ready(st, now) {
        assert MustWait(st, now);
        ScanSkips(told, me, now, p + 1);
      }
    }
  }

  // ----- who survives

  /** No scan kills the thread: it is not to be killed, and has a handler or has been signalled already. */
  predicate Safe(st: Status) {
    !st.killMe && (st.handler || st.signalRunning)
  }

  /** The IDs of the threads that no scan kills. */
  function SafeTids(list: seq<Status>): seq<nat> {
    if list == [] then [] else (if Safe(list[0]) then [list[0].tid] else []) + SafeTids(list[1..])
  }

  function Tids(list: seq<Status>): seq<nat> {
    seq(|list|, i requires 0 <= i < |list| => list[i].tid)
  }

  lemma {:induction false} SafeTidsJoin(a: seq<Status>, b: seq<Status>)
    ensures SafeTids(a + b) == SafeTids(a) + SafeTids(b)
  {
    if a == [] {
      assert a + b == b;
    } else {
      assert (a + b)[0] == a[0] && (a + b)[1..] == a[1..] + b;
      SafeTidsJoin(a[1..], b);
      var first := if Safe(a[0]) then [a[0].tid] else [];
      Assoc(first, SafeTids(a[1..]), SafeTids(b));
    }
  }

  lemma Assoc(a: seq<nat>, b: seq<nat>, c: seq<nat>)
    ensures (a + b) + c == a + (b + c)
  {
  }

  lemma {:induction false} SafeTidsUpdate(list: seq<Status>, p: nat, st: Status)
    requires p < |list| && st.tid == list[p].tid && Safe(st) == Safe(list[p])
    ensures SafeTids(list[p := st]) == SafeTids(list)
  {
    if p == 0 {
      assert list[0 := st][1..] == list[1..];
    } else {
      assert list[p := st][1..] == list[1..][p - 1 := st];
      SafeTidsUpdate(list[1..], p - 1, st);
    }
  }

  lemma {:induction false} SafeTidsCut(list: seq<Status>, p: nat)
    requires p < |list| && !Safe(list[p])
    ensures SafeTids(Cut(list, p)) == SafeTids(list)
  {
    SafeTidsJoin(list[..p], list[p + 1..]);
    SafeTidsJoin(list[..p], list[p..]);
    assert list == list[..p] + list[p..];
    assert list[p..][1..] == list[p + 1..];
  }

  lemma {:induction false} SafeTidsMarked(list: seq<Status>, tid: nat)
    ensures SafeTids(Marked(list, tid)) == SafeTids(list)
  {
    if list != [] {
      assert Marked(list, tid)[1..] == Marked(list[1..], tid);
      SafeTidsMarked(list[1..], tid);
    }
  }

  /** What a scan does to the lists: those of other cores keep their threads, its own keeps at least those no scan
      kills, all in their order; and it switches only to a thread that is not to be killed and can run. */
  predicate Keeps(before: seq<seq<Status>>, me: nat, o: Outcome)
    requires me < |before| == |o.lists|
  {
    && (forall j :: 0 <= j < |before| && j != me ==> Tids(o.lists[j]) == Tids(before[j]))
    && SafeTids(o.lists[me]) == SafeTids(before[me])
    && (o.at >= 0 ==> o.at < |o.lists[me]| && !o.lists[me][o.at].killMe
                      && !o.lists[me][o.at].blocked && !o.lists[me][o.at].sleeping)
  }

  lemma {:induction false} KilledKeeps(lists: seq<seq<Status>>, me: nat, p: nat)
    requires me < |lists| && p < |lists[me]| && lists[me][p].killMe
    ensures var r := Killed(lists, me, p);
            && (forall j :: 0 <= j < |lists| && j != me ==> Tids(r[j]) == Tids(lists[j]))
            && SafeTids(r[me]) == SafeTids(lists[me])
  {
    var tid := lists[me][p].tid;
    SafeTidsMarked(lists[me], tid);
    SafeTidsCut(Marked(lists[me], tid), p);
  }

  lemma {:induction false} ScanPicks(lists: seq<seq<Status>>, me: nat, now: nat, p: nat)
    requires me < |lists| && p <= |lists[me]|
    ensures Keeps(lists, me, ScanFrom(lists, me, now, p))
    decreases |lists[me]|, |lists[me]| - p
  {
    if p < |lists[me]| {
      var list := lists[me];
      var st := Signalled(list[p]);
      var told := lists[me := list[p := st]];
      SafeTidsUpdate(list, p, st);
      if st.killMe {
        KilledKeeps(told, me, p);
        ScanPicks(Killed(told, me, p), me, now, 0);
      } else if Ready(st, now) {
        SafeTidsUpdate(list[p := st], p, st.(sleeping := false));
      } else {
        ScanPicks(told, me, now, p + 1);
      }
    }
  }

  /** The lists of one process, one per core; `me` is the core that scans, `cursor` the place of its current thread,
      -1 for NULL. */
  class ThreadLists {
    var lists: seq<seq<Status>>
    const me: nat
    var cursor: int

    predicate Valid()
      reads this
    {
      me < |lists| && -1 <= cursor < |lists[me]|
    }

    /** Marks in one list, thread by thread. */
    method MarkList(j: nat, tid: nat)
      requires Valid() && j < |lists|
      modifies this`lists
      ensures Valid() && lists == old(lists)[j := Marked(old(lists)[j], tid)]
    {
      ghost var before := lists[j];
      MarkedFromTo(before, tid);
      var walk := 0;
      while walk < |lists[j]|
        invariant Valid() && |lists| == |old(lists)| && 0 <= walk <= |before| == |lists[j]|
        invariant lists == old(lists)[j := MarkedTo(before, walk, tid)]
      {
        MarkedNext(before, walk, tid);
        if lists[j][walk].creator == tid {
          lists := lists[j := lists[j][walk := lists[j][walk].(deleteMe := true)]];
        }
        assert lists[j] == MarkedTo(before, walk + 1, tid);
        walk := walk + 1;
      }
    }

    /** Marks the children of a thread in the lists of all cores. */
    method MarkChildren(tid: nat)
      requires Valid()
      modifies this`lists
      ensures Valid() && lists == MarkedAll(old(lists), tid)
      ensures forall j, k :: 0 <= j < |lists| && 0 <= k < |old(lists)[j]| ==>
                |lists[j]| == |old(lists)[j]| &&
                lists[j][k] == ToldIf(old(lists)[j][k], old(lists)[j][k].creator == tid)
    {
      MarksExactly(lists, tid);
      var j := 0;
      while j < |lists|
        invariant Valid() && 0 <= j <= |lists| == |old(lists)|
        invariant forall i :: 0 <= i < j ==> lists[i] == Marked(old(lists)[i], tid)
        invariant forall i :: j <= i < |lists| ==> lists[i] == old(lists)[i]
      {
        MarkList(j, tid);
        j := j + 1;
      }
    }

    method Signal()
      requires Valid() && cursor >= 0
      modifies this`lists
      ensures Valid() && lists == old(lists)[me := old(lists)[me][cursor := Signalled(old(lists)[me][cursor])]]
    {
      var st := lists[me][cursor];
      if st.deleteMe {
        if !st.signalRunning {
          if !st.handler {
            st := st.(killMe := true);
          }
          st := st.(signalRunning := true, sleeping := false, blocked := false);
        }
      }
      lists := lists[me := lists[me][cursor := st]];
    }

    /** Takes the current thread out after its children have been told to go; the next move begins at the head. */
    method Kill()
      requires Valid() && cursor >= 0
      modifies this
      ensures Valid() && cursor == -1 && lists == Killed(old(lists), me, old(cursor))
    {
      MarkChildren(lists[me][cursor].tid);
      lists := lists[me := lists[me][..cursor] + lists[me][cursor + 1..]];
      cursor := -1;
    }

    /** One round of the scan: on to the next thread, which is killed, passed over, or switched to. */
    method ScanOne(now: nat) returns (more: bool)
      requires Valid()
      modifies this
      ensures Valid() && |lists| == |old(lists)|
      ensures more ==> ScanFrom(lists, me, now, cursor + 1) == ScanFrom(old(lists), me, now, old(cursor) + 1)
      ensures more ==> |lists[me]| < |old(lists)[me]| || (|lists[me]| == |old(lists)[me]| && cursor > old(cursor))
      ensures !more ==> Outcome(lists, cursor) == ScanFrom(old(lists), me, now, old(cursor) + 1)
    {
      cursor := if cursor + 1 < |lists[me]| then cursor + 1 else -1;
      if cursor == -1 {
        return false;
      }
      Signal();
      var st := lists[me][cursor];
      if st.killMe {
        Kill();
        return true;
      }
      if st.blocked {
        return true;
      }
      if st.sleeping {
        if !K.Expired(now, st.wakeAt) {
          return true;
        }
      }
      lists := lists[me := lists[me][cursor := st.(sleeping := false)]];
      return false;
    }

    /** Moves on to the next thread that can run, delivering signals and killing on the way. */
    method Scan(now: nat)
      requires Valid()
      modifies this
      ensures Valid()
      ensures Outcome(lists, cursor) == ScanFrom(old(lists), me, now, old(cursor) + 1)
    {
      ghost var goal := ScanFrom(lists, me, now, cursor + 1);
      var more := true;
      while more
        invariant Valid()
        invariant more ==> ScanFrom(lists, me, now, cursor + 1) == goal
        invariant !more ==> Outcome(lists, cursor) == goal
        decreases more, |lists[me]|, |lists[me]| - cursor
      {
        more := ScanOne(now);
      }
    }
  }
}
