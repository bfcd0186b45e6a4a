/** Where the cores get to as they walk the list of processes: every move goes on to the next one, and a core whose
    process is taken out of the list goes on from there to the one that followed it.
    Source: source/kernel/hardware/devices/cpu/scheduler.c:911-926, 978-985 */
module ProcessWalk {
  import opened Chain
  import opened ProcessRemoval

  // ----- the next process

  /** The process behind `p`, NULL behind the last one. */
  function Following(order: seq<nat>, p: int): int {
    if order == [] then NIL
    else if order[0] == p then (if |order| > 1 then order[1] else NIL)
    else Following(order[1..], p)
  }

  /** Where a move leads: from NULL to the first process, from a process to the one behind it. */
  function NextIn(order: seq<nat>, p: int): int {
    if p == NIL then (if order == [] then NIL else order[0]) else Following(order, p)
  }

  lemma {:induction false} FollowingAt(order: seq<nat>, k: nat)
    requires Distinct(order) && k < |order|
    ensures Following(order, order[k]) == if k + 1 < |order| then order[k + 1] else NIL
  {
    if k > 0 {
      assert order[0] != order[k] && order[1..][k - 1] == order[k];
      FollowingAt(order[1..], k - 1);
    }
  }

  lemma {:induction false} LinkFollows(s: State, p: int)
    requires Inv(s) && InList(s, p)
    ensures (if p == NIL then s.head else SuccessorOf(s, p)) == NextIn(s.order, p)
    ensures InList(s, NextIn(s.order, p))
  {
    if p != NIL {
      var k := IndexIn(s.order, p);
      assert Link(s.next, s.order, k);
      FollowingAt(s.order, k);
    }
  }

  // ----- one move

  /** What a core reads after taking its lock is the next process of the list. */
  lemma {:induction false} ReadsNext(s: State, i: nat)
    requires Inv(s) && Enabled(s, Advance(i)) && s.pcs[i].Locked? && InList(s, s.cursors[i])
    ensures Apply(s, Advance(i)) == At(s, i, Got(s.cursors[i], NextIn(s.order, s.cursors[i])))
  {
    LinkFollows(s, s.cursors[i]);
  }

  /** A walk in order: the core stands in the list or before it, and what it has read is the next process. */
  predicate WalkOk(s: State, i: nat)
    requires i < |s.pcs| == |s.cursors|
  {
    InList(s, s.cursors[i]) && (s.pcs[i].Got? ==> s.pcs[i].temp == NextIn(s.order, s.cursors[i]))
  }

  /** The step by which core `i` moves its cursor. */
  predicate MovesOn(s: State, step: Step, i: nat) {
    step == Advance(i) && i < |s.pcs| && s.pcs[i].Got?
  }

  /** The list does not change. */
  predicate Calm(step: Step) {
    !step.Push? && !step.Remove?
  }

  lemma {:induction false} OwnStep(s: State, i: nat)
    requires Inv(s) && Enabled(s, Advance(i)) && Victim(s.pcs[0]) == NIL && WalkOk(s, i)
    ensures var t := Advanced(s, i);
            && |t.pcs| == |t.cursors| == |s.pcs| && t.order == s.order && Victim(t.pcs[0]) == NIL && WalkOk(t, i)
            && t.cursors[i] == (if s.pcs[i].Got? then NextIn(s.order, s.cursors[i]) else s.cursors[i])
  {
    assert CoreOk(s, i);
    LinkFollows(s, s.cursors[i]);
  }

  lemma {:induction false} OtherStep(s: State, j: nat, i: nat)
    requires Inv(s) && Enabled(s, Advance(j)) && Victim(s.pcs[0]) == NIL && i < |s.pcs| && i != j
    ensures var t := Advanced(s, j);
            && |t.pcs| == |t.cursors| == |s.pcs| && t.order == s.order && Victim(t.pcs[0]) == NIL
            && t.cursors[i] == s.cursors[i] && t.pcs[i] == s.pcs[i]
  {
    assert CoreOk(s, j);
  }

  lemma {:induction false} CalmStep(s: State, step: Step, i: nat)
    requires Inv(s) && Enabled(s, step) && Calm(step) && Victim(s.pcs[0]) == NIL && i < |s.pcs| && WalkOk(s, i)
    ensures var t := Apply(s, step);
            && |t.pcs| == |t.cursors| == |s.pcs| && t.order == s.order && Victim(t.pcs[0]) == NIL && WalkOk(t, i)
            && t.cursors[i] == (if MovesOn(s, step, i) then NextIn(s.order, s.cursors[i]) else s.cursors[i])
  {
    if step.Advance? {
      if step.core == i { OwnStep(s, i); } else { OtherStep(s, step.core, i); }
    }
  }

  /** A move of a core that counts leads to the next process too. */
  lemma {:induction false} CountLands(s: State, i: nat)
    requires Inv(s) && Enabled(s, Count(i)) && InList(s, s.readers[i])
    ensures Apply(s, Count(i)) == s.(readers := s.readers[i := NextIn(s.order, s.readers[i])])
  {
    LinkFollows(s, s.readers[i]);
  }

  // ----- whole walks

  function Nth(order: seq<nat>, p: int, m: nat): int
    decreases m
  {
    if m == 0 then p else Nth(order, NextIn(order, p), m - 1)
  }

  function Moves(s: State, steps: seq<Step>, i: nat): nat
    requires CanRun(s, steps)
    decreases |steps|
  {
    if steps == [] then 0 else (if MovesOn(s, steps[0], i) then 1 else 0) + Moves(Apply(s, steps[0]), steps[1..], i)
  }

  ghost predicate AllCalm(steps: seq<Step>) {
    forall k :: 0 <= k < |steps| ==> Calm(steps[k])
  }

  /** While no process comes or goes: however the cores interleave, after `m` moves a core stands `m` processes
      further on. */
  lemma {:induction false} WalkGoesOn(s: State, steps: seq<Step>, i: nat)
    requires Inv(s) && CanRun(s, steps) && AllCalm(steps) && Victim(s.pcs[0]) == NIL && i < |s.pcs| && WalkOk(s, i)
    ensures var t := Run(s, steps);
            && i < |t.cursors| && t.order == s.order
            && t.cursors[i] == Nth(s.order, s.cursors[i], Moves(s, steps, i))
    decreases |steps|
  {
    if steps != [] {
      assert Calm(steps[0]) && forall k :: 0 <= k < |steps[1..]| ==> steps[1..][k] == steps[k + 1];
      StepKeepsInv(s, steps[0]);
      CalmStep(s, steps[0], i);
      WalkGoesOn(Apply(s, steps[0]), steps[1..], i);
    }
  }

  lemma {:induction false} NthFrom(order: seq<nat>, k: nat, m: nat)
    requires Distinct(order) && k < |order| && m <= |order| - k
    ensures Nth(order, order[k], m) == if k + m < |order| then order[k + m] else NIL
    decreases m
  {
    if m > 0 {
      FollowingAt(order, k);
      if k + 1 < |order| { NthFrom(order, k + 1, m - 1); }
    }
  }

  /** From NULL the moves lead to the first process, the second, and so on; after the last one they lead to NULL. */
  lemma {:induction false} NthIsPlace(order: seq<nat>, m: nat)
    requires Distinct(order) && m <= |order| + 1
    ensures Nth(order, NIL, m) == if 1 <= m <= |order| then order[m - 1] else NIL
  {
    if m > 0 {
      if order == [] {
        assert Nth(order, NIL, 1) == Nth(order, NIL, 0);
      } else {
        NthFrom(order, 0, m - 1);
      }
    }
  }

  /** So while no process comes or goes, |order| + 1 moves from NULL visit every process once, in order, and end at
      NULL again. */
  lemma {:induction false} WalkVisitsAll(s: State, steps: seq<Step>, i: nat)
    requires Inv(s) && CanRun(s, steps) && AllCalm(steps) && Victim(s.pcs[0]) == NIL && i < |s.pcs| && WalkOk(s, i)
    requires s.cursors[i] == NIL && Moves(s, steps, i) <= |s.order| + 1
    ensures var t, m := Run(s, steps), Moves(s, steps, i);
            i < |t.cursors| && t.cursors[i] == if 1 <= m <= |s.order| then s.order[m - 1] else NIL
  {
    WalkGoesOn(s, steps, i);
    NthIsPlace(s.order, Moves(s, steps, i));
  }

  /** Such walks exist: a core that is idle and whose lock is free can always make a move, which leads to the next
      process and changes nothing else. */
  lemma {:induction false} MoveLands(s: State, i: nat)
    requires Inv(s) && i < |s.pcs| && s.pcs[i].Idle? && s.locks[i] == NIL && InList(s, s.cursors[i])
    ensures CanRun(s, [Lock(i), Advance(i), Advance(i), Advance(i)])
    ensures Run(s, [Lock(i), Advance(i), Advance(i), Advance(i)]) ==
            s.(cursors := s.cursors[i := NextIn(s.order, s.cursors[i])])
  {
    var next := NextIn(s.order, s.cursors[i]);
    var a := Apply(s, Lock(i));
    StepKeepsInv(s, Lock(i));
    ReadsNext(a, i);
    var b := At(a, i, Got(s.cursors[i], next));
    StepKeepsInv(a, Advance(i));
    var c := At(b.(cursors := b.cursors[i := next]), i, Looking(s.cursors[i]));
    assert Apply(b, Advance(i)) == c;
    StepKeepsInv(b, Advance(i));
    var t := s.(cursors := s.cursors[i := next]);
    assert Apply(c, Advance(i)).pcs == t.pcs && Apply(c, Advance(i)).locks == t.locks;
    assert Apply(c, Advance(i)) == t;
    RunStarts(c, Advance(i), t, []);
    RunStarts(b, Advance(i), c, [Advance(i)]);
    RunStarts(a, Advance(i), b, [Advance(i), Advance(i)]);
    RunStarts(s, Lock(i), a, [Advance(i), Advance(i), Advance(i)]);
    assert [Advance(i)] + [] == [Advance(i)] && [Advance(i)] + [Advance(i)] == [Advance(i), Advance(i)];
    assert [Advance(i)] + [Advance(i), Advance(i)] == [Advance(i), Advance(i), Advance(i)];
    assert [Lock(i)] + [Advance(i), Advance(i), Advance(i)] == [Lock(i), Advance(i), Advance(i), Advance(i)];
  }

  // ----- a core whose process is taken out of the list

  /** Core 0 is at the removal of `v` all along. */
  ghost predicate Removing(s: State, steps: seq<Step>, v: nat)
    requires CanRun(s, steps)
    decreases |steps|
  {
    && 0 < |s.pcs| && Victim(s.pcs[0]) == v
    && (steps == [] || Removing(Apply(s, steps[0]), steps[1..], v))
  }

  lemma {:induction false} VictimLeadsOn(s: State, step: Step, v: nat)
    requires Inv(s) && Enabled(s, step) && Victim(s.pcs[0]) == v
    requires 0 < |Apply(s, step).pcs| && Victim(Apply(s, step).pcs[0]) == v
    ensures SuccessorOf(Apply(s, step), v) == SuccessorOf(s, v)
  {
    assert CoreOk(s, 0) && VictimOk(s, v);
    if step.Advance? { assert CoreOk(s, step.core); }
  }

  lemma {:induction false} VictimLeadsOnAlong(s: State, steps: seq<Step>, v: nat)
    requires Inv(s) && CanRun(s, steps) && Removing(s, steps, v)
    ensures SuccessorOf(Run(s, steps), v) == SuccessorOf(s, v)
    decreases |steps|
  {
    if steps != [] {
      StepKeepsInv(s, steps[0]);
      VictimLeadsOn(s, steps[0], v);
      VictimLeadsOnAlong(Apply(s, steps[0]), steps[1..], v);
    }
  }

  lemma {:induction false} RemovedLeadsOn(s: State)
    requires Inv(s) && Enabled(s, Remove)
    ensures s.cursors[0] >= 0 && Victim(Apply(s, Remove).pcs[0]) == s.cursors[0]
    ensures SuccessorOf(Apply(s, Remove), s.cursors[0]) == Following(s.order, s.cursors[0])
  {
    assert CoreOk(s, 0);
    var v := s.cursors[0];
    var k := IndexIn(s.order, v);
    UnlinkCloses(s, k);
    assert Link(s.next, s.order, k);
    FollowingAt(s.order, k);
    if k > 0 { assert s.order[k - 1] != s.order[k]; }
  }

  /** A core that stands on the process being removed when core 0 comes to repair its cursor is put on the process that
      followed it when it was removed, or on NULL if it was the last; a core that stands elsewhere stays there. */
  lemma {:induction false} RepairedStands(s: State, steps: seq<Step>)
    requires Inv(s) && Enabled(s, Remove) && s.cursors[0] >= 0
    requires CanRun(Apply(s, Remove), steps) && Removing(Apply(s, Remove), steps, s.cursors[0])
    requires Inv(Run(Apply(s, Remove), steps)) && Run(Apply(s, Remove), steps).pcs[0].Holding?
    ensures var t, v := Run(Apply(s, Remove), steps), s.cursors[0];
            var j := t.pcs[0].core;
            && j < |t.cursors| && Enabled(t, Advance(0))
            && Apply(t, Advance(0)).cursors ==
                 t.cursors[j := if t.cursors[j] == v then Following(s.order, v) else t.cursors[j]]
  {
    StepKeepsInv(s, Remove);
    RemovedLeadsOn(s);
    VictimLeadsOnAlong(Apply(s, Remove), steps, s.cursors[0]);
    EndsRemoving(Apply(s, Remove), steps, s.cursors[0]);
  }

  lemma {:induction false} EndsRemoving(s: State, steps: seq<Step>, v: nat)
    requires CanRun(s, steps) && Removing(s, steps, v)
    ensures 0 < |Run(s, steps).pcs| && Victim(Run(s, steps).pcs[0]) == v
    decreases |steps|
  {
    if steps != [] { EndsRemoving(Apply(s, steps[0]), steps[1..], v); }
  }
}
