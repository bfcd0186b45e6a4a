/** What a kill marks: the block it compared may hold another thread by the time it marks it.
    Source: source/kernel/hardware/devices/cpu/scheduler.c:1045-1059 */
module LifecycleMarks {
  import opened Lifecycle
  import opened LifecycleBooks
  import opened LifecycleTids
  import opened LifecycleNodes
  import opened LifecycleHeads
  import opened LifecycleParents

  /** The block a kill is about to mark holds the thread it compared, or one made since the kill began. */
  predicate SeenOk(s: Process, k: nat)
    requires k < |s.pcs|
  {
    s.pcs[k].Matching? ==>
      0 <= s.pcs[k].at < |s.nodes| && s.pcs[k].seen < s.serial &&
      var x := s.nodes[s.pcs[k].at].thread;
      if x.self == s.pcs[k].seen then x.creatorTid == s.pcs[k].victim.tid else x.self >= s.pcs[k].since
  }

  /** No child of a victim is younger than its kill. */
  predicate OldEnough(s: Process, k: nat, x: Thread)
    requires k < |s.pcs|
  {
    Walking(s.pcs[k]) && x.creator == s.pcs[k].victim.self ==> x.self < s.pcs[k].since
  }

  ghost predicate DatedAt(s: Process, k: nat)
    requires k < |s.pcs|
  {
    && (Walking(s.pcs[k]) ==> s.pcs[k].since <= s.serial)
    && SeenOk(s, k)
    && (forall j: nat, x :: j < |s.lists| && x in s.lists[j] ==> OldEnough(s, k, x))
  }

  /** No incarnation is or was in two blocks. */
  predicate Apart(s: Process) {
    && (forall n :: 0 <= n < |s.nodes| ==> s.nodes[n].thread.self < s.serial)
    && (forall m, n :: 0 <= m < n < |s.nodes| ==> s.nodes[m].thread.self != s.nodes[n].thread.self)
  }

  ghost predicate Dated(s: Process) {
    Apart(s) && forall k: nat :: k < |s.pcs| ==> DatedAt(s, k)
  }

  /** A thread that is being killed creates nothing. */
  lemma {:induction false} VictimMakesNothing(s: Process, c: nat, k: nat)
    requires CountsRight(s) && c < |s.pcs| && k < |s.pcs| && s.pcs[c].Ready? && Walking(s.pcs[k])
    ensures s.pcs[c].child.creator != s.pcs[k].victim.self
  {
    assert PcOk(s, c) && PcOk(s, k);
    if s.pcs[c].child.creator == s.pcs[k].victim.self {
      OneParent(s, c, s.pcs[c].maker, k, s.pcs[k].victim);
    }
  }

  /** Only filling a block changes the thread in it. */
  lemma {:induction false} ThreadsStay(s: Process, step: Step, n: nat)
    requires Shaped(s) && Enabled(s, step) && n < |s.nodes|
    ensures var t := Apply(s, step);
            && n < |t.nodes| && s.serial <= t.serial
            && (t.nodes[n].thread == s.nodes[n].thread || t.nodes[n].thread.self == s.serial)
  {
    if step.Advance? && s.pcs[step.core].Claimed? {
      assert PcOk(s, step.core);
    } else {
      ThreadsKept(s, step);
    }
  }

  lemma {:induction false} StepKeepsApart(s: Process, step: Step)
    requires Shaped(s) && Enabled(s, step) && Apart(s)
    ensures Apart(Apply(s, step))
  {
    var t := Apply(s, step);
    if step.Advance? && s.pcs[step.core].Claimed? {
      assert PcOk(s, step.core);
    } else {
      ThreadsKept(s, step);
      forall n | 0 <= n < |t.nodes| ensures t.nodes[n].thread.self < t.serial {
        assert s.nodes[n].thread.self < s.serial;
      }
    }
  }

  lemma {:induction false} ThreadsKept(s: Process, step: Step)
    requires Shaped(s) && Enabled(s, step) && !(step.Advance? && s.pcs[step.core].Claimed?)
    ensures var t := Apply(s, step);
            && |t.nodes| == |s.nodes| && t.serial == s.serial
            && forall n :: 0 <= n < |s.nodes| ==> t.nodes[n].thread == s.nodes[n].thread
  {
    if step.Advance? {
      var c := step.core;
      assert PcOk(s, c);
      if Creating(s.pcs[c]) {
        if !s.pcs[c].Ready? { CreateAside(s, c); }
      } else if Walking(s.pcs[c]) {
        if !WalkStep(s, c).pcs[c].Unlinked? { WalkAside(s, c); }
      } else if Releasing(s.pcs[c]) && !s.pcs[c].Checked? {
        ReleaseAside(s, c);
      }
    }
  }

  lemma {:induction false} KillLooks(s: Process, k: nat)
    requires Shaped(s) && k < |s.pcs| && Walking(s.pcs[k])
    ensures var pc, t := s.pcs[k], WalkStep(s, k);
            |t.pcs| == |s.pcs| &&
            (Walking(t.pcs[k]) ==>
              && t.pcs[k].victim == pc.victim && t.pcs[k].since == pc.since
              && (t.pcs[k].Matching? ==>
                    pc.Standing? && t.pcs[k].at == pc.at && 0 <= pc.at < |s.nodes| && t.nodes == s.nodes
                    && t.pcs[k].seen == s.nodes[pc.at].thread.self
                    && s.nodes[pc.at].thread.creatorTid == pc.victim.tid))
  {
    assert PcOk(s, k);
  }

  lemma {:induction false} OthersStay(s: Process, step: Step, k: nat)
    requires Shaped(s) && Enabled(s, step) && k < |s.pcs| && k != step.core
    ensures |Apply(s, step).pcs| == |s.pcs| && Apply(s, step).pcs[k] == s.pcs[k]
  {
    if PushesOn(s, step, k) {
      assert PcOk(s, step.core);
    } else {
      ListsElsewhere(s, step, k);
    }
  }

  /** What a step leaves of a kill that is looking for children. */
  lemma {:induction false} WalkingAfterStep(s: Process, step: Step, k: nat)
    requires Shaped(s) && Enabled(s, step) && k < |s.pcs|
    ensures var t := Apply(s, step);
            && |t.pcs| == |s.pcs|
            && (Walking(t.pcs[k]) && !(step.BeginKill? && step.core == k) ==>
                  Walking(s.pcs[k]) && t.pcs[k].victim == s.pcs[k].victim && t.pcs[k].since == s.pcs[k].since)
            && (step.BeginKill? && step.core == k ==>
                  t.pcs[k] == Marking(step.victim, Behind(s.lists[k], step.victim), s.serial, 0))
  {
    if step.core != k {
      OthersStay(s, step, k);
    } else if step.Advance? {
      if Walking(s.pcs[k]) { KillLooks(s, k); } else { NobodyStartsToWalk(s, k); }
    }
  }

  lemma {:induction false} NobodyStartsToWalk(s: Process, k: nat)
    requires Shaped(s) && k < |s.pcs| && !s.pcs[k].Idle? && !Walking(s.pcs[k])
    ensures |Advanced(s, k).pcs| == |s.pcs| && !Walking(Advanced(s, k).pcs[k])
  {
    if Creating(s.pcs[k]) && !s.pcs[k].Claimed? && !s.pcs[k].Ready? {
      CreateAside(s, k);
    } else if Releasing(s.pcs[k]) && !s.pcs[k].Checked? {
      ReleaseAside(s, k);
    }
  }

  lemma {:induction false} LookSees(s: Process, k: nat)
    requires Shaped(s) && Apart(s) && k < |s.pcs| && Walking(s.pcs[k]) && |WalkStep(s, k).pcs| == |s.pcs|
    ensures SeenOk(WalkStep(s, k), k)
  {
    KillLooks(s, k);
    var t := WalkStep(s, k);
    if t.pcs[k].Matching? { WalkAside(s, k); }
  }

  lemma {:induction false} OthersLeaveSeen(s: Process, step: Step, k: nat)
    requires Shaped(s) && Enabled(s, step) && k < |s.pcs| == |Apply(s, step).pcs| && k != step.core
    requires SeenOk(s, k) && (Walking(s.pcs[k]) ==> s.pcs[k].since <= s.serial)
    ensures SeenOk(Apply(s, step), k)
  {
    OthersStay(s, step, k);
    if s.pcs[k].Matching? { ThreadsStay(s, step, s.pcs[k].at); }
  }

  lemma {:induction false} SeenStays(s: Process, step: Step, k: nat)
    requires Shaped(s) && Enabled(s, step) && Dated(s) && k < |s.pcs| == |Apply(s, step).pcs|
    ensures SeenOk(Apply(s, step), k)
  {
    assert DatedAt(s, k);
    if step.core != k {
      OthersLeaveSeen(s, step, k);
    } else if step.Advance? {
      if Walking(s.pcs[k]) { LookSees(s, k); } else { NobodyStartsToWalk(s, k); }
    }
  }

  lemma {:induction false} ListsOnlyGainPushed(s: Process, step: Step, j: nat, x: Thread)
    requires Shaped(s) && Enabled(s, step)
    requires |Apply(s, step).lists| == |s.lists| && j < |s.lists| && x in Apply(s, step).lists[j]
    ensures x in s.lists[j] || (step.Advance? && s.pcs[step.core].Ready? && x == s.pcs[step.core].child)
  {
    var c := step.core;
    assert PcOk(s, c);
    if step.Advance? {
      if Walking(s.pcs[c]) {
        WalkOnlyShortens(s, c, j, x);
      } else if s.pcs[c].Exchanging? {
        WithoutKeeps(s.lists[c], s.pcs[c].current, x);
      } else if Releasing(s.pcs[c]) {
        if !s.pcs[c].Checked? { ReleaseAside(s, c); }
      } else if !s.pcs[c].Claimed? && !s.pcs[c].Ready? {
        CreateAside(s, c);
      }
    }
  }

  lemma {:induction false} WalkOnlyShortens(s: Process, c: nat, j: nat, x: Thread)
    requires Shaped(s) && c < |s.pcs| && Walking(s.pcs[c])
    requires |WalkStep(s, c).lists| == |s.lists| && j < |s.lists| && x in WalkStep(s, c).lists[j]
    ensures x in s.lists[j]
  {
    WithoutKeeps(s.lists[c], s.pcs[c].victim, x);
    if !WalkStep(s, c).pcs[c].Unlinked? { WalkAside(s, c); }
  }

  lemma {:induction false} ChildrenStayOld(s: Process, step: Step, k: nat, j: nat, x: Thread)
    requires CountsRight(s) && Enabled(s, step) && Dated(s) && k < |s.pcs| == |Apply(s, step).pcs|
    requires |Apply(s, step).lists| == |s.lists| && j < |s.lists| && x in Apply(s, step).lists[j]
    ensures OldEnough(Apply(s, step), k, x)
  {
    assert DatedAt(s, k);
    WalkingAfterStep(s, step, k);
    ListsOnlyGainPushed(s, step, j, x);
    if x in s.lists[j] {
      assert OldEnough(s, k, x);
      ListedIsOld(s, j, x);
    } else if Walking(s.pcs[k]) {
      VictimMakesNothing(s, step.core, k);
    }
  }

  lemma {:induction false} StepKeepsDates(s: Process, step: Step)
    requires CountsRight(s) && Enabled(s, step) && Dated(s)
    ensures Dated(Apply(s, step))
  {
    StepKeepsShape(s, step);
    StepKeepsApart(s, step);
    var t := Apply(s, step);
    CoresStay(s, step);
    forall k: nat | k < |t.pcs|
      ensures DatedAt(t, k)
    {
      assert DatedAt(s, k);
      WalkingAfterStep(s, step, k);
      SeenStays(s, step, k);
      SerialGrows(s, step);
      forall j: nat, x | j < |t.lists| && x in t.lists[j] ensures OldEnough(t, k, x) {
        ChildrenStayOld(s, step, k, j, x);
      }
    }
  }

  lemma {:induction false} SerialGrows(s: Process, step: Step)
    requires Shaped(s) && Enabled(s, step)
    ensures s.serial <= Apply(s, step).serial
  {
    if !(step.Advance? && s.pcs[step.core].Claimed?) { ThreadsKept(s, step); }
  }

  lemma {:induction false} RunKeepsDates(s: Process, steps: seq<Step>)
    requires CountsRight(s) && CanRun(s, steps) && Dated(s)
    ensures Dated(Run(s, steps))
    decreases |steps|
  {
    if steps != [] {
      StepKeepsDates(s, steps[0]);
      StepKeepsCounts(s, steps[0]);
      RunKeepsDates(Apply(s, steps[0]), steps[1..]);
    }
  }

  /** With right books the victim is the creator of an unmarked thread that names its TID. */
  lemma {:induction false} NamedIsParent(s: Process, k: nat, j: nat, x: Thread)
    requires Booked(s) && Parented(s) && k < |s.pcs| && Walking(s.pcs[k])
    requires j < |s.lists| && x in s.lists[j] && Unmarked(s, x)
    requires x.creatorTid == s.pcs[k].victim.tid
    ensures x.creator == s.pcs[k].victim.self
  {
    assert PcOk(s, k) && Fostered(s, j, x);
    var c: nat, y :| IsParent(s, c, y, x, j);
    var victim := s.pcs[k].victim;
    var p :| 0 <= p < |s.lists[c]| && s.lists[c][p] == y;
    var q :| 0 <= q < |s.lists[k]| && s.lists[k][q] == victim;
    ListedTidsDiffer(s, c, p, k, q);
  }

  /** Where parents and books are right: a kill about to mark newly marks, of the listed threads, exactly the one
      in the block it stands on; and that is the victim's own child if and only if the block still holds the
      thread whose creator was compared. */
  lemma {:induction false} KillMarksOnlyItsChildren(s: Process, k: nat, j: nat, x: Thread)
    requires Booked(s) && HeapOk(s) && Parented(s) && Dated(s)
    requires k < |s.pcs| && s.pcs[k].Matching? && j < |s.lists| && x in s.lists[j] && Unmarked(s, x)
    ensures x.self in WalkStep(s, k).marked <==> x.node == s.pcs[k].at
    ensures x.node == s.pcs[k].at ==> (x.creator == s.pcs[k].victim.self <==> x.self == s.pcs[k].seen)
  {
    assert PcOk(s, k) && DatedAt(s, k) && OldEnough(s, k, x);
    LinkedPlace(s.nodes, s.lists[j], x);
    var victim, at := s.pcs[k].victim, s.pcs[k].at;
    if x.node == at && x.self == s.pcs[k].seen {
      NamedIsParent(s, k, j, x);
    }
  }

  /** All of that is so after every run from a new process in which no store is overtaken and no way is cut. */
  lemma {:induction false} ReachableFamily(cores: nat, target: nat, steps: seq<Step>)
    requires target < cores && CanRun(Start(cores, target), steps)
    requires StoresFresh(Start(cores, target), steps) && CutFree(Start(cores, target), steps)
    ensures var t := Run(Start(cores, target), steps);
            Booked(t) && HeapOk(t) && Parented(t) && Dated(t)
  {
    var s := Start(cores, target);
    StartIsBooked(cores, target);
    StartIsParented(cores, target);
    assert Dated(s) by {
      forall k: nat | k < |s.pcs| ensures DatedAt(s, k) {}
    }
    RunKeepsBooks(s, steps);
    RunKeepsHeap(s, steps);
    RunKeepsParents(s, steps);
    RunKeepsDates(s, steps);
  }
}
