/** The kill of the first thread of a list: it compares the head with its victim and exchanges it, and takes another
    thread instead if that fails because of one pushed meanwhile.
    Source: source/kernel/hardware/devices/cpu/scheduler.c:488-500, 1010-1016, 1061-1081 */
module LifecycleHeads {
  import opened Lifecycle
  import opened LifecycleBooks
  import opened LifecycleTids
  import opened LifecycleNodes

  /** The threads in front of `x`. */
  function Before(list: seq<Thread>, x: Thread): seq<Thread> {
    if list == [] || list[0] == x then [] else [list[0]] + Before(list[1..], x)
  }

  lemma {:induction false} BeforePush(list: seq<Thread>, child: Thread, x: Thread)
    requires child != x
    ensures Before([child] + list, x) == [child] + Before(list, x)
  {
    assert ([child] + list)[1..] == list;
  }

  lemma {:induction false} BeforeIsListed(list: seq<Thread>, x: Thread, y: Thread)
    requires y in Before(list, x)
    ensures y in list && y != x
  {
    if list[0] != y {
      BeforeIsListed(list[1..], x, y);
    }
  }

  // ----- threads pushed in front of a victim have no children

  /** Listed, or about to be. */
  ghost predicate Around(s: Process, x: Thread) {
    (exists j: nat :: j < |s.lists| && x in s.lists[j]) ||
    (exists d: nat :: d < |s.pcs| && Carries(s.pcs[d]) && s.pcs[d].child == x)
  }

  predicate IsChild(x: Thread, y: Thread) {
    x.creator == y.self && x.creatorTid != 0
  }

  ghost predicate Childless(s: Process, y: Thread) {
    forall x :: Around(s, x) ==> !IsChild(x, y)
  }

  /** A kill whose victim was the first of its list. */
  predicate AtHead(pc: Pc) {
    (Walking(pc) && pc.prev == NIL) || pc.Exchanging?
  }

  ghost predicate CarriedNew(s: Process, d: nat)
    requires d < |s.pcs|
  {
    Carries(s.pcs[d]) ==> Childless(s, s.pcs[d].child)
  }

  ghost predicate FrontNew(s: Process, c: nat)
    requires c < |s.pcs| == |s.lists|
  {
    AtHead(s.pcs[c]) ==>
      && (forall y :: y in Before(s.lists[c], s.pcs[c].victim) ==> Childless(s, y))
      && (s.pcs[c].Exchanging? ==> s.pcs[c].current in Before(s.lists[c], s.pcs[c].victim))
  }

  predicate CreatorOld(s: Process, x: Thread) {
    x.creator < s.serial
  }

  /** Threads that have not run have no children: those not listed yet, and those pushed in front of a victim, whose
      core is busy with its kill. */
  ghost predicate NewOk(s: Process)
    requires |s.pcs| == |s.lists|
  {
    && (forall x :: Around(s, x) ==> CreatorOld(s, x))
    && (forall d :: 0 <= d < |s.pcs| ==> CarriedNew(s, d))
    && (forall c :: 0 <= c < |s.pcs| ==> FrontNew(s, c))
  }

  lemma {:induction false} FewerChildren(s: Process, t: Process, y: Thread)
    requires Childless(s, y) && forall x :: Around(t, x) ==> Around(s, x)
    ensures Childless(t, y)
  {
  }

  /** The lists and the threads about to be listed stay as they are. */
  predicate Beside(s: Process, t: Process, c: nat) {
    && |t.pcs| == |s.pcs| == |s.lists| && c < |s.pcs| && t.pcs == s.pcs[c := t.pcs[c]] && t.lists == s.lists
    && t.serial == s.serial && (Carries(t.pcs[c]) ==> Carries(s.pcs[c]) && t.pcs[c].child == s.pcs[c].child)
  }

  lemma {:induction false} NobodyComes(s: Process, t: Process, c: nat, x: Thread)
    requires Beside(s, t, c) && Around(t, x)
    ensures Around(s, x)
  {
    if !(exists j: nat :: j < |t.lists| && x in t.lists[j]) {
      var d: nat :| d < |t.pcs| && Carries(t.pcs[d]) && t.pcs[d].child == x;
      assert Carries(s.pcs[d]) && s.pcs[d].child == x;
    }
  }

  lemma {:induction false} BesideKeepsNew(s: Process, t: Process, c: nat)
    requires Beside(s, t, c) && NewOk(s)
    requires AtHead(t.pcs[c]) ==>
               || (AtHead(s.pcs[c]) && t.pcs[c].victim == s.pcs[c].victim)
               || Before(t.lists[c], t.pcs[c].victim) == []
    requires t.pcs[c].Exchanging? ==> t.pcs[c].current in Before(t.lists[c], t.pcs[c].victim)
    ensures NewOk(t)
  {
    forall x | Around(t, x) ensures Around(s, x) && CreatorOld(t, x) {
      NobodyComes(s, t, c, x);
      assert CreatorOld(s, x);
    }
    forall d | 0 <= d < |t.pcs|
      ensures CarriedNew(t, d) && FrontNew(t, d)
    {
      assert CarriedNew(s, d) && FrontNew(s, d);
      if Carries(t.pcs[d]) { FewerChildren(s, t, t.pcs[d].child); }
      if AtHead(t.pcs[d]) {
        forall y | y in Before(t.lists[d], t.pcs[d].victim) ensures Childless(t, y) { FewerChildren(s, t, y); }
      }
    }
  }

  lemma {:induction false} BeginKeepsNew(s: Process, step: Step)
    requires Shaped(s) && NewOk(s) && Enabled(s, step) && !step.Advance?
    ensures |Apply(s, step).pcs| == |Apply(s, step).lists| && NewOk(Apply(s, step))
  {
    if step.BeginKill? && Behind(s.lists[step.core], step.victim) == NIL {
      HeadHasNobodyBehind(s.lists[step.core], step.victim);
    }
    BesideKeepsNew(s, Apply(s, step), step.core);
  }

  lemma {:induction false} CreateKeepsNew(s: Process, c: nat)
    requires Shaped(s) && NewOk(s) && c < |s.pcs| && Creating(s.pcs[c]) && !s.pcs[c].Claimed? && !s.pcs[c].Ready?
    ensures |CreateStep(s, c).pcs| == |CreateStep(s, c).lists| && NewOk(CreateStep(s, c))
  {
    CreateAside(s, c);
    BesideKeepsNew(s, CreateStep(s, c), c);
  }

  lemma {:induction false} WalkKeepsNew(s: Process, c: nat)
    requires Shaped(s) && NewOk(s) && c < |s.pcs| && Walking(s.pcs[c]) && !WalkStep(s, c).pcs[c].Unlinked?
    ensures |WalkStep(s, c).pcs| == |WalkStep(s, c).lists| && NewOk(WalkStep(s, c))
  {
    WalkAside(s, c);
    BesideKeepsNew(s, WalkStep(s, c), c);
  }

  lemma {:induction false} RetryKeepsNew(s: Process, c: nat)
    requires Shaped(s) && NewOk(s) && c < |s.pcs| && s.pcs[c].Exchanging? && !ExchangeStep(s, c).pcs[c].Unlinked?
    ensures |ExchangeStep(s, c).pcs| == |ExchangeStep(s, c).lists| && NewOk(ExchangeStep(s, c))
  {
    assert PcOk(s, c) && FrontNew(s, c);
    BesideKeepsNew(s, ExchangeStep(s, c), c);
  }

  lemma {:induction false} ReleaseKeepsNew(s: Process, c: nat)
    requires Shaped(s) && NewOk(s) && c < |s.pcs| && Releasing(s.pcs[c])
    ensures |ReleaseStep(s, c).pcs| == |ReleaseStep(s, c).lists| && NewOk(ReleaseStep(s, c))
  {
    if !s.pcs[c].Checked? { ReleaseAside(s, c); }
    BesideKeepsNew(s, ReleaseStep(s, c), c);
  }

  lemma {:induction false} ShorterKeepsNew(s: Process, t: Process, c: nat, x: Thread)
    requires |s.pcs| == |s.lists| == |t.pcs| && c < |s.pcs| && NewOk(s)
    requires t.lists == s.lists[c := Without(s.lists[c], x)] && t.pcs == s.pcs[c := t.pcs[c]] && t.pcs[c].Unlinked?
    requires t.serial == s.serial
    ensures NewOk(t)
  {
    forall y | Around(t, y) ensures Around(s, y) && CreatorOld(t, y) {
      if j: nat :| j < |t.lists| && y in t.lists[j] {
        WithoutKeeps(s.lists[c], x, y);
        assert y in s.lists[j];
      } else {
        var d: nat :| d < |t.pcs| && Carries(t.pcs[d]) && t.pcs[d].child == y;
        assert Carries(s.pcs[d]) && s.pcs[d].child == y;
      }
      assert CreatorOld(s, y);
    }
    forall d | 0 <= d < |t.pcs|
      ensures CarriedNew(t, d) && FrontNew(t, d)
    {
      assert CarriedNew(s, d) && FrontNew(s, d);
      if Carries(t.pcs[d]) { FewerChildren(s, t, t.pcs[d].child); }
      if AtHead(t.pcs[d]) {
        forall y | y in Before(t.lists[d], t.pcs[d].victim) ensures Childless(t, y) { FewerChildren(s, t, y); }
      }
    }
  }

  /** A thread about to be listed is no listed thread. */
  lemma {:induction false} CarriedIsNobody(s: Process, d: nat, c: nat, y: Thread)
    requires CountsRight(s) && d < |s.pcs| && Carries(s.pcs[d]) && c < |s.lists| && y in s.lists[c]
    ensures s.pcs[d].child.self != y.self
  {
    assert SelfBooked(s, y.self);
    var p :| 0 <= p < |s.lists[c]| && s.lists[c][p] == y;
    ListedWeight(Self(y.self), c, s.lists[c], p);
    OverOneList(Self(y.self), s.lists, c, |s.lists|);
    HeldByPc(Self(y.self), s.pcs, d, |s.pcs|);
  }

  /** Only the new thread comes, and its creator is neither about to be listed nor on another core. */
  lemma {:induction false} FillComes(s: Process, k: nat, x: Thread)
    requires Shaped(s) && k < |s.pcs| && s.pcs[k].Claimed?
    requires |CreateStep(s, k).pcs| == |CreateStep(s, k).lists| && Around(CreateStep(s, k), x)
    ensures Around(s, x) || (CreateStep(s, k).pcs[k].Filled? && x == CreateStep(s, k).pcs[k].child)
  {
    var t := CreateStep(s, k);
    if !(exists j: nat :: j < |t.lists| && x in t.lists[j]) {
      var d: nat :| d < |t.pcs| && Carries(t.pcs[d]) && t.pcs[d].child == x;
      if d != k { assert Carries(s.pcs[d]) && s.pcs[d].child == x; }
    }
  }

  lemma {:induction false} FillKeepsChildless(s: Process, k: nat, y: Thread)
    requires CountsRight(s) && k < |s.pcs| && s.pcs[k].Claimed? && Childless(s, y)
    requires y.self != s.pcs[k].maker.self
    ensures |CreateStep(s, k).pcs| == |CreateStep(s, k).lists| && Childless(CreateStep(s, k), y)
  {
    var t := CreateStep(s, k);
    forall x | Around(t, x) ensures !IsChild(x, y) { FillComes(s, k, x); }
  }

  /** The new thread itself. */
  lemma {:induction false} FilledIsNew(s: Process, k: nat)
    requires CountsRight(s) && NewOk(s) && k < |s.pcs| && s.pcs[k].Claimed?
    ensures |CreateStep(s, k).pcs| == |CreateStep(s, k).lists|
    ensures CarriedNew(CreateStep(s, k), k)
    ensures forall x :: Around(CreateStep(s, k), x) ==> CreatorOld(CreateStep(s, k), x)
  {
    var t := CreateStep(s, k);
    assert PcOk(s, k);
    ListedIsOld(s, k, s.pcs[k].maker);
    forall x | Around(t, x)
      ensures CreatorOld(t, x) && !IsChild(x, t.pcs[k].child)
    {
      FillComes(s, k, x);
      if Around(s, x) { assert CreatorOld(s, x); }
    }
  }

  lemma {:induction false} FillKeepsFront(s: Process, k: nat, c: nat)
    requires CountsRight(s) && NewOk(s) && k < |s.pcs| && s.pcs[k].Claimed? && c < |s.pcs| && c != k
    ensures |CreateStep(s, k).pcs| == |CreateStep(s, k).lists| == |s.pcs|
    ensures CarriedNew(CreateStep(s, k), c) && FrontNew(CreateStep(s, k), c)
  {
    var t := CreateStep(s, k);
    assert PcOk(s, k) && CarriedNew(s, c) && FrontNew(s, c);
    var maker := s.pcs[k].maker;
    if Carries(s.pcs[c]) {
      CarriedIsNobody(s, c, k, maker);
      FillKeepsChildless(s, k, s.pcs[c].child);
    } else if AtHead(s.pcs[c]) {
      var victim := s.pcs[c].victim;
      forall y | y in Before(s.lists[c], victim) ensures Childless(t, y) {
        BeforeIsListed(s.lists[c], victim, y);
        if y.self == maker.self { OneParent(s, c, y, k, maker); }
        FillKeepsChildless(s, k, y);
      }
    }
  }

  lemma {:induction false} FillKeepsNew(s: Process, k: nat)
    requires CountsRight(s) && NewOk(s) && k < |s.pcs| && s.pcs[k].Claimed?
    ensures |CreateStep(s, k).pcs| == |CreateStep(s, k).lists| && NewOk(CreateStep(s, k))
  {
    var t := CreateStep(s, k);
    FilledIsNew(s, k);
    forall d | 0 <= d < |t.pcs| ensures CarriedNew(t, d) && FrontNew(t, d) {
      if d != k { FillKeepsFront(s, k, d); }
    }
  }

  lemma {:induction false} PushComes(s: Process, k: nat, x: Thread)
    requires Shaped(s) && k < |s.pcs| && s.pcs[k].Ready?
    requires |CreateStep(s, k).pcs| == |CreateStep(s, k).lists| && Around(CreateStep(s, k), x)
    ensures Around(s, x)
  {
    assert PcOk(s, k);
    var t := CreateStep(s, k);
    if j: nat :| j < |t.lists| && x in t.lists[j] {
      if x != s.pcs[k].child { assert x in s.lists[j]; }
    } else {
      var d: nat :| d < |t.pcs| && Carries(t.pcs[d]) && t.pcs[d].child == x;
      assert Carries(s.pcs[d]) && s.pcs[d].child == x;
    }
  }

  /** What a push puts in front of a victim. */
  lemma {:induction false} PushInFront(s: Process, k: nat, c: nat)
    requires CountsRight(s) && k < |s.pcs| && s.pcs[k].Ready? && c < |s.pcs| && c != k && s.pcs[k].target < |s.lists|
    requires Walking(s.pcs[c]) || s.pcs[c].Exchanging?
    ensures var t := CreateStep(s, k);
            |t.lists| == |s.lists| &&
            Before(t.lists[c], s.pcs[c].victim) ==
              (if s.pcs[k].target == c then [s.pcs[k].child] else []) + Before(s.lists[c], s.pcs[c].victim)
  {
    assert PcOk(s, c) && PcOk(s, k);
    if s.pcs[k].target == c {
      CarriedIsNobody(s, k, c, s.pcs[c].victim);
      BeforePush(s.lists[c], s.pcs[k].child, s.pcs[c].victim);
    } else {
      assert [] + Before(s.lists[c], s.pcs[c].victim) == Before(s.lists[c], s.pcs[c].victim);
    }
  }

  lemma {:induction false} PushKeepsFront(s: Process, t: Process, k: nat, c: nat)
    requires CountsRight(s) && NewOk(s) && k < |s.pcs| && s.pcs[k].Ready? && c < |s.pcs| && t == CreateStep(s, k)
    requires forall x :: Around(t, x) ==> Around(s, x)
    ensures |t.pcs| == |t.lists| == |s.pcs| && CarriedNew(t, c) && FrontNew(t, c)
  {
    assert PcOk(s, k) && CarriedNew(s, c) && CarriedNew(s, k) && FrontNew(s, c);
    if c != k {
      if Carries(s.pcs[c]) {
        FewerChildren(s, t, s.pcs[c].child);
      } else if AtHead(s.pcs[c]) {
        PushInFront(s, k, c);
        forall y | y in Before(t.lists[c], s.pcs[c].victim) ensures Childless(t, y) {
          FewerChildren(s, t, y);
        }
      }
    }
  }

  lemma {:induction false} PushKeepsNew(s: Process, k: nat)
    requires CountsRight(s) && NewOk(s) && k < |s.pcs| && s.pcs[k].Ready?
    ensures |CreateStep(s, k).pcs| == |CreateStep(s, k).lists| && NewOk(CreateStep(s, k))
  {
    var t := CreateStep(s, k);
    assert PcOk(s, k);
    forall x | Around(t, x) ensures Around(s, x) && CreatorOld(t, x) { PushComes(s, k, x); assert CreatorOld(s, x); }
    forall d | 0 <= d < |t.pcs| ensures CarriedNew(t, d) && FrontNew(t, d) { PushKeepsFront(s, t, k, d); }
  }

  /** Every step keeps it so. */
  lemma {:induction false} StepKeepsNew(s: Process, step: Step)
    requires CountsRight(s) && Enabled(s, step) && NewOk(s)
    ensures |Apply(s, step).pcs| == |Apply(s, step).lists| && NewOk(Apply(s, step))
  {
    var c := step.core;
    if !step.Advance? {
      BeginKeepsNew(s, step);
    } else if s.pcs[c].Claimed? {
      FillKeepsNew(s, c);
    } else if s.pcs[c].Ready? {
      PushKeepsNew(s, c);
    } else if Creating(s.pcs[c]) {
      CreateKeepsNew(s, c);
    } else if Walking(s.pcs[c]) {
      if WalkStep(s, c).pcs[c].Unlinked? {
        UnlinkKeepsNew(s, c);
      } else {
        WalkKeepsNew(s, c);
      }
    } else if s.pcs[c].Exchanging? {
      if ExchangeStep(s, c).pcs[c].Unlinked? {
        ExchangeKeepsNew(s, c);
      } else {
        RetryKeepsNew(s, c);
      }
    } else {
      ReleaseKeepsNew(s, c);
    }
  }

  lemma {:induction false} UnlinkKeepsNew(s: Process, c: nat)
    requires Shaped(s) && NewOk(s) && c < |s.pcs| && Walking(s.pcs[c]) && WalkStep(s, c).pcs[c].Unlinked?
    ensures |WalkStep(s, c).pcs| == |WalkStep(s, c).lists| && NewOk(WalkStep(s, c))
  {
    ShorterKeepsNew(s, WalkStep(s, c), c, s.pcs[c].victim);
  }

  lemma {:induction false} ExchangeKeepsNew(s: Process, c: nat)
    requires Shaped(s) && NewOk(s) && c < |s.pcs| && s.pcs[c].Exchanging? && ExchangeStep(s, c).pcs[c].Unlinked?
    ensures |ExchangeStep(s, c).pcs| == |ExchangeStep(s, c).lists| && NewOk(ExchangeStep(s, c))
  {
    ShorterKeepsNew(s, ExchangeStep(s, c), c, s.pcs[c].current);
  }

  lemma {:induction false} StartIsNew(cores: nat, target: nat)
    requires target < cores
    ensures |Start(cores, target).pcs| == |Start(cores, target).lists| && NewOk(Start(cores, target))
  {
    var s := Start(cores, target);
    forall x | Around(s, x) ensures CreatorOld(s, x) {
      var j: nat :| j < |s.lists| && x in s.lists[j];
    }
  }

  // ----- which thread a kill unlinks

  /** The step puts a new thread at the head of the list of core `c`. */
  predicate PushesOn(s: Process, step: Step, c: nat) {
    step.Advance? && step.core < |s.pcs| && s.pcs[step.core].Ready? && s.pcs[step.core].target == c
  }

  function Pushes(s: Process, steps: seq<Step>, c: nat): nat
    requires CanRun(s, steps)
    decreases |steps|
  {
    if steps == [] then 0
    else (if PushesOn(s, steps[0], c) then 1 else 0) + Pushes(Apply(s, steps[0]), steps[1..], c)
  }

  /** The kill has not unlinked a thread yet. */
  predicate Seeking(pc: Pc) {
    Walking(pc) || pc.Exchanging?
  }

  /** The run ends with the step by which the kill on core `c` unlinks a thread. */
  ghost predicate UntilUnlinked(s: Process, steps: seq<Step>, c: nat)
    requires CanRun(s, steps)
    decreases |steps|
  {
    && steps != [] && c < |s.pcs| && Seeking(s.pcs[c])
    && (var t := Apply(s, steps[0]);
        if steps[1..] == [] then c < |t.pcs| && t.pcs[c].Unlinked? else UntilUnlinked(t, steps[1..], c))
  }

  /** The kill's victim is at the head, or has a thread before it whose pointer the kill knows. */
  predicate Hits(s: Process, c: nat, pushes: nat)
    requires c < |s.pcs| == |s.lists|
  {
    Walking(s.pcs[c]) && (s.pcs[c].prev != NIL || |Before(s.lists[c], s.pcs[c].victim)| + pushes == 0)
  }

  lemma {:induction false} CreationElsewhere(s: Process, k: nat, c: nat)
    requires Shaped(s) && k < |s.pcs| && Creating(s.pcs[k]) && c < |s.pcs| && c != k && !PushesOn(s, Advance(k), c)
    ensures var t := CreateStep(s, k);
            |t.pcs| == |t.lists| == |s.pcs| && t.pcs[c] == s.pcs[c] && t.lists[c] == s.lists[c]
  {
    if s.pcs[k].Ready? {
      assert PcOk(s, k);
    } else if !s.pcs[k].Claimed? {
      CreateAside(s, k);
    }
  }

  lemma {:induction false} ReleaseElsewhere(s: Process, k: nat, c: nat)
    requires Shaped(s) && k < |s.pcs| && Releasing(s.pcs[k]) && c < |s.pcs| && c != k
    ensures var t := ReleaseStep(s, k);
            |t.pcs| == |t.lists| == |s.pcs| && t.pcs[c] == s.pcs[c] && t.lists[c] == s.lists[c]
  {
    if !s.pcs[k].Checked? { ReleaseAside(s, k); }
  }

  lemma {:induction false} WalkElsewhere(s: Process, k: nat, c: nat)
    requires Shaped(s) && k < |s.pcs| && Walking(s.pcs[k]) && c < |s.pcs| && c != k
    ensures var t := WalkStep(s, k);
            |t.pcs| == |t.lists| == |s.pcs| && t.pcs[c] == s.pcs[c] && t.lists[c] == s.lists[c]
  {
    if !WalkStep(s, k).pcs[k].Unlinked? { WalkAside(s, k); }
  }

  lemma {:induction false} ListsElsewhere(s: Process, step: Step, c: nat)
    requires Shaped(s) && Enabled(s, step) && c < |s.pcs| && c != step.core && !PushesOn(s, step, c)
    ensures var t := Apply(s, step);
            |t.pcs| == |t.lists| == |s.pcs| && t.pcs[c] == s.pcs[c] && t.lists[c] == s.lists[c]
  {
    if step.Advance? {
      if Creating(s.pcs[step.core]) {
        CreationElsewhere(s, step.core, c);
      } else if Releasing(s.pcs[step.core]) {
        ReleaseElsewhere(s, step.core, c);
      } else if Walking(s.pcs[step.core]) {
        WalkElsewhere(s, step.core, c);
      }
    }
  }

  /** A step of another core changes what is in front of the victim by what it pushes, and nothing of the kill. */
  lemma {:induction false} OthersPush(s: Process, step: Step, c: nat)
    requires CountsRight(s) && Enabled(s, step) && c < |s.pcs| && c != step.core && Seeking(s.pcs[c])
    ensures var t := Apply(s, step);
            && |t.pcs| == |t.lists| == |s.pcs| && t.pcs[c] == s.pcs[c]
            && |Before(t.lists[c], s.pcs[c].victim)| ==
                 |Before(s.lists[c], s.pcs[c].victim)| + (if PushesOn(s, step, c) then 1 else 0)
  {
    if PushesOn(s, step, c) {
      assert PcOk(s, step.core);
      PushInFront(s, step.core, c);
    } else {
      ListsElsewhere(s, step, c);
    }
  }

  lemma {:induction false} HeadIsBefore(list: seq<Thread>, x: Thread)
    requires x in list
    ensures Before(list, x) == [] <==> list[0] == x
  {
  }

  /** The kill's own steps: it stays a hit or a miss, and unlinks its victim if it is a hit. */
  lemma {:induction false} OwnStep(s: Process, c: nat)
    requires Shaped(s) && NewOk(s) && c < |s.pcs| && Seeking(s.pcs[c])
    ensures var t := Advanced(s, c);
            && |t.pcs| == |t.lists| == |s.pcs|
            && (t.pcs[c].Unlinked? ==>
                  t.pcs[c].tid == s.pcs[c].victim.tid && (t.pcs[c].victim == s.pcs[c].victim <==> Hits(s, c, 0)))
            && (!t.pcs[c].Unlinked? ==>
                  && Seeking(t.pcs[c]) && t.lists == s.lists && t.pcs[c].victim == s.pcs[c].victim
                  && forall n: nat :: Hits(t, c, n) <==> Hits(s, c, n))
  {
    assert PcOk(s, c) && FrontNew(s, c);
    HeadIsBefore(s.lists[c], s.pcs[c].victim);
    if Walking(s.pcs[c]) {
      if !WalkStep(s, c).pcs[c].Unlinked? { WalkAside(s, c); }
    } else {
      BeforeIsListed(s.lists[c], s.pcs[c].victim, s.pcs[c].current);
    }
  }

  /** What one step does to a kill that is a hit or a miss, counting the pushes to come. */
  lemma {:induction false} HitsStay(s: Process, step: Step, c: nat, n: nat)
    requires CountsRight(s) && NewOk(s) && Enabled(s, step) && c < |s.pcs| && Seeking(s.pcs[c])
    requires |Apply(s, step).pcs| == |Apply(s, step).lists| == |s.pcs| && Seeking(Apply(s, step).pcs[c])
    ensures Apply(s, step).pcs[c].victim == s.pcs[c].victim
    ensures Hits(Apply(s, step), c, n) <==> Hits(s, c, (if PushesOn(s, step, c) then 1 else 0) + n)
  {
    if step.core == c { OwnStep(s, c); } else { OthersPush(s, step, c); }
  }

  lemma {:induction false} HitEnds(s: Process, step: Step, c: nat)
    requires CountsRight(s) && NewOk(s) && Enabled(s, step) && c < |s.pcs| && Seeking(s.pcs[c])
    requires c < |Apply(s, step).pcs| && Apply(s, step).pcs[c].Unlinked?
    ensures var pc := Apply(s, step).pcs[c];
            !PushesOn(s, step, c) && pc.tid == s.pcs[c].victim.tid && (pc.victim == s.pcs[c].victim <==> Hits(s, c, 0))
  {
    if step.core == c { OwnStep(s, c); } else { OthersPush(s, step, c); }
  }

  lemma {:induction false} HitsDecide(s: Process, steps: seq<Step>, c: nat)
    requires CountsRight(s) && NewOk(s) && CanRun(s, steps) && UntilUnlinked(s, steps, c)
    ensures var t := Run(s, steps);
            && c < |t.pcs| && t.pcs[c].Unlinked? && t.pcs[c].tid == s.pcs[c].victim.tid
            && (t.pcs[c].victim == s.pcs[c].victim <==> Hits(s, c, Pushes(s, steps, c)))
    decreases |steps|
  {
    var t := Apply(s, steps[0]);
    if steps[1..] == [] {
      HitEnds(s, steps[0], c);
      assert Pushes(t, steps[1..], c) == 0;
    } else {
      StepKeepsCounts(s, steps[0]);
      StepKeepsNew(s, steps[0]);
      HitsStay(s, steps[0], c, Pushes(t, steps[1..], c));
      HitsDecide(t, steps[1..], c);
    }
  }

  /** A kill unlinks the thread whose children it has looked for, and whose ID it gives back in any case, if and
      only if that had another before it as the kill began or no thread has been pushed on the list since. */
  lemma {:induction false} KillHitsIff(s: Process, c: nat, x: Thread, steps: seq<Step>)
    requires CountsRight(s) && NewOk(s) && Enabled(s, BeginKill(c, x))
    requires CanRun(Apply(s, BeginKill(c, x)), steps) && UntilUnlinked(Apply(s, BeginKill(c, x)), steps, c)
    ensures var t := Run(Apply(s, BeginKill(c, x)), steps);
            && c < |t.pcs| && t.pcs[c].Unlinked? && t.pcs[c].tid == x.tid
            && (t.pcs[c].victim == x <==> s.lists[c][0] != x || Pushes(Apply(s, BeginKill(c, x)), steps, c) == 0)
  {
    var t := Apply(s, BeginKill(c, x));
    StepKeepsCounts(s, BeginKill(c, x));
    StepKeepsNew(s, BeginKill(c, x));
    HeadIsBefore(s.lists[c], x);
    if Behind(s.lists[c], x) == NIL { HeadHasNobodyBehind(s.lists[c], x); }
    HitsDecide(t, steps, c);
  }
}
