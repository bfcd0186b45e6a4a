/** The tree the AML parser builds: its shape at every turn, and how it is freed.
    Source: source/kernel/firmware/acpi/aml/main.c:156-184, 229-242, 296-312, 435-441 */
module AmlTree {
  import opened AmlGrammar
  import opened AmlMachine
  import opened AmlDescent
  import F = Forest

  function Links(blocks: seq<Block>): seq<F.Link> {
    seq(|blocks|, i requires 0 <= i < |blocks| => F.Link(blocks[i].right, blocks[i].down))
  }

  /** How many sections enclose a block; the zero block and the table block are outside of all. */
  function Level(blocks: seq<Block>, i: nat): nat
    requires BlocksOk(blocks) && i < |blocks|
    decreases i
  {
    assert BlockOk(blocks, i);
    if i <= 1 then 0 else 1 + Level(blocks, blocks[i].left)
  }

  // ----- the shape

  /** `left` is the parent: of the block hung below it, and of every later one behind that. */
  predicate ParentOk(blocks: seq<Block>, i: nat)
    requires BlocksOk(blocks) && i < |blocks|
  {
    assert BlockOk(blocks, i);
    && (blocks[i].right != -1 ==> blocks[blocks[i].right].left == i)
    && (blocks[i].down != -1 ==> blocks[blocks[i].down].left == blocks[i].left)
    && (i >= 2 ==> blocks[i].left >= 1)
  }

  predicate LevelOk(blocks: seq<Block>, i: nat)
    requires BlocksOk(blocks) && i < |blocks|
  {
    Level(blocks, i) <= STACK_LIMIT
  }

  /** The arena is one tree below the zero block, whose only child is the table block. */
  ghost predicate Shaped(blocks: seq<Block>) {
    && |blocks| >= 2
    && BlocksOk(blocks)
    && blocks[0].right == 1 && blocks[0].down == -1
    && F.TreeShaped(Links(blocks))
    && (forall i :: 0 <= i < |blocks| ==> ParentOk(blocks, i))
    && (forall i :: 0 <= i < |blocks| ==> LevelOk(blocks, i))
  }

  /** Nothing follows `n` nor any block around it yet. */
  predicate Open(blocks: seq<Block>, n: nat)
    requires BlocksOk(blocks) && n < |blocks|
    decreases n
  {
    assert BlockOk(blocks, n);
    n == 0 || (blocks[n].down == -1 && Open(blocks, blocks[n].left))
  }

  ghost predicate Tidy(c: Config) {
    && Shaped(c.blocks)
    && 1 <= c.actual < |c.blocks|
    && Open(c.blocks, c.actual)
    && (if c.dir.Right? then c.blocks[c.actual].right == -1 else c.actual >= 2)
  }

  /** As many sections are open as the stack holds states that close one. */
  predicate Balanced(c: Config, stack: seq<State>)
    requires BlocksOk(c.blocks) && 1 <= c.actual < |c.blocks|
  {
    Level(c.blocks, Section(c)) == Closings(stack)
  }

  // ----- what keeps the shape

  lemma {:induction false} SameLinksLevel(a: seq<Block>, b: seq<Block>, i: nat)
    requires BlocksOk(a) && BlocksOk(b) && SameLinks(a, b) && i < |a|
    ensures Level(b, i) == Level(a, i)
    decreases i
  {
    assert BlockOk(a, i);
    if i > 1 {
      SameLinksLevel(a, b, a[i].left);
    }
  }

  lemma {:induction false} SameLinksOpen(a: seq<Block>, b: seq<Block>, n: nat)
    requires BlocksOk(a) && BlocksOk(b) && SameLinks(a, b) && n < |a| && Open(a, n)
    ensures Open(b, n)
    decreases n
  {
    assert BlockOk(a, n);
    if n != 0 {
      SameLinksOpen(a, b, a[n].left);
    }
  }

  lemma {:induction false} SameLinksShaped(a: seq<Block>, b: seq<Block>)
    requires Shaped(a) && SameLinks(a, b)
    ensures Shaped(b)
  {
    SameLinksOk(a, b);
    assert Links(a) == Links(b);
    forall i | 0 <= i < |b|
      ensures ParentOk(b, i) && LevelOk(b, i)
    {
      assert ParentOk(a, i) && LevelOk(a, i) && BlockOk(a, i);
      SameLinksLevel(a, b, i);
    }
  }

  /** A consumer leaves the tree as it is. */
  lemma {:induction false} ApplyKeepsTidy(c: Config, consumer: Consumer, r: Consumed)
    requires Tidy(c) && r.Accept?
    ensures var d := Apply(c, consumer, r);
            Tidy(d) && Section(d) == Section(c) && Level(d.blocks, Section(d)) == Level(c.blocks, Section(c))
  {
    ApplyOk(c, consumer, r);
    var d := Apply(c, consumer, r);
    SameLinksShaped(c.blocks, d.blocks);
    SameLinksOpen(c.blocks, d.blocks, c.actual);
    assert BlockOk(c.blocks, c.actual);
    SameLinksLevel(c.blocks, d.blocks, Section(c));
  }

  // ----- a new block

  /** Old blocks keep their parents, so they keep their levels. */
  lemma {:induction false} CreateKeepsLevel(c: Config, s: State, after: Direction, i: nat)
    requires 1 <= c.actual < |c.blocks| && BlocksOk(c.blocks) && i < |c.blocks|
    ensures var d := Create(c, s, NewBlock(after));
            BlocksOk(d.blocks) && |d.blocks| == |c.blocks| + 1 && Level(d.blocks, i) == Level(c.blocks, i)
    decreases i
  {
    CreateOk(c, s, NewBlock(after));
    assert BlockOk(c.blocks, i);
    if i > 1 {
      CreateKeepsLevel(c, s, after, c.blocks[i].left);
    }
  }

  lemma {:induction false} CreateKeepsOpen(c: Config, s: State, after: Direction, n: nat)
    requires 1 <= c.actual < |c.blocks| && BlocksOk(c.blocks) && n < |c.blocks|
    requires Open(c.blocks, n) && (c.dir.Stay? ==> n < c.actual)
    ensures var d := Create(c, s, NewBlock(after));
            BlocksOk(d.blocks) && |d.blocks| == |c.blocks| + 1 && Open(d.blocks, n)
    decreases n
  {
    CreateOk(c, s, NewBlock(after));
    assert BlockOk(c.blocks, n);
    if n != 0 {
      CreateKeepsOpen(c, s, after, c.blocks[n].left);
    }
  }

  lemma CreateKeepsParents(c: Config, s: State, after: Direction, i: nat)
    requires Tidy(c) && i <= |c.blocks|
    ensures var d := Create(c, s, NewBlock(after));
            BlocksOk(d.blocks) && |d.blocks| == |c.blocks| + 1 && ParentOk(d.blocks, i)
  {
    CreateOk(c, s, NewBlock(after));
    assert BlockOk(c.blocks, c.actual) && ParentOk(c.blocks, c.actual);
    if i < |c.blocks| {
      assert BlockOk(c.blocks, i) && ParentOk(c.blocks, i);
    }
  }

  /** The block is linked as a new last leaf of the tree. */
  lemma {:induction false} CreateGrows(c: Config, s: State, after: Direction)
    requires 1 <= c.actual < |c.blocks| && BlocksOk(c.blocks)
    ensures Links(Create(c, s, NewBlock(after)).blocks) == F.Grown(Links(c.blocks), c.actual, c.dir.Right?)
  {
  }

  lemma {:induction false} CreateKeepsTidy(c: Config, s: State, after: Direction)
    requires Tidy(c) && Level(c.blocks, Section(c)) < STACK_LIMIT
    ensures var d := Create(c, s, NewBlock(after));
            && Tidy(d)
            && Level(d.blocks, d.actual) == 1 + Level(c.blocks, Section(c))
            && Section(d) == (if after.Right? then d.actual else Section(c))
            && Level(d.blocks, Section(c)) == Level(c.blocks, Section(c))
  {
    var d := Create(c, s, NewBlock(after));
    var n := |c.blocks|;
    CreateOk(c, s, NewBlock(after));
    assert BlockOk(c.blocks, c.actual) && ParentOk(c.blocks, c.actual);
    CreateGrows(c, s, after);
    assert Open(c.blocks, c.actual) && c.blocks[c.actual].down == -1;
    F.GrownTreeShaped(Links(c.blocks), c.actual, c.dir.Right?);
    assert BlockOk(d.blocks, n) && d.blocks[n].left == Section(c);
    CreateKeepsOpen(c, s, after, Section(c));
    CreateKeepsLevel(c, s, after, Section(c));
    forall i | 0 <= i <= n
      ensures ParentOk(d.blocks, i) && LevelOk(d.blocks, i)
    {
      CreateKeepsParents(c, s, after, i);
      if i < n {
        assert LevelOk(c.blocks, i);
        CreateKeepsLevel(c, s, after, i);
      }
    }
  }

  // ----- a turn

  lemma {:induction false} CreateStep(c: Config, s: State, stack: seq<State>)
    requires Tidy(c) && stack != [] && stack[0] == s && |stack| <= STACK_LIMIT && Balanced(c, stack)
    ensures var d := Create(c, s, RuleOf(s).creation);
            && Tidy(d)
            && Level(d.blocks, Section(d)) == Closings(stack) + (if RuleOf(s).creation == NewBlock(Right) then 1 else 0)
  {
    var creation := RuleOf(s).creation;
    if creation.NewBlock? {
      TableIsBalanced(s);
      ClosingsBound(stack[1..]);
      assert !s.MoveLeft?;
      CreateKeepsTidy(c, s, creation.after);
    }
  }

  /** Closing a section leads back to its opening block, from where the next one is linked behind it. */
  lemma {:induction false} CloseKeepsTidy(c: Config)
    requires Tidy(c) && Level(c.blocks, Section(c)) >= 1
    ensures Tidy(Close(c)) && Level(Close(c).blocks, Section(Close(c))) == Level(c.blocks, Section(c)) - 1
  {
    assert BlockOk(c.blocks, c.actual) && ParentOk(c.blocks, c.actual);
    assert Section(c) >= 2;
    assert BlockOk(c.blocks, Section(c));
  }

  lemma {:induction false} PickKeepsTidy(code: seq<byte>, c: Config, choices: seq<State>)
    requires WellFormed(code, c) && MoveLeft !in choices
    ensures var r := Act(code, c, AddOneOf(choices));
            && (r.Next? ==> r.cfg == c && Closings(r.push) == 0)
            && (r.Fail? ==> r.blocks == c.blocks && r.error != LeftTheTable)
  {
    var p := Pick(code, c, choices);
    if p.Take? {
      assert [p.state][1..] == [] && Closings([p.state]) == 0;
    }
  }

  lemma {:induction false} ActKeepsTidy(code: seq<byte>, c: Config, s: State, before: nat)
    requires WellFormed(code, c) && Tidy(c) && RuleBalanced(s) && (s.MoveLeft? ==> before >= 1)
    requires Level(c.blocks, Section(c)) == before + (if RuleOf(s).creation == NewBlock(Right) then 1 else 0)
    ensures var r := Act(code, c, RuleOf(s).action);
            && (r.Next? ==> Tidy(r.cfg))
            && (r.Next? ==> Level(r.cfg.blocks, Section(r.cfg)) == before - CloseOne([s], 0) + Closings(r.push))
            && (r.Fail? ==> Shaped(r.blocks) && r.error != LeftTheTable)
  {
    match RuleOf(s).action {
      case AddOneOf(choices) => PickKeepsTidy(code, c, choices);
      case CloseSection => CloseKeepsTidy(c);
      case _ =>
    }
  }

  /** Whatever a turn does, the tree keeps its shape; and while the parse goes on, as many sections stay
      open as the stack has states to close. */
  lemma {:induction false} StepKeepsTidy(code: seq<byte>, c: Config, stack: seq<State>)
    requires WellFormed(code, c) && Tidy(c) && stack != [] && |stack| <= STACK_LIMIT && Balanced(c, stack)
    ensures var r := Step(code, c, stack[0]);
            && (r.Next? ==> Tidy(r.cfg) && Balanced(r.cfg, r.push + stack[1..]))
            && (r.Fail? ==> Shaped(r.blocks) && r.error != LeftTheTable)
  {
    var s := stack[0];
    var rule := RuleOf(s);
    if Guard(code, c, rule.condition).None? {
      var created := Create(c, s, rule.creation);
      CreateOk(c, s, rule.creation);
      CreateStep(c, s, stack);
      var taken := Consume(code, created, rule.consumer);
      if taken.Accept? {
        ApplyOk(created, rule.consumer, taken);
        ConsumeAdvances(code, created, rule.consumer);
        ApplyKeepsTidy(created, rule.consumer, taken);
        TableIsBalanced(s);
        var r := Step(code, c, s);
        ActKeepsTidy(code, Apply(created, rule.consumer, taken), s, Closings(stack));
        if r.Next? {
          ClosingsConcat(r.push, stack[1..]);
        }
      } else {
        ConsumersStayInTheTable(code, created, rule.consumer);
      }
    }
  }

  lemma {:induction false} ConsumersStayInTheTable(code: seq<byte>, c: Config, consumer: Consumer)
    requires WellFormed(code, c)
    ensures Consume(code, c, consumer).Refuse? ==> Consume(code, c, consumer).error != LeftTheTable
  {
  }

  // ----- whole runs

  lemma {:induction false} StartIsTidy(code: seq<byte>)
    requires code != []
    ensures WellFormed(code, Start(code)) && Tidy(Start(code)) && Balanced(Start(code), [TermList])
  {
    var c := Start(code);
    assert Links(c.blocks) == [F.Link(1, -1), F.Link(-1, -1)];
    assert BlockOk(c.blocks, 0) && BlockOk(c.blocks, 1);
    var f := Links(c.blocks);
    assert F.NullOrAfter(f, 0, 1) && F.NullOrAfter(f, 1, -1);
    assert F.Points(f, 0, 1);
    assert F.Remembered(f, [0, 0], 0) && F.Remembered(f, [0, 0], 1);
    assert F.LinkedOnce(f, [0, 0]);
    assert forall i :: 0 <= i < 2 ==> ParentOk(c.blocks, i) && LevelOk(c.blocks, i);
    assert [TermList][1..] == [];
  }

  datatype Moment = Running(stack: seq<State>, cfg: Config) | Stopped(result: Parsed)

  predicate Sane(code: seq<byte>, m: Moment) {
    m.Running? ==> WellFormed(code, m.cfg)
  }

  /** One round of the parser's loop. */
  function Turn(code: seq<byte>, m: Moment): (next: Moment)
    requires Sane(code, m)
    ensures Sane(code, next)
  {
    match m
    case Stopped(_) => m
    case Running(stack, c) =>
      if stack == [] then Stopped(Done(c))
      else
        match Step(code, c, stack[0])
        case Fail(e, blocks) => Stopped(Error(e, blocks))
        case Next(d, push) =>
          if Overflows(stack, push) then Stopped(Error(StackOverflow, d.blocks))
          else Running(push + stack[1..], d)
  }

  /** The parser after `k` turns. */
  function After(code: seq<byte>, k: nat): (m: Moment)
    requires code != []
    ensures Sane(code, m)
  {
    if k == 0 then
      StartIsTidy(code);
      Running([TermList], Start(code))
    else
      Turn(code, After(code, k - 1))
  }

  function Arena(m: Moment): seq<Block> {
    match m
    case Running(_, c) => c.blocks
    case Stopped(Done(c)) => c.blocks
    case Stopped(Error(_, blocks)) => blocks
  }

  /** After any number of turns on any bytes: the blocks form one tree with `left` as the parent, no block is
      deeper than the stack allows, the open sections are the closing states on the stack, and no close was
      tried outside of a section. */
  lemma {:induction false} TidyAtEveryTurn(code: seq<byte>, k: nat)
    requires code != []
    ensures var m := After(code, k);
            && Shaped(Arena(m))
            && (m.Running? ==> |m.stack| <= STACK_LIMIT && Tidy(m.cfg) && Balanced(m.cfg, m.stack))
            && (m.Stopped? && m.result.Error? ==> m.result.error != LeftTheTable)
  {
    if k == 0 {
      StartIsTidy(code);
    } else {
      TidyAtEveryTurn(code, k - 1);
      var m := After(code, k - 1);
      assert After(code, k) == Turn(code, m);
      if m.Running? && m.stack != [] {
        StepKeepsTidy(code, m.cfg, m.stack);
        TurnAlone(code, m.cfg, m.stack[0]);
      }
    }
  }

  /** After any number of turns, `right` and `down` lead from the table block to every block exactly once. */
  lemma {:induction false} BlocksAreReachedOnce(code: seq<byte>, k: nat, x: nat)
    requires code != []
    ensures var b := Arena(After(code, k));
            F.Forward(Links(b)) && |b| >= 2 && F.VisitsFrom(Links(b), 1, x) == if 1 <= x < |b| then 1 else 0
  {
    TidyAtEveryTurn(code, k);
    var f := Links(Arena(After(code, k)));
    F.PreorderIsComplete(f);
    F.VisitsUnfold(f, 0, x);
    assert F.VisitsFrom(f, 0, x) == F.Visits(F.Preorder(f, 0), x);
    assert F.VisitsFrom(f, -1, x) == 0;
  }

  /** What the parser still arrives at. */
  function Result(code: seq<byte>, m: Moment): Parsed
    requires Sane(code, m)
  {
    match m
    case Running(stack, c) => BoundedRun(code, stack, c)
    case Stopped(r) => r
  }

  lemma {:induction false} TurnKeepsResult(code: seq<byte>, m: Moment)
    requires Sane(code, m)
    ensures Result(code, Turn(code, m)) == Result(code, m)
  {
    if m.Running? && m.stack != [] {
      StepProgress(code, m.cfg, m.stack[0]);
    }
  }

  /** The turns are those of the bounded run: at every turn, what is left to run gives the run's result. */
  lemma {:induction false} TurnsFollowTheRun(code: seq<byte>, k: nat)
    requires code != []
    ensures Result(code, After(code, k)) == Result(code, After(code, 0))
  {
    if k > 0 {
      TurnsFollowTheRun(code, k - 1);
      TurnKeepsResult(code, After(code, k - 1));
    }
  }
}
