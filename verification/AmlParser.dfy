/** The AML parser as it runs: one loop over an explicit stack that grows down in a 1024-entry array.
    Source: source/kernel/firmware/acpi/aml/main.c:181-184, 224-451, 488-497 */
module AmlParser {
  import opened AmlGrammar
  import opened AmlMachine
  import opened AmlDescent
  import opened AmlTree
  import Cleanup = AmlCleanup
  import F = Forest

  const STACK_SIZE: nat := 1024

  /** The tree handed to the caller: the table block has lost its parent, the zero block. */
  function Detached(blocks: seq<Block>): seq<Block>
    requires |blocks| >= 2
  {
    blocks[1 := blocks[1].(left := -1)]
  }

  /** Accepted, the caller gets the tree and the zero block is freed; refused, there is no tree and every block
      is freed. `freed` is the order of the calls to `kfree`. */
  ghost predicate Disposed(result: Parsed, tree: Option<seq<Block>>, freed: seq<nat>) {
    match result
    case Done(d) => |d.blocks| >= 2 && tree == Some(Detached(d.blocks)) && freed == [0]
    case Error(_, b) => Shaped(b) && tree == None && freed == [0] + Cleanup.FreeOrder(b, 1)
  }

  class Parser {
    var code: seq<byte>
    var ptr: nat
    var blocks: seq<Block>
    var actual: nat
    var dir: Direction
    const stack: array<State>
    var sp: nat

    constructor ()
      ensures stack.Length == STACK_SIZE && fresh(stack)
      ensures code == [] && blocks == []
    {
      stack := new State[STACK_SIZE](_ => TermList);
      code, ptr, blocks, actual, dir, sp := [], 0, [], 0, Right, STACK_SIZE;
    }

    ghost function Cfg(): Config
      reads this
    {
      Config(ptr, blocks, actual, dir)
    }

    ghost predicate Valid()
      reads this, stack
    {
      stack.Length == STACK_SIZE && sp <= STACK_SIZE && WellFormed(code, Cfg())
    }

    /** The states still to process, top first. */
    ghost function Pending(): seq<State>
      requires stack.Length == STACK_SIZE && sp <= STACK_SIZE
      reads this, stack
    {
      stack[sp..]
    }

    /** A new block is linked below the current one or behind it and becomes the current one. */
    method CreateBlock(s: State, creation: Creation)
      requires Valid()
      modifies this`blocks, this`actual, this`dir
      ensures Valid() && Cfg() == Create(old(Cfg()), s, creation)
    {
      CreateOk(Cfg(), s, creation);
      assert BlockOk(blocks, actual);
      if creation.NewBlock? {
        var n := |blocks|;
        var end := blocks[blocks[actual].left].end;
        if dir.Right? {
          blocks := blocks[actual := blocks[actual].(right := n)] + [Block(actual, -1, -1, ptr, end, Entry(s), [], 0)];
        } else {
          var parent := blocks[actual].left;
          blocks := blocks[actual := blocks[actual].(down := n)] + [Block(parent, -1, -1, ptr, end, Entry(s), [], 0)];
        }
        actual, dir := n, creation.after;
      }
    }

    /** Sets `end` in the section's block and then, sibling by sibling, in its blocks so far. */
    method BoundSection(length: nat)
      requires Valid()
      modifies this`blocks
      ensures Valid() && blocks == Bounded(old(Cfg()), length)
    {
      ghost var before := blocks;
      assert BlockOk(blocks, actual);
      var parent := blocks[actual].left;
      var end := ptr + length - 1;
      blocks := blocks[parent := blocks[parent].(end := end)];
      assert SameLinks(before, blocks);
      SameLinksOk(before, blocks);
      assert BlockOk(blocks, parent);
      var i := blocks[parent].right;
      ghost var goal := SetEnds(blocks, i, end);
      while i != -1
        invariant -1 <= i < |blocks| && |blocks| == |before|
        invariant BlocksOk(blocks) && SetEnds(blocks, i, end) == goal
        decreases if i == -1 then 0 else |blocks| - i
      {
        ghost var last := blocks;
        assert BlockOk(blocks, i);
        blocks := blocks[i := blocks[i].(end := end)];
        assert SameLinks(last, blocks);
        SameLinksOk(last, blocks);
        i := blocks[i].down;
      }
      assert SameLinks(before, blocks);
      assert WellFormed(code, Cfg());
    }

    /** Runs the consumer of a state on the current block. */
    method ProcessState(consumer: Consumer) returns (ok: bool)
      requires Valid()
      modifies this`ptr, this`blocks
      ensures Valid()
      ensures var r := Consume(code, old(Cfg()), consumer);
              ok == r.Accept? && Cfg() == if ok then Apply(old(Cfg()), consumer, r) else old(Cfg())
    {
      ghost var before := Cfg();
      var c := Config(ptr, blocks, actual, dir);
      var r := Consume(code, c, consumer);
      match r {
        case Refuse(_) => ok := false;
        case Accept(used, text, value) =>
          ok := true;
          ApplyOk(before, consumer, r);
          ConsumeAdvances(code, before, consumer);
          match consumer {
            case NoConsumer =>
            case SkipOpcode => ptr := ptr + used;
            case SkipExtOpcode => ptr := ptr + used;
            case ReadPkgLength =>
              BoundSection(value);
              blocks := Written(blocks, actual, [], value);
              ptr := ptr + used;
            case _ =>
              blocks := Written(blocks, actual, text, value);
              ptr := ptr + used;
          }
      }
    }

    /** Replaces the state on top by a list of states, the first of them on top. */
    method PushStates(states: seq<State>) returns (ok: bool)
      requires Valid() && sp < STACK_SIZE
      modifies this`sp, stack
      ensures Valid() && Cfg() == old(Cfg())
      ensures ok <==> |old(Pending())| - 1 + |states| <= STACK_LIMIT
      ensures ok ==> Pending() == states + old(Pending())[1..]
    {
      if sp < |states| {
        return false;
      }
      ghost var rest := stack[sp + 1..];
      ghost var top := sp;
      var i := 0;
      while i < |states|
        invariant 0 <= i <= |states| && sp == top - i
        invariant stack[sp + 1..] == states[|states| - i..] + rest
      {
        ghost var pushed := stack[sp + 1..];
        stack[sp] := states[|states| - i - 1];
        assert stack[sp..] == [states[|states| - i - 1]] + pushed;
        PushNext(states, |states| - i - 1, rest);
        sp := sp - 1;
        i := i + 1;
      }
      sp := sp + 1;
      ok := true;
    }

    /** The first alternative that can be taken here. */
    method Choose(choices: seq<State>) returns (t: Picked)
      requires Valid()
      ensures t == Pick(code, Cfg(), choices)
    {
      var c := Config(ptr, blocks, actual, dir);
      var i := 0;
      while i < |choices|
        invariant 0 <= i <= |choices|
        invariant Pick(code, c, choices) == Pick(code, c, choices[i..])
      {
        assert choices[i..][1..] == choices[i + 1..];
        if choices[i].Nothing? {
          return TakeNothing;
        }
        match Matching(code, c, RuleOf(choices[i]).condition) {
          case Matches => return Take(choices[i]);
          case Unreadable => return CannotRead;
          case Differs =>
        }
        i := i + 1;
      }
      return TakeNone;
    }

    /** The part of a turn that changes the stack. */
    method UpdateStack(action: Action) returns (failure: Option<Error>)
      requires Valid() && sp < STACK_SIZE
      modifies this`sp, this`actual, this`dir, stack
      ensures code == old(code) && blocks == old(blocks) && stack.Length == STACK_SIZE
      ensures match Act(code, old(Cfg()), action)
              case Fail(e, _) => failure == Some(e)
              case Next(d, push) =>
                if action.AddStates? && |old(Pending())| - 1 + |push| > STACK_LIMIT then failure == Some(StackOverflow)
                else failure == None && Valid() && Cfg() == d && Pending() == push + old(Pending())[1..]
    {
      failure := None;
      ghost var before := Pending();
      assert before[1..] == stack[sp + 1..];
      match action {
        case Finish => sp := sp + 1;
        case AddStates(states) =>
          var ok := PushStates(states);
          if !ok { failure := Some(StackOverflow); }
        case AddOneOf(choices) =>
          var t := Choose(choices);
          match t {
            case Take(s) =>
              stack[sp] := s;
              assert stack[sp..] == [s] + stack[sp + 1..];
            case TakeNothing => sp := sp + 1;
            case TakeNone => failure := Some(NoStateMatched);
            case CannotRead => failure := Some(OutOfBuffer);
          }
        case CloseSection =>
          assert BlockOk(blocks, actual);
          if dir.Stay? && blocks[actual].left == 0 {
            failure := Some(LeftTheTable);
          } else {
            if dir.Stay? { actual := blocks[actual].left; }
            dir := Stay;
            sp := sp + 1;
          }
      }
    }

    /** One round of the loop: what a turn of the machine does, on the fields and the stack array. */
    method Round() returns (failure: Option<Error>)
      requires Valid() && sp < STACK_SIZE
      modifies this`ptr, this`blocks, this`sp, this`actual, this`dir, stack
      ensures code == old(code) && stack.Length == STACK_SIZE
      ensures match Step(code, old(Cfg()), old(Pending())[0])
              case Fail(e, b) => failure == Some(e) && blocks == b
              case Next(d, push) =>
                if Overflows(old(Pending()), push) then failure == Some(StackOverflow) && blocks == d.blocks
                else failure == None && Valid() && Cfg() == d && Pending() == push + old(Pending())[1..]
    {
      var s := stack[sp];
      var rule := RuleOf(s);
      var c := Config(ptr, blocks, actual, dir);
      failure := Guard(code, c, rule.condition);
      if failure != None { return; }
      CreateBlock(s, rule.creation);
      var ok := ProcessState(rule.consumer);
      if !ok {
        failure := Some(Consume(code, Config(ptr, blocks, actual, dir), rule.consumer).error);
        return;
      }
      failure := UpdateStack(rule.action);
    }

    /** The zero block, the table block below it, and the first state on the stack. */
    method Prepare(table: seq<byte>)
      requires stack.Length == STACK_SIZE && table != []
      modifies this, stack
      ensures code == table && sp == STACK_SIZE - 1 && Valid() && Cfg() == Start(table) && Pending() == [TermList]
    {
      var end := |table| - 1;
      code, ptr := table, 0;
      blocks := [Block(-1, 1, -1, 0, end, ZeroBlock, [], 0), Block(0, -1, -1, 0, end, Table, [], 0)];
      actual, dir := 1, Right;
      sp := STACK_SIZE - 1;
      stack[sp] := TermList;
      StartIsTidy(table);
      assert Cfg() == Start(table) && Pending() == [TermList];
    }

    /** Parses a table: the tree it builds, the order of what it frees, and that it stops, are the machine's. */
    method ProcessCode(table: seq<byte>) returns (tree: Option<seq<Block>>, freed: seq<nat>)
      requires stack.Length == STACK_SIZE
      modifies this, stack
      ensures table == [] ==> tree == None && freed == []
      ensures table != [] ==> WellFormed(table, Start(table))
      ensures table != [] ==> Disposed(BoundedRun(table, [TermList], Start(table)), tree, freed)
    {
      if table == [] {
        return None, [];
      }
      Prepare(table);
      StartIsTidy(table);
      ghost var result := BoundedRun(table, [TermList], Start(table));
      while sp < STACK_SIZE
        invariant code == table && Valid() && 1 <= sp && Tidy(Cfg()) && Balanced(Cfg(), Pending())
        invariant BoundedRun(code, Pending(), Cfg()) == result
        decreases |code| - ptr, Weight(Pending())
      {
        ghost var before, waiting := Cfg(), Pending();
        RoundIsSafe(code, waiting, before);
        var failure := Round();
        if failure != None {
          freed := FreeAll();
          return None, freed;
        }
      }
      assert Pending() == [];
      return Some(Detached(blocks)), [0];
    }

    /** `free_aml_tree`: the zero block, then the tree from the table block on. */
    method FreeAll() returns (freed: seq<nat>)
      requires Shaped(blocks)
      ensures freed == [0] + Cleanup.FreeOrder(blocks, 1)
    {
      var arena := new Block[|blocks|](i requires 0 <= i < |blocks| reads this => blocks[i]);
      assert arena[..] == blocks;
      var below := Cleanup.FreePartOfTree(arena);
      freed := [0] + below;
    }
  }

  lemma PushNext(states: seq<State>, k: nat, rest: seq<State>)
    requires k < |states|
    ensures [states[k]] + (states[k + 1..] + rest) == states[k..] + rest
  {
    assert states[k..] == [states[k]] + states[k + 1..];
  }

  /** What the run gives after a turn with outcome `r`. */
  function Continued(code: seq<byte>, stack: seq<State>, r: Outcome): Parsed
    requires stack != [] && (r.Next? ==> WellFormed(code, r.cfg))
  {
    match r
    case Fail(e, blocks) => Error(e, blocks)
    case Next(d, push) =>
      if Overflows(stack, push) then Error(StackOverflow, d.blocks) else BoundedRun(code, push + stack[1..], d)
  }

  lemma {:induction false} RunUnfolds(code: seq<byte>, stack: seq<State>, c: Config)
    requires WellFormed(code, c) && stack != []
    ensures BoundedRun(code, stack, c) == Continued(code, stack, Step(code, c, stack[0]))
  {
    StepProgress(code, c, stack[0]);
  }

  /** What one round rests on: the tree stays tidy, the run goes on with what is left, and the measure falls. */
  lemma {:induction false} RoundIsSafe(code: seq<byte>, stack: seq<State>, c: Config)
    requires WellFormed(code, c) && stack != [] && |stack| <= STACK_LIMIT && Tidy(c) && Balanced(c, stack)
    ensures var r := Step(code, c, stack[0]);
            && BoundedRun(code, stack, c) == Continued(code, stack, r)
            && (r.Fail? ==> Shaped(r.blocks))
            && (r.Next? ==> Tidy(r.cfg) && Balanced(r.cfg, r.push + stack[1..]))
            && (r.Next? && !Overflows(stack, r.push) ==> |r.push + stack[1..]| <= STACK_LIMIT)
            && (r.Next? ==> r.cfg.ptr > c.ptr || (r.cfg.ptr == c.ptr && Weight(r.push + stack[1..]) < Weight(stack)))
  {
    StepKeepsTidy(code, c, stack);
    TurnAlone(code, c, stack[0]);
    RunUnfolds(code, stack, c);
    if Step(code, c, stack[0]).Next? { TurnIsLighter(code, stack, c); }
  }

  /** Every refused parse frees each block it made exactly once, the zero block included. */
  lemma {:induction false} RefusalFreesEverything(code: seq<byte>, k: nat, x: nat)
    requires code != []
    ensures var m := After(code, k);
            Shaped(Arena(m)) && F.Visits([0] + Cleanup.FreeOrder(Arena(m), 1), x) == if x < |Arena(m)| then 1 else 0
  {
    TidyAtEveryTurn(code, k);
    Cleanup.FreesEachBlockOnce(Arena(After(code, k)), x);
  }
}
