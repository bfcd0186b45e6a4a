/** The parser as a recursive descent, the parser as a stack machine, and that they agree.
    Source: source/kernel/firmware/acpi/aml/main.c:247-445 */
module AmlDescent {
  import opened AmlGrammar
  import opened AmlMachine

  // ----- progress

  /** The weight of a stack: the ranks down to the first state that must consume. */
  function Weight(stack: seq<State>): nat {
    if stack == [] then 0
    else if MustConsume(stack[0]) then Rank(stack[0])
    else Rank(stack[0]) + Weight(stack[1..])
  }

  /** A turn that consumes nothing replaces its state by lighter ones, and keeps an obligation to consume. */
  predicate Lighter(s: State, push: seq<State>) {
    && (MustConsume(s) ==> push != [] && MustConsume(push[0]) && Rank(push[0]) < Rank(s))
    && (!MustConsume(s) ==> push == [] || (MustConsume(push[0]) && Rank(push[0]) < Rank(s)))
  }

  lemma {:induction false} StepProgress(code: seq<byte>, c: Config, s: State)
    requires WellFormed(code, c)
    ensures var r := Step(code, c, s);
            r.Next? ==> r.cfg.ptr > c.ptr || (r.cfg.ptr == c.ptr && Lighter(s, r.push))
  {
    var rule := RuleOf(s);
    var r := Step(code, c, s);
    if r.Next? {
      var created := Create(c, s, rule.creation);
      CreateOk(c, s, rule.creation);
      var taken := Consume(code, created, rule.consumer);
      ConsumeAdvances(code, created, rule.consumer);
      ApplyOk(created, rule.consumer, taken);
      var applied := Apply(created, rule.consumer, taken);
      ActKeepsPtr(code, applied, rule.action);
      if rule.consumer.NoConsumer? {
        TableMakesProgress(s);
        ActIsLighter(code, applied, s);
      }
    }
  }

  lemma {:induction false} ActKeepsPtr(code: seq<byte>, c: Config, action: Action)
    requires WellFormed(code, c)
    ensures Act(code, c, action).Next? ==> Act(code, c, action).cfg.ptr == c.ptr
  {
  }

  lemma {:induction false} ActIsLighter(code: seq<byte>, c: Config, s: State)
    requires WellFormed(code, c) && RuleProgress(s) && RuleOf(s).consumer.NoConsumer?
    ensures var r := Act(code, c, RuleOf(s).action);
            r.Next? ==> Lighter(s, r.push)
  {
    var rule := RuleOf(s);
    if rule.action.AddOneOf? {
      PickIsLighter(code, c, s, rule.action.choices);
    }
  }

  lemma {:induction false} PickIsLighter(code: seq<byte>, c: Config, s: State, choices: seq<State>)
    requires WellFormed(code, c)
    requires forall k :: 0 <= k < |choices| ==>
               if choices[k].Nothing? then !MustConsume(s) else MustConsume(choices[k]) && Rank(choices[k]) < Rank(s)
    ensures Act(code, c, AddOneOf(choices)).Next? ==> Lighter(s, Act(code, c, AddOneOf(choices)).push)
  {
  }

  lemma {:induction false} LighterWeight(s: State, push: seq<State>, rest: seq<State>)
    requires Lighter(s, push)
    ensures Weight(push + rest) < Weight([s] + rest)
    ensures MustConsume(s) ==> Weight(push) < Rank(s)
  {
    assert ([s] + rest)[1..] == rest;
    if push == [] {
      assert push + rest == rest;
    } else {
      assert (push + rest)[0] == push[0];
    }
  }

  // ----- recursive descent

  datatype Parsed = Done(cfg: Config) | Error(error: Error, blocks: seq<Block>)

  /** Parses one state: its turn, then the states that replace it. */
  function Parse(code: seq<byte>, s: State, c: Config): (r: Parsed)
    requires WellFormed(code, c)
    ensures r.Done? ==> WellFormed(code, r.cfg) && r.cfg.ptr >= c.ptr && (MustConsume(s) ==> r.cfg.ptr > c.ptr)
    decreases |code| - c.ptr, Weight([s]), 0
  {
    StepProgress(code, c, s);
    match Step(code, c, s)
    case Fail(e, blocks) => Error(e, blocks)
    case Next(d, push) =>
      assert d.ptr == c.ptr ==> Weight(push) < Weight([s]) by {
        if d.ptr == c.ptr {
          LighterWeight(s, push, []);
          assert push + [] == push && [s] + [] == [s];
        }
      }
      ParseAll(code, push, d)
  }

  /** Parses a list of states one after the other. */
  function ParseAll(code: seq<byte>, states: seq<State>, c: Config): (r: Parsed)
    requires WellFormed(code, c)
    ensures r.Done? ==> WellFormed(code, r.cfg) && r.cfg.ptr >= c.ptr
    ensures r.Done? && states != [] && MustConsume(states[0]) ==> r.cfg.ptr > c.ptr
    decreases |code| - c.ptr, Weight(states), 1
  {
    if states == [] then Done(c)
    else
      assert [states[0]][1..] == [] && Weight([states[0]]) == Rank(states[0]) <= Weight(states);
      match Parse(code, states[0], c)
      case Error(e, blocks) => Error(e, blocks)
      case Done(d) => ParseAll(code, states[1..], d)
  }

  /** Parsing goes on with `states` unless it has failed. */
  function ThenParse(code: seq<byte>, r: Parsed, states: seq<State>): Parsed
    requires r.Done? ==> WellFormed(code, r.cfg)
  {
    match r
    case Error(_, _) => r
    case Done(d) => ParseAll(code, states, d)
  }

  lemma {:induction false} ParseAllConcat(code: seq<byte>, a: seq<State>, b: seq<State>, c: Config)
    requires WellFormed(code, c)
    ensures ParseAll(code, a + b, c) == ThenParse(code, ParseAll(code, a, c), b)
    decreases |a|
  {
    if a == [] {
      assert a + b == b;
    } else {
      assert (a + b)[0] == a[0] && (a + b)[1..] == a[1..] + b;
      var first := Parse(code, a[0], c);
      if first.Done? {
        ParseAllConcat(code, a[1..], b, first.cfg);
      }
    }
  }

  // ----- the stack machine

  /** Turns until the stack, top first, is empty. */
  function Run(code: seq<byte>, stack: seq<State>, c: Config): Parsed
    requires WellFormed(code, c)
    decreases |code| - c.ptr, Weight(stack)
  {
    if stack == [] then Done(c)
    else
      StepProgress(code, c, stack[0]);
      match Step(code, c, stack[0])
      case Fail(e, blocks) => Error(e, blocks)
      case Next(d, push) =>
        TurnIsLighter(code, stack, c);
        Run(code, push + stack[1..], d)
  }

  /** The machine goes on with the stack `rest` unless the parse has failed. */
  function ThenRun(code: seq<byte>, r: Parsed, rest: seq<State>): Parsed
    requires r.Done? ==> WellFormed(code, r.cfg)
  {
    match r
    case Error(_, _) => r
    case Done(d) => Run(code, rest, d)
  }

  /** The stack machine is the recursive descent over its stack. */
  lemma {:induction false} RunIsParseAll(code: seq<byte>, stack: seq<State>, c: Config)
    requires WellFormed(code, c)
    ensures Run(code, stack, c) == ParseAll(code, stack, c)
    decreases |code| - c.ptr, Weight(stack)
  {
    if stack != [] {
      StepProgress(code, c, stack[0]);
      var r := Step(code, c, stack[0]);
      if r.Next? {
        TurnIsLighter(code, stack, c);
        RunIsParseAll(code, r.push + stack[1..], r.cfg);
        ParseAllConcat(code, r.push, stack[1..], r.cfg);
      }
    }
  }

  /** Running state `s` on top of any stack `rest` reads the same bytes and builds the same blocks as
      parsing `s` recursively and then running `rest`. */
  lemma {:induction false} MachineRefinesDescent(code: seq<byte>, s: State, rest: seq<State>, c: Config)
    requires WellFormed(code, c)
    ensures Run(code, [s] + rest, c) == ThenRun(code, Parse(code, s, c), rest)
  {
    RunIsParseAll(code, [s] + rest, c);
    assert ([s] + rest)[1..] == rest;
    var r := Parse(code, s, c);
    if r.Done? {
      RunIsParseAll(code, rest, r.cfg);
    }
  }

  // ----- the machine with the stack it really has

  /** The highest number of states the 1024-entry stack accepts: its lowest slot is never used. */
  const STACK_LIMIT: nat := 1023

  predicate Overflows(stack: seq<State>, push: seq<State>)
    requires stack != []
  {
    RuleOf(stack[0]).action.AddStates? && |stack| - 1 + |push| > STACK_LIMIT
  }

  function BoundedRun(code: seq<byte>, stack: seq<State>, c: Config): Parsed
    requires WellFormed(code, c)
    decreases |code| - c.ptr, Weight(stack)
  {
    if stack == [] then Done(c)
    else
      StepProgress(code, c, stack[0]);
      match Step(code, c, stack[0])
      case Fail(e, blocks) => Error(e, blocks)
      case Next(d, push) =>
        if Overflows(stack, push) then Error(StackOverflow, d.blocks)
        else
          TurnIsLighter(code, stack, c);
          BoundedRun(code, push + stack[1..], d)
  }

  /** The termination measure of a run: bytes left, then the weight of the stack. */
  lemma {:induction false} TurnIsLighter(code: seq<byte>, stack: seq<State>, c: Config)
    requires WellFormed(code, c) && stack != [] && Step(code, c, stack[0]).Next?
    ensures var r := Step(code, c, stack[0]);
            r.cfg.ptr > c.ptr || (r.cfg.ptr == c.ptr && Weight(r.push + stack[1..]) < Weight(stack))
  {
    StepProgress(code, c, stack[0]);
    var r := Step(code, c, stack[0]);
    if r.cfg.ptr == c.ptr {
      LighterWeight(stack[0], r.push, stack[1..]);
      assert [stack[0]] + stack[1..] == stack;
    }
  }

  lemma {:induction false} ConsumersNeverOverflow(code: seq<byte>, c: Config, consumer: Consumer)
    requires WellFormed(code, c)
    ensures Consume(code, c, consumer).Refuse? ==> Consume(code, c, consumer).error != StackOverflow
  {
  }

  /** A single turn never reports a stack overflow and lengthens the stack only by a list of states. */
  lemma {:induction false} TurnAlone(code: seq<byte>, c: Config, s: State)
    requires WellFormed(code, c)
    ensures var r := Step(code, c, s);
            && (r.Fail? ==> r.error != StackOverflow)
            && (r.Next? && !RuleOf(s).action.AddStates? ==> |r.push| <= 1)
  {
    var rule := RuleOf(s);
    var created := Create(c, s, rule.creation);
    CreateOk(c, s, rule.creation);
    ConsumersNeverOverflow(code, created, rule.consumer);
    var taken := Consume(code, created, rule.consumer);
    if Guard(code, c, rule.condition).None? && taken.Accept? {
      ApplyOk(created, rule.consumer, taken);
      ConsumeAdvances(code, created, rule.consumer);
      ActAlone(code, Apply(created, rule.consumer, taken), rule.action);
    }
  }

  lemma {:induction false} ActAlone(code: seq<byte>, c: Config, action: Action)
    requires WellFormed(code, c)
    ensures var r := Act(code, c, action);
            && (r.Fail? ==> r.error != StackOverflow)
            && (r.Next? && !action.AddStates? ==> |r.push| <= 1)
  {
  }

  /** The longest stack of an unlimited run. */
  function Peak(code: seq<byte>, stack: seq<State>, c: Config): (p: nat)
    requires WellFormed(code, c)
    ensures p >= |stack|
    decreases |code| - c.ptr, Weight(stack)
  {
    if stack == [] then 0
    else
      match Step(code, c, stack[0])
      case Fail(_, _) => |stack|
      case Next(d, push) =>
        TurnIsLighter(code, stack, c);
        var later := Peak(code, push + stack[1..], d);
        if later > |stack| then later else |stack|
  }

  /** The overflow exit is taken exactly when an unlimited run would need more than 1023 entries. */
  lemma {:induction false} OverflowIffTooDeep(code: seq<byte>, stack: seq<State>, c: Config)
    requires WellFormed(code, c) && |stack| <= STACK_LIMIT
    ensures var r := BoundedRun(code, stack, c);
            (r.Error? && r.error == StackOverflow) <==> Peak(code, stack, c) > STACK_LIMIT
    decreases |code| - c.ptr, Weight(stack)
  {
    if stack != [] {
      TurnAlone(code, c, stack[0]);
      var r := Step(code, c, stack[0]);
      if r.Next? {
        TurnIsLighter(code, stack, c);
        if !Overflows(stack, r.push) {
          OverflowIffTooDeep(code, r.push + stack[1..], r.cfg);
        }
      }
    }
  }

  /** As long as the stack suffices, the bounded machine is the recursive descent. */
  lemma {:induction false} BoundedRunRefinesDescent(code: seq<byte>, stack: seq<State>, c: Config)
    requires WellFormed(code, c)
    ensures var r := BoundedRun(code, stack, c);
            r == ParseAll(code, stack, c) || (r.Error? && r.error == StackOverflow)
    decreases |code| - c.ptr, Weight(stack)
  {
    if stack != [] {
      StepProgress(code, c, stack[0]);
      var r := Step(code, c, stack[0]);
      if r.Next? && !Overflows(stack, r.push) {
        TurnIsLighter(code, stack, c);
        BoundedRunRefinesDescent(code, r.push + stack[1..], r.cfg);
        ParseAllConcat(code, r.push, stack[1..], r.cfg);
      }
    }
  }
}
