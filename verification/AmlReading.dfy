/** Stretches of a parse: the states that are worked off, the stack entries that takes, and the trees that are made.
    Source: source/kernel/firmware/acpi/aml/main.c:247-445 */
module AmlReading {
  import opened AmlGrammar
  import opened AmlMachine
  import opened AmlDescent
  import opened AmlTerms
  import opened AmlLayout

  // ----- states worked off

  /** Where a parse ends and the stack entries it takes at most, or that it fails. */
  datatype Ran = Through(cfg: Config, height: nat) | Stuck

  /** Some code, and what comes of states on it. */
  datatype Descent = Descent(code: seq<byte>, runs: (seq<State>, Config) -> Ran)

  function Higher(r: Ran, n: nat): Ran {
    match r
    case Stuck => Stuck
    case Through(d, h) => Through(d, Max(n, h))
  }

  /** The top state makes its turn and what it pushes comes in its place. */
  predicate Turned(p: Descent, stack: seq<State>, c: Config, r: Outcome)
    requires stack != []
  {
    match r
    case Fail(_, _) => p.runs(stack, c) == Stuck
    case Next(d, push) => p.runs(stack, c) == Higher(p.runs(push + stack[1..], d), |stack|)
  }

  predicate Turns(p: Descent, stack: seq<State>, c: Config)
    requires WellFormed(p.code, c)
  {
    if stack == [] then p.runs(stack, c) == Through(c, 0) else Turned(p, stack, c, Step(p.code, c, stack[0]))
  }

  ghost predicate Follows(p: Descent) {
    forall stack, c :: WellFormed(p.code, c) ==> Turns(p, stack, c)
  }

  /** The recursive descent with the stack entries of the machine. */
  function DescentOf(code: seq<byte>): Descent {
    Descent(code, (stack, c) =>
      if !WellFormed(code, c) then Stuck
      else
        match ParseAll(code, stack, c)
        case Error(_, _) => Stuck
        case Done(d) => Through(d, Peak(code, stack, c)))
  }

  lemma {:induction false} TurnOnce(code: seq<byte>, stack: seq<State>, c: Config, d: Config, push: seq<State>)
    requires WellFormed(code, c) && stack != [] && Step(code, c, stack[0]) == Next(d, push)
    ensures ParseAll(code, stack, c) == ParseAll(code, push + stack[1..], d)
    ensures Peak(code, stack, c) == Max(|stack|, Peak(code, push + stack[1..], d))
  {
    TurnIsLighter(code, stack, c);
    ParseAllConcat(code, push, stack[1..], d);
  }

  lemma {:induction false} FailOnce(code: seq<byte>, stack: seq<State>, c: Config)
    requires WellFormed(code, c) && stack != [] && Step(code, c, stack[0]).Fail?
    ensures ParseAll(code, stack, c).Error?
  {
  }

  lemma {:induction false} NothingOnce(code: seq<byte>, c: Config)
    requires WellFormed(code, c)
    ensures ParseAll(code, [], c) == Done(c) && Peak(code, [], c) == 0
  {
  }

  lemma {:induction false} DescentFollows(code: seq<byte>)
    ensures Follows(DescentOf(code))
  {
    var p := DescentOf(code);
    forall stack, c | WellFormed(p.code, c)
      ensures Turns(p, stack, c)
    {
      if stack == [] {
        NothingOnce(code, c);
      } else {
        match Step(code, c, stack[0])
        case Fail(_, _) => FailOnce(code, stack, c);
        case Next(d, push) => TurnOnce(code, stack, c, d, push);
      }
    }
  }

  /** What comes of states `b` after those that led to `r`. */
  function Then(p: Descent, r: Ran, b: seq<State>): Ran {
    match r
    case Stuck => Stuck
    case Through(d, h) => Higher(p.runs(b, d), h + |b|)
  }

  /** A turn with and without more states below. */
  lemma {:induction false} TurnAbove(
      p: Descent, a: seq<State>, b: seq<State>, c: Config, d: Config, push: seq<State>, on: seq<State>)
    requires a != [] && Turned(p, a, c, Next(d, push)) && Turned(p, a + b, c, Next(d, push)) && on == push + a[1..]
    ensures p.runs(a, c) == Higher(p.runs(on, d), |a|) && p.runs(a + b, c) == Higher(p.runs(on + b, d), |a| + |b|)
  {
    assert (a + b)[1..] == a[1..] + b;
    assert push + (a[1..] + b) == on + b;
  }

  /** States are worked off one after the other; those that wait count as entries. */
  lemma {:induction false} RunsThen(p: Descent, a: seq<State>, b: seq<State>, c: Config)
    requires Follows(p) && WellFormed(p.code, c) && a != []
    ensures p.runs(a + b, c) == Then(p, p.runs(a, c), b)
    decreases |p.code| - c.ptr, Weight(a)
  {
    assert Turns(p, a, c) && Turns(p, a + b, c) && (a + b)[0] == a[0];
    var r := Step(p.code, c, a[0]);
    if r.Next? {
      var on := r.push + a[1..];
      TurnIsLighter(p.code, a, c);
      TurnAbove(p, a, b, c, r.cfg, r.push, on);
      if on == [] {
        assert on + b == b && Turns(p, on, r.cfg);
      } else {
        RunsThen(p, on, b, r.cfg);
      }
    }
  }

  lemma {:induction false} RunsOne(p: Descent, s: State, c: Config)
    requires Follows(p) && WellFormed(p.code, c)
    ensures var r := Step(p.code, c, s);
            p.runs([s], c) == if r.Next? then Higher(p.runs(r.push, r.cfg), 1) else Stuck
  {
    assert Turns(p, [s], c);
    var r := Step(p.code, c, s);
    if r.Next? { assert r.push + [s][1..] == r.push; }
  }

  lemma {:induction false} RunsNothing(p: Descent, c: Config)
    requires Follows(p) && WellFormed(p.code, c)
    ensures p.runs([], c) == Through(c, 0)
  {
    assert Turns(p, [], c);
  }

  // ----- choices

  /** The alternative is taken here if and only if it is `s`. */
  predicate Tells(code: seq<byte>, c: Config, x: State, s: State)
    requires WellFormed(code, c)
  {
    !x.Nothing? && Matching(code, c, RuleOf(x).condition) == if x == s then Matches else Differs
  }

  lemma {:induction false} OneIsPicked(code: seq<byte>, c: Config, choices: seq<State>, s: State)
    requires WellFormed(code, c) && s in choices
    requires forall k :: 0 <= k < |choices| ==> Tells(code, c, choices[k], s)
    ensures Pick(code, c, choices) == Take(s)
  {
    assert Tells(code, c, choices[0], s);
    if choices[0] != s {
      forall k | 0 <= k < |choices[1..]| ensures Tells(code, c, choices[1..][k], s) {
        assert Tells(code, c, choices[k + 1], s);
      }
      OneIsPicked(code, c, choices[1..], s);
    }
  }

  /** The turn of a choice of which one alternative is taken. */
  lemma {:induction false} ChoiceTurn(code: seq<byte>, c: Config, x: State, choices: seq<State>, s: State)
    requires WellFormed(code, c) && RuleOf(x) == Rule(Always, NoBlock, NoConsumer, AddOneOf(choices)) && s in choices
    requires forall k :: 0 <= k < |choices| ==> Tells(code, c, choices[k], s)
    ensures Step(code, c, x) == Next(c, [s])
  {
    OneIsPicked(code, c, choices, s);
  }

  lemma {:induction false} FirstOrNothing(code: seq<byte>, c: Config, s: State)
    requires WellFormed(code, c) && !s.Nothing? && !Matching(code, c, RuleOf(s).condition).Unreadable?
    ensures Pick(code, c, [s, Nothing]) ==
            if Matching(code, c, RuleOf(s).condition).Matches? then Take(s) else TakeNothing
  {
    assert [s, Nothing][1..] == [Nothing];
  }

  /** The turn of a list: one more of what it lists, or its end. */
  lemma {:induction false} ListTurn(code: seq<byte>, c: Config, x: State, s: State, more: bool)
    requires WellFormed(code, c) && RuleOf(x) == Rule(Always, NoBlock, NoConsumer, AddOneOf([s, Nothing]))
    requires !s.Nothing? && Matching(code, c, RuleOf(s).condition) == if more then Matches else Differs
    ensures Step(code, c, x) == Next(c, if more then [s] else [])
  {
    FirstOrNothing(code, c, s);
  }

  lemma {:induction false} StatesTurn(code: seq<byte>, c: Config, x: State, states: seq<State>)
    requires WellFormed(code, c) && RuleOf(x) == Rule(Always, NoBlock, NoConsumer, AddStates(states))
    ensures Step(code, c, x) == Next(c, states)
  {
  }

  // ----- places in the code

  /** The bytes stand in the code from `at` on, in front of byte `e + 1`. */
  predicate Holds(code: seq<byte>, at: nat, bytes: seq<byte>, e: int) {
    at + |bytes| <= e + 1 <= |code| && code[at..at + |bytes|] == bytes
  }

  lemma {:induction false} HoldsParts(code: seq<byte>, at: nat, a: seq<byte>, b: seq<byte>, e: int)
    requires Holds(code, at, a + b, e)
    ensures Holds(code, at, a, e) && Holds(code, at + |a|, b, e)
  {
    var both := code[at..at + |a + b|];
    assert a == both[..|a|] == code[at..at + |a|];
    assert b == both[|a|..] == code[at + |a|..at + |a| + |b|];
  }

  lemma {:induction false} HoldsByte(code: seq<byte>, at: nat, bytes: seq<byte>, e: int, k: nat)
    requires Holds(code, at, bytes, e) && k < |bytes|
    ensures code[at + k] == bytes[k]
  {
  }

  /** Every read from here is bounded by byte `e`, and so is every read in a section opened here. */
  predicate EndsAt(c: Config, e: int) {
    && 1 <= c.actual < |c.blocks| && 0 <= c.blocks[c.actual].left < |c.blocks|
    && c.blocks[c.blocks[c.actual].left].end == e
    && (c.dir.Right? ==> c.blocks[c.actual].end == e)
  }

  predicate Ready(code: seq<byte>, c: Config, e: int) {
    WellFormed(code, c) && Free(c) && EndsAt(c, e) && e < |code|
  }

  // ----- trees made

  /** Working off the states takes `h` stack entries and adds the trees; the section ends at `e` before and at `f` after
      it. */
  predicate Reads(p: Descent, states: seq<State>, c: Config, e: int, d: Config, f: int, h: nat, ts: seq<Tree>) {
    Ready(p.code, c, e) && Ready(p.code, d, f) && p.runs(states, c) == Through(d, h) && Grows(c, d, ts)
  }

  lemma {:induction false} ReadsThen(
      p: Descent, a: seq<State>, c: Config, e: int, d: Config, f: int, h: nat, ts: seq<Tree>,
      b: seq<State>, x: Config, g: int, k: nat, us: seq<Tree>)
    requires Follows(p) && Reads(p, a, c, e, d, f, h, ts) && Reads(p, b, d, f, x, g, k, us) && a != []
    ensures Reads(p, a + b, c, e, x, g, Max(h + |b|, k), ts + us)
  {
    RunsThen(p, a, b, c);
    GrowsJoin(c, d, x, ts, us);
  }

  /** A new block below or behind the current one. */
  lemma {:induction false} Creates(code: seq<byte>, c: Config, e: int, s: State, after: Direction) returns (m: Config)
    requires Ready(code, c, e)
    ensures m == Create(c, s, NewBlock(after)) && Ready(code, m, e)
    ensures m.ptr == c.ptr && m.actual == |c.blocks| && m.dir == after
    ensures m.blocks[m.actual].text == [] && m.blocks[m.actual].value == 0
    ensures Grows(c, m.(dir := Stay), [Leaf(s, [], 0)])
  {
    m := Create(c, s, NewBlock(after));
    CreateOk(c, s, NewBlock(after));
    GrowsOne(c, m.(dir := Stay), s, [], 0);
  }

  /** The configuration `m` with `text` added to its block, `value` written there and `n` bytes read. */
  function Filled(m: Config, n: nat, text: seq<byte>, value: nat): Config
    requires m.actual < |m.blocks|
  {
    m.(ptr := m.ptr + n, blocks := Written(m.blocks, m.actual, text, value))
  }

  lemma {:induction false} Fills(
      code: seq<byte>, c: Config, e: int, s: State, m: Config, n: nat, text: seq<byte>, value: nat)
    requires Free(c) && Ready(code, m, e) && m.actual == |c.blocks| && m.ptr + n <= |code|
    requires Grows(c, m.(dir := Stay), [Leaf(s, m.blocks[m.actual].text, m.blocks[m.actual].value)])
    ensures var w := Filled(m, n, text, value);
            && Ready(code, w, e)
            && Grows(c, w.(dir := Stay), [Leaf(s, m.blocks[m.actual].text + text, value)])
  {
    var w := Filled(m, n, text, value);
    GrowsOne(c, m.(dir := Stay), s, m.blocks[m.actual].text, m.blocks[m.actual].value);
    SameLinksOk(m.blocks, w.blocks);
    GrowsOne(c, w.(dir := Stay), s, m.blocks[m.actual].text + text, value);
  }

  /** Consumers that write into the current block. */
  predicate Fillable(consumer: Consumer) {
    !(consumer.NoConsumer? || consumer.SkipOpcode? || consumer.SkipExtOpcode? || consumer.ReadPkgLength?)
  }

  /** The turn of a state that only reads into the current block. */
  lemma {:induction false} FillTurn(code: seq<byte>, c: Config, x: State, n: nat, text: seq<byte>, value: nat)
    requires WellFormed(code, c) && RuleOf(x).creation == NoBlock && Fillable(RuleOf(x).consumer)
    requires Guard(code, c, RuleOf(x).condition) == None
    requires Consume(code, c, RuleOf(x).consumer) == Accept(n, text, value)
    ensures WellFormed(code, Filled(c, n, text, value))
    ensures Step(code, c, x) == Act(code, Filled(c, n, text, value), RuleOf(x).action)
  {
    ConsumeAdvances(code, c, RuleOf(x).consumer);
    ApplyOk(c, RuleOf(x).consumer, Accept(n, text, value));
  }

  /** The turn of a choice that makes a block first. */
  lemma {:induction false} NewChoiceTurn(
      code: seq<byte>, c: Config, x: State, after: Direction, choices: seq<State>, m: Config, s: State)
    requires WellFormed(code, c) && RuleOf(x) == Rule(Always, NewBlock(after), NoConsumer, AddOneOf(choices))
    requires m == Create(c, x, NewBlock(after)) && WellFormed(code, m) && Pick(code, m, choices) == Take(s)
    ensures Step(code, c, x) == Next(m, [s])
  {
  }
}
