/** One turn of the AML parser: condition, new block, consumer, action.

    Blocks live in an arena; `left`, `right` and `down` are arena indices and -1 is NULL. Block 0 is the
    zero block, block 1 the table block. `ptr` counts from the start of the code.
    Source: source/kernel/firmware/acpi/aml/main.c */
module AmlMachine {
  import opened AmlGrammar

  type byte = b: int | 0 <= b < 256

  datatype Kind = ZeroBlock | Table | Entry(state: State)

  /** `text` and `value` are what its consumer wrote: the characters of a name, the fields of a flag byte, a number. */
  datatype Block =
    Block(left: int, right: int, down: int, start: int, end: int, kind: Kind, text: seq<byte>, value: nat)

  datatype Config = Config(ptr: nat, blocks: seq<Block>, actual: nat, dir: Direction)

  /** Why a turn stops. `OutOfBuffer` is a read past the code, which the source does not detect;
      `LeftTheTable` would be a close without an open section. */
  datatype Error = EndOfBlock | WrongByte | ConsumerFailed | NoStateMatched | StackOverflow | OutOfBuffer | LeftTheTable

  datatype Option<T> = None | Some(value: T)

  // ----- well-formed configurations

  predicate BlockOk(blocks: seq<Block>, i: nat)
    requires i < |blocks|
  {
    && (blocks[i].right == -1 || i < blocks[i].right < |blocks|)
    && (blocks[i].down == -1 || i < blocks[i].down < |blocks|)
    && (if i == 0 then blocks[i].left == -1 else 0 <= blocks[i].left < i)
  }

  predicate BlocksOk(blocks: seq<Block>) {
    forall i :: 0 <= i < |blocks| ==> BlockOk(blocks, i)
  }

  predicate WellFormed(code: seq<byte>, c: Config) {
    && c.ptr <= |code|
    && 1 <= c.actual < |c.blocks|
    && BlocksOk(c.blocks)
  }

  /** The two arenas differ at most in what the blocks say, not in how they are linked. */
  predicate SameLinks(a: seq<Block>, b: seq<Block>) {
    && |a| == |b|
    && forall i :: 0 <= i < |a| ==>
         b[i] == a[i].(end := b[i].end, text := b[i].text, value := b[i].value)
  }

  lemma {:induction false} SameLinksOk(a: seq<Block>, b: seq<Block>)
    requires BlocksOk(a) && SameLinks(a, b)
    ensures BlocksOk(b)
  {
    forall i | 0 <= i < |b|
      ensures BlockOk(b, i)
    {
      assert BlockOk(a, i);
    }
  }

  /** The block the current position is linked below or behind; its `end` bounds every read. */
  function Parent(c: Config): nat
    requires 1 <= c.actual < |c.blocks| && BlocksOk(c.blocks)
    ensures Parent(c) < c.actual
  {
    assert BlockOk(c.blocks, c.actual);
    c.blocks[c.actual].left
  }

  function Bound(c: Config): int
    requires 1 <= c.actual < |c.blocks| && BlocksOk(c.blocks)
  {
    c.blocks[Parent(c)].end
  }

  // ----- conditions

  /** The tests for characters that may not begin a name, and that may not be in one. */
  predicate NoLeadChar(b: byte) {
    (b < 0x41 && b > 0x5A) && b != 0x5F
  }

  predicate NoNameChar(b: byte) {
    (b < 0x30 && b > 0x39) && (b < 0x41 && b > 0x5A) && b != 0x5F
  }

  /** The check before a state is processed. */
  function Guard(code: seq<byte>, c: Config, cond: Condition): Option<Error>
    requires WellFormed(code, c)
  {
    match cond
    case Always => None
    case Byte(v) =>
      if c.ptr > Bound(c) then Some(EndOfBlock)
      else if c.ptr >= |code| then Some(OutOfBuffer)
      else if code[c.ptr] != v then Some(WrongByte)
      else None
    case ExtByte(v) =>
      if c.ptr + 1 > Bound(c) then Some(EndOfBlock)
      else if c.ptr >= |code| then Some(OutOfBuffer)
      else if code[c.ptr] != 0x5B then Some(WrongByte)
      else if c.ptr + 1 >= |code| then Some(OutOfBuffer)
      else if code[c.ptr + 1] != v then Some(WrongByte)
      else None
    case LeadNameChar =>
      if c.ptr > Bound(c) then Some(EndOfBlock)
      else if c.ptr >= |code| then Some(OutOfBuffer)
      else if NoLeadChar(code[c.ptr]) then Some(WrongByte)
      else None
  }

  predicate IsLeadNameChar(b: byte) {
    0x41 <= b <= 0x5A || b == 0x5F
  }

  datatype Match = Matches | Differs | Unreadable

  /** Whether an alternative with this condition is taken here. */
  function Matching(code: seq<byte>, c: Config, cond: Condition): Match
    requires WellFormed(code, c)
  {
    match cond
    case Always => if c.ptr <= Bound(c) then Matches else Differs
    case Byte(v) =>
      if c.ptr > Bound(c) then Differs
      else if c.ptr >= |code| then Unreadable
      else if code[c.ptr] == v then Matches else Differs
    case ExtByte(v) =>
      if c.ptr + 1 > Bound(c) then Differs
      else if c.ptr >= |code| then Unreadable
      else if code[c.ptr] != 0x5B then Differs
      else if c.ptr + 1 >= |code| then Unreadable
      else if code[c.ptr + 1] == v then Matches else Differs
    case LeadNameChar =>
      if c.ptr > Bound(c) then Differs
      else if c.ptr >= |code| then Unreadable
      else if IsLeadNameChar(code[c.ptr]) then Matches else Differs
  }

  datatype Picked = Take(state: State) | TakeNothing | TakeNone | CannotRead

  /** The first alternative whose condition holds; `Nothing` always does. */
  function Pick(code: seq<byte>, c: Config, choices: seq<State>): (p: Picked)
    requires WellFormed(code, c)
    ensures p.Take? ==> p.state in choices && !p.state.Nothing?
    ensures p.TakeNothing? ==> Nothing in choices
  {
    if choices == [] then TakeNone
    else if choices[0].Nothing? then TakeNothing
    else
      match Matching(code, c, RuleOf(choices[0]).condition)
      case Matches => Take(choices[0])
      case Unreadable => CannotRead
      case Differs => Pick(code, c, choices[1..])
  }

  // ----- new blocks

  function Linked(c: Config, n: nat): seq<Block>
    requires c.actual < |c.blocks|
  {
    if c.dir.Right? then c.blocks[c.actual := c.blocks[c.actual].(right := n)]
    else c.blocks[c.actual := c.blocks[c.actual].(down := n)]
  }

  function Section(c: Config): nat
    requires 1 <= c.actual < |c.blocks| && BlocksOk(c.blocks)
  {
    if c.dir.Right? then c.actual else Parent(c)
  }

  function Create(c: Config, s: State, creation: Creation): Config
    requires 1 <= c.actual < |c.blocks| && BlocksOk(c.blocks)
  {
    match creation
    case NoBlock => c
    case NewBlock(after) =>
      var fresh' := Block(Section(c), -1, -1, c.ptr, Bound(c), Entry(s), [], 0);
      Config(c.ptr, Linked(c, |c.blocks|) + [fresh'], |c.blocks|, after)
  }

  lemma {:induction false} CreateOk(c: Config, s: State, creation: Creation)
    requires 1 <= c.actual < |c.blocks| && BlocksOk(c.blocks)
    ensures var d := Create(c, s, creation); BlocksOk(d.blocks) && 1 <= d.actual < |d.blocks|
  {
    var d := Create(c, s, creation);
    forall i | 0 <= i < |d.blocks|
      ensures BlockOk(d.blocks, i)
    {
      if i < |c.blocks| {
        assert BlockOk(c.blocks, i);
      }
    }
  }

  // ----- consumers

  /** The number of bytes a consumer read, what it wrote into its block, or how it refused. */
  datatype Consumed = Accept(used: nat, text: seq<byte>, value: nat) | Refuse(error: Error)

  function At(code: seq<byte>, at: nat): nat {
    if at < |code| then code[at] else 0
  }

  function PkgLengthOf(code: seq<byte>, at: nat, following: nat): nat
    requires following <= 3 && at + following < |code|
  {
    match following
    case 0 => At(code, at) % 0x40
    case 1 => At(code, at) % 0x10 + At(code, at + 1) * 0x10
    case 2 => At(code, at) % 0x10 + At(code, at + 1) * 0x10 + At(code, at + 2) * 0x1000
    case _ => At(code, at) % 0x10 + At(code, at + 1) * 0x10 + At(code, at + 2) * 0x1000 + At(code, at + 3) * 0x10_0000
  }

  /** A single byte inside the block, refused unless `valid`; `fields` are written. */
  function FlagByte(code: seq<byte>, c: Config, valid: bool, fields: seq<byte>): Consumed
    requires WellFormed(code, c)
  {
    if c.ptr > Bound(c) then Refuse(ConsumerFailed)
    else if c.ptr >= |code| then Refuse(OutOfBuffer)
    else if !valid then Refuse(ConsumerFailed)
    else Accept(1, fields, 0)
  }

  /** Access type, lock rule and update rule of a field. */
  function FieldFlagsOf(b: byte): seq<byte> {
    [b % 0x10, b / 0x10 % 2, b / 0x20 % 4]
  }

  /** Argument count, serialize flag and sync level of a method. */
  function MethodFlagsOf(b: byte): seq<byte> {
    [b % 4, b / 4 % 2, b / 8 % 0x20]
  }

  function ByteAt(code: seq<byte>, at: nat): byte {
    if at < |code| then code[at] else 0
  }

  /** The name segment is followed by a byte that is no name character; its own first byte is not looked at. */
  predicate SegRefused(code: seq<byte>, at: nat) {
    exists k :: at < k <= at + 4 && k < |code| && NoNameChar(code[k])
  }

  /** One of `n` bytes of a path may not be where it is. */
  predicate PathRefused(code: seq<byte>, at: nat, n: nat) {
    exists k :: at <= k < at + n && k < |code| &&
      if (k - at) % 4 == 0 then NoLeadChar(code[k]) else NoNameChar(code[k])
  }

  function Consume(code: seq<byte>, c: Config, consumer: Consumer): Consumed
    requires WellFormed(code, c)
  {
    match consumer
    case NoConsumer => Accept(0, [], 0)
    case SkipOpcode => if c.ptr + 1 > |code| then Refuse(OutOfBuffer) else Accept(1, [], 0)
    case SkipExtOpcode => if c.ptr + 2 > |code| then Refuse(OutOfBuffer) else Accept(2, [], 0)
    case ReadRootChar => if c.ptr + 1 > |code| then Refuse(OutOfBuffer) else Accept(1, [0x5C], 0)
    case ReadPrefixPath => if c.ptr + 1 > |code| then Refuse(OutOfBuffer) else Accept(1, [0x5E], 0)
    case ReadOneOp => if c.ptr + 1 > |code| then Refuse(OutOfBuffer) else Accept(1, [], 1)
    case ReadPkgLength =>
      if c.ptr >= |code| then Refuse(OutOfBuffer)
      else
        var following := At(code, c.ptr) / 0x40;
        if c.ptr + following > Bound(c) then Refuse(ConsumerFailed)
        else if c.ptr + following >= |code| then Refuse(OutOfBuffer)
        else if PkgLengthOf(code, c.ptr, following) == 0 then Refuse(ConsumerFailed)
        else Accept(1 + following, [], PkgLengthOf(code, c.ptr, following))
    case ReadNameSeg =>
      if c.ptr + 4 > Bound(c) then Refuse(ConsumerFailed)
      else if c.ptr + 4 >= |code| then Refuse(OutOfBuffer)
      else if SegRefused(code, c.ptr) then Refuse(ConsumerFailed)
      else Accept(4, code[c.ptr..c.ptr + 4], 0)
    case ReadMultiNamePath =>
      if c.ptr + 1 > Bound(c) then Refuse(ConsumerFailed)
      else if c.ptr + 1 >= |code| then Refuse(OutOfBuffer)
      else
        var n := 4 * At(code, c.ptr + 1);
        if c.ptr + 2 + n > Bound(c) then Refuse(ConsumerFailed)
        else if c.ptr + 2 + n > |code| then Refuse(OutOfBuffer)
        else if PathRefused(code, c.ptr + 2, n) then Refuse(ConsumerFailed)
        else Accept(2 + n, code[c.ptr + 2..c.ptr + 2 + n], 0)
    case ReadRegionSpace =>
      var b := ByteAt(code, c.ptr);
      FlagByte(code, c, b <= 0x0A || b >= 0x80, [b])
    case ReadFieldFlags => FlagByte(code, c, ByteAt(code, c.ptr) < 0x80, FieldFlagsOf(ByteAt(code, c.ptr)))
    case ReadMethodFlags => FlagByte(code, c, true, MethodFlagsOf(ByteAt(code, c.ptr)))
    case ReadWordConst =>
      if c.ptr + 2 > Bound(c) then Refuse(ConsumerFailed)
      else if c.ptr + 2 >= |code| then Refuse(OutOfBuffer)
      else Accept(3, [], At(code, c.ptr + 1) + At(code, c.ptr + 2) * 0x100)
  }

  lemma {:induction false} ConsumeAdvances(code: seq<byte>, c: Config, consumer: Consumer)
    requires WellFormed(code, c)
    ensures var r := Consume(code, c, consumer);
            r.Accept? ==> c.ptr + r.used <= |code| && (consumer.NoConsumer? <==> r.used == 0)
  {
  }

  /** Every sibling from `i` on ends at `end`. */
  function SetEnds(blocks: seq<Block>, i: int, end: int): (r: seq<Block>)
    requires BlocksOk(blocks) && -1 <= i < |blocks|
    ensures SameLinks(blocks, r)
    decreases if i == -1 then 0 else |blocks| - i
  {
    if i == -1 then blocks
    else
      var b := blocks[i := blocks[i].(end := end)];
      assert SameLinks(blocks, b);
      SameLinksOk(blocks, b);
      assert BlockOk(b, i);
      SetEnds(b, blocks[i].down, end)
  }

  /** The length of a package bounds its section and the section's blocks so far. */
  function Bounded(c: Config, length: nat): (r: seq<Block>)
    requires 1 <= c.actual < |c.blocks| && BlocksOk(c.blocks)
    ensures SameLinks(c.blocks, r)
  {
    var p := Parent(c);
    var end := c.ptr + length - 1;
    var b := c.blocks[p := c.blocks[p].(end := end)];
    assert SameLinks(c.blocks, b);
    SameLinksOk(c.blocks, b);
    assert BlockOk(b, p);
    SetEnds(b, b[p].right, end)
  }

  function Written(blocks: seq<Block>, i: nat, text: seq<byte>, value: nat): (r: seq<Block>)
    requires i < |blocks|
    ensures SameLinks(blocks, r)
  {
    blocks[i := blocks[i].(text := blocks[i].text + text, value := value)]
  }

  /** The configuration after an accepting consumer. */
  function Apply(c: Config, consumer: Consumer, r: Consumed): Config
    requires 1 <= c.actual < |c.blocks| && BlocksOk(c.blocks) && r.Accept?
  {
    match consumer
    case NoConsumer => c
    case SkipOpcode => c.(ptr := c.ptr + r.used)
    case SkipExtOpcode => c.(ptr := c.ptr + r.used)
    case ReadPkgLength =>
      c.(ptr := c.ptr + r.used, blocks := Written(Bounded(c, r.value), c.actual, [], r.value))
    case _ =>
      c.(ptr := c.ptr + r.used, blocks := Written(c.blocks, c.actual, r.text, r.value))
  }

  lemma {:induction false} ApplyOk(c: Config, consumer: Consumer, r: Consumed)
    requires 1 <= c.actual < |c.blocks| && BlocksOk(c.blocks) && r.Accept?
    ensures var d := Apply(c, consumer, r);
            SameLinks(c.blocks, d.blocks) && BlocksOk(d.blocks) && d.actual == c.actual && d.dir == c.dir
            && (!consumer.NoConsumer? ==> d.ptr == c.ptr + r.used) && (consumer.NoConsumer? ==> d == c)
  {
    SameLinksOk(c.blocks, Apply(c, consumer, r).blocks);
  }

  // ----- the turn

  /** What replaces the state on top of the stack, or why the parse ends and with which blocks. */
  datatype Outcome = Next(cfg: Config, push: seq<State>) | Fail(error: Error, blocks: seq<Block>)

  function Close(c: Config): Config
    requires 1 <= c.actual < |c.blocks| && BlocksOk(c.blocks)
  {
    c.(actual := Section(c), dir := Stay)
  }

  function Act(code: seq<byte>, c: Config, action: Action): Outcome
    requires WellFormed(code, c)
  {
    match action
    case Finish => Next(c, [])
    case AddStates(states) => Next(c, states)
    case AddOneOf(choices) =>
      (match Pick(code, c, choices)
       case Take(s) => Next(c, [s])
       case TakeNothing => Next(c, [])
       case TakeNone => Fail(NoStateMatched, c.blocks)
       case CannotRead => Fail(OutOfBuffer, c.blocks))
    case CloseSection => if Section(c) == 0 then Fail(LeftTheTable, c.blocks) else Next(Close(c), [])
  }

  function Step(code: seq<byte>, c: Config, s: State): (r: Outcome)
    requires WellFormed(code, c)
    ensures r.Next? ==> WellFormed(code, r.cfg)
  {
    var rule := RuleOf(s);
    match Guard(code, c, rule.condition)
    case Some(e) => Fail(e, c.blocks)
    case None =>
      var created := Create(c, s, rule.creation);
      CreateOk(c, s, rule.creation);
      match Consume(code, created, rule.consumer)
      case Refuse(e) => Fail(e, created.blocks)
      case Accept(used, text, value) =>
        var applied := Apply(created, rule.consumer, Accept(used, text, value));
        ApplyOk(created, rule.consumer, Accept(used, text, value));
        ConsumeAdvances(code, created, rule.consumer);
        Act(code, applied, rule.action)
  }

  /** The configuration the parser starts in: the zero block and the table block. */
  function Start(code: seq<byte>): Config
    requires code != []
  {
    var end := |code| - 1;
    Config(0, [Block(-1, 1, -1, 0, end, ZeroBlock, [], 0), Block(0, -1, -1, 0, end, Table, [], 0)], 1, Right)
  }
}
