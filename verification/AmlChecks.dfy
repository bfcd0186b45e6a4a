/** What the parser's checks of single bytes let through, against sections 20.2.2 and 20.2.5.2 of the ACPI
    Specification.
    Source: source/kernel/firmware/acpi/aml/main.c:281-294, 522-581, 638-675 */
module AmlChecks {
  import opened AmlGrammar
  import opened AmlMachine
  import opened AmlTree

  // ----- names

  /** The tests for wrong characters of a name never find one. */
  lemma NoCharIsRefused(b: byte)
    ensures !NoLeadChar(b) && !NoNameChar(b)
  {
  }

  /** A state that expects a lead name character is entered on every byte of its section, a letter or not. */
  lemma {:induction false} LeadGuardIsBlind(code: seq<byte>, c: Config)
    requires WellFormed(code, c)
    ensures Guard(code, c, LeadNameChar) == None <==> c.ptr <= Bound(c) && c.ptr < |code|
  {
    if c.ptr < |code| { NoCharIsRefused(code[c.ptr]); }
  }

  /** So exactly the bytes that are no lead name characters are wrongly let through; the choice between alternatives
      refuses them. */
  lemma {:induction false} GuardAndChoiceDiffer(code: seq<byte>, c: Config)
    requires WellFormed(code, c) && c.ptr <= Bound(c) && c.ptr < |code|
    ensures (Guard(code, c, LeadNameChar) == None && Matching(code, c, LeadNameChar) == Differs) <==>
              !(0x41 <= code[c.ptr] <= 0x5A || code[c.ptr] == 0x5F)
  {
    LeadGuardIsBlind(code, c);
  }

  /** A name segment is accepted, whatever its characters, if and only if a fifth byte follows it in its section. */
  lemma {:induction false} NameSegAcceptedIff(code: seq<byte>, c: Config)
    requires WellFormed(code, c)
    ensures Consume(code, c, ReadNameSeg).Accept? <==> c.ptr + 4 <= Bound(c) && c.ptr + 4 < |code|
  {
  }

  /** So the name at the end of a section is refused, as the one in code that consists of the name "ABCD" alone. */
  lemma {:induction false} LastNameIsRefused()
    ensures var code := [0x41, 0x42, 0x43, 0x44];
            WellFormed(code, Start(code)) && Consume(code, Start(code), ReadNameSeg) == Refuse(ConsumerFailed)
  {
    var code: seq<byte> := [0x41, 0x42, 0x43, 0x44];
    var c := Start(code);
    assert BlockOk(c.blocks, 0) && BlockOk(c.blocks, 1);
  }

  /** A path of several segments is accepted, whatever its characters, if and only if one more byte of its section
      follows its last segment. */
  lemma {:induction false} PathAcceptedIff(code: seq<byte>, c: Config)
    requires WellFormed(code, c) && c.ptr + 1 <= Bound(c) && c.ptr + 1 < |code|
    ensures var n := 4 * At(code, c.ptr + 1);
            Consume(code, c, ReadMultiNamePath).Accept? <==> c.ptr + 2 + n <= Bound(c) && c.ptr + 2 + n <= |code|
  {
  }

  /** So a path whose last byte is the last one of its section is refused, however many segments it has. */
  lemma {:induction false} LastPathIsRefused(code: seq<byte>, c: Config)
    requires WellFormed(code, c) && c.ptr + 1 < |code| && Bound(c) == c.ptr + 1 + 4 * At(code, c.ptr + 1)
    ensures Consume(code, c, ReadMultiNamePath) == Refuse(ConsumerFailed)
  {
  }

  /** As the path of the one segment "ABCD" in code that holds nothing else. */
  lemma {:induction false} OnePathIsRefused()
    ensures var code := [0x2F, 1, 0x41, 0x42, 0x43, 0x44];
            WellFormed(code, Start(code)) && Consume(code, Start(code), ReadMultiNamePath) == Refuse(ConsumerFailed)
  {
    var code: seq<byte> := [0x2F, 1, 0x41, 0x42, 0x43, 0x44];
    var c := Start(code);
    assert BlockOk(c.blocks, 0) && BlockOk(c.blocks, 1);
    LastPathIsRefused(code, c);
  }

  // ----- flags

  /** Section 20.2.5.2: three bits of argument count, the serialize flag, four bits of sync level. */
  function SpecifiedMethodFlags(b: byte): seq<byte> {
    [b % 8, b / 8 % 2, b / 0x10]
  }

  /** The fields read are the specified ones exactly for methods of at most three arguments that are neither
      serialized nor have a sync level; the count alone is right exactly for at most three arguments. */
  lemma {:induction false} MethodFlagsRightIff(b: byte)
    ensures MethodFlagsOf(b) == SpecifiedMethodFlags(b) <==> b < 4
    ensures MethodFlagsOf(b)[0] == SpecifiedMethodFlags(b)[0] <==> b % 8 < 4
  {
    var read, meant := MethodFlagsOf(b), SpecifiedMethodFlags(b);
    assert read == meant <==> read[0] == meant[0] && read[1] == meant[1] && read[2] == meant[2];
    assert b / 8 == b / 0x10 * 2 + b / 8 % 2;
    assert b / 4 == b / 8 * 2 + b / 4 % 2;
  }

  /** Section 20.2.5.2: the fields of an accepted field flag byte are its four lowest bits, the next one and the next
      two, and nothing of it is lost. */
  lemma {:induction false} FieldFlagsAreWhole(code: seq<byte>, c: Config)
    requires WellFormed(code, c) && Consume(code, c, ReadFieldFlags).Accept?
    ensures var r := Consume(code, c, ReadFieldFlags);
            && c.ptr < |code| && |r.text| == 3 && r.text[0] < 0x10 && r.text[1] < 2 && r.text[2] < 4
            && code[c.ptr] == r.text[0] + 0x10 * r.text[1] + 0x20 * r.text[2]
  {
    var b := code[c.ptr];
    assert b / 0x10 == b / 0x20 * 2 + b / 0x10 % 2;
  }

  // ----- opcodes

  /** On opcodes the check before a state and the choice between alternatives agree. */
  lemma {:induction false} GuardIsTheChoice(code: seq<byte>, c: Config, cond: Condition)
    requires WellFormed(code, c) && (cond.Byte? || cond.ExtByte?)
    ensures Guard(code, c, cond) == None <==> Matching(code, c, cond) == Matches
  {
  }

  // ----- the end of a section

  /** A section just opened ends where the one around it does. */
  predicate EndKnown(c: Config)
    requires 1 <= c.actual < |c.blocks| && BlocksOk(c.blocks)
  {
    c.dir.Right? ==> c.blocks[c.actual].end == Bound(c)
  }

  /** What a state read is in front of the end of its section. */
  predicate Inside(c: Config, d: Config)
    requires 1 <= c.actual < |c.blocks| && BlocksOk(c.blocks)
  {
    d.ptr == c.ptr || d.ptr <= Bound(c) + 1
  }

  lemma {:induction false} CreateKnowsEnd(code: seq<byte>, c: Config, s: State, creation: Creation)
    requires WellFormed(code, c) && EndKnown(c)
    ensures var d := Create(c, s, creation);
            && WellFormed(code, d) && EndKnown(d) && Bound(d) == Bound(c) && d.ptr == c.ptr
            && (creation.NewBlock? ==> d.dir == creation.after)
  {
    CreateOk(c, s, creation);
  }

  /** The opcodes are all a consumer can read that does not look for the end itself. */
  predicate Unbounded(consumer: Consumer) {
    consumer.SkipOpcode? || consumer.SkipExtOpcode? || consumer.ReadRootChar? || consumer.ReadPrefixPath?
    || consumer.ReadOneOp?
  }

  lemma {:induction false} ConsumesInside(code: seq<byte>, c: Config, consumer: Consumer)
    requires WellFormed(code, c) && !Unbounded(consumer) && Consume(code, c, consumer).Accept?
    ensures var n := Consume(code, c, consumer).used; n == 0 || c.ptr + n <= Bound(c) + 1
  {
  }

  /** And where it does not, the check of the opcode has. */
  lemma {:induction false} OpcodesAreInside(code: seq<byte>, c: Config, s: State)
    requires WellFormed(code, c) && Unbounded(RuleOf(s).consumer) && Guard(code, c, RuleOf(s).condition) == None
    ensures c.ptr + (if RuleOf(s).consumer.SkipExtOpcode? then 2 else 1) <= Bound(c) + 1
  {
  }

  lemma LengthsMakeNoSection(s: State)
    ensures RuleOf(s).consumer.ReadPkgLength? ==> RuleOf(s).creation == NewBlock(Stay)
  {
  }

  lemma {:induction false} ApplyKnowsEnd(c: Config, consumer: Consumer, r: Consumed)
    requires 1 <= c.actual < |c.blocks| && BlocksOk(c.blocks) && r.Accept? && EndKnown(c)
    requires consumer.ReadPkgLength? ==> c.dir.Stay?
    ensures var d := Apply(c, consumer, r);
            && 1 <= d.actual < |d.blocks| && BlocksOk(d.blocks) && EndKnown(d)
  {
    ApplyOk(c, consumer, r);
  }

  lemma {:induction false} ActKnowsEnd(code: seq<byte>, c: Config, action: Action)
    requires WellFormed(code, c) && EndKnown(c) && Act(code, c, action).Next?
    ensures var d := Act(code, c, action).cfg;
            d.ptr == c.ptr && 1 <= d.actual < |d.blocks| && BlocksOk(d.blocks) && EndKnown(d)
  {
  }

  lemma {:induction false} UsedIsInside(code: seq<byte>, c: Config, s: State, created: Config)
    requires WellFormed(code, c) && WellFormed(code, created) && Bound(created) == Bound(c) && created.ptr == c.ptr
    requires Guard(code, c, RuleOf(s).condition) == None && Consume(code, created, RuleOf(s).consumer).Accept?
    ensures var n := Consume(code, created, RuleOf(s).consumer).used; n == 0 || c.ptr + n <= Bound(c) + 1
  {
    if Unbounded(RuleOf(s).consumer) {
      OpcodesAreInside(code, c, s);
    } else {
      ConsumesInside(code, created, RuleOf(s).consumer);
    }
  }

  /** What a turn that goes on has done. */
  lemma {:induction false} TurnParts(code: seq<byte>, c: Config, s: State)
    requires WellFormed(code, c) && Step(code, c, s).Next?
    ensures Guard(code, c, RuleOf(s).condition) == None
    ensures var created := Create(c, s, RuleOf(s).creation);
            && WellFormed(code, created)
            && var taken := Consume(code, created, RuleOf(s).consumer);
            && taken.Accept? && WellFormed(code, Apply(created, RuleOf(s).consumer, taken))
            && Step(code, c, s) == Act(code, Apply(created, RuleOf(s).consumer, taken), RuleOf(s).action)
  {
    var created := Create(c, s, RuleOf(s).creation);
    CreateOk(c, s, RuleOf(s).creation);
    ConsumeAdvances(code, created, RuleOf(s).consumer);
    ApplyOk(created, RuleOf(s).consumer, Consume(code, created, RuleOf(s).consumer));
  }

  /** No turn reads behind the end of the section it is in. */
  lemma {:induction false} TurnStaysInside(code: seq<byte>, c: Config, s: State)
    requires WellFormed(code, c) && EndKnown(c) && Step(code, c, s).Next?
    ensures EndKnown(Step(code, c, s).cfg) && Inside(c, Step(code, c, s).cfg)
  {
    var created := Create(c, s, RuleOf(s).creation);
    TurnParts(code, c, s);
    CreateKnowsEnd(code, c, s, RuleOf(s).creation);
    UsedIsInside(code, c, s, created);
    LengthsMakeNoSection(s);
    var taken := Consume(code, created, RuleOf(s).consumer);
    ApplyKnowsEnd(created, RuleOf(s).consumer, taken);
    ApplyReads(created, RuleOf(s).consumer, taken);
    ActKnowsEnd(code, Apply(created, RuleOf(s).consumer, taken), RuleOf(s).action);
  }

  lemma {:induction false} ApplyReads(c: Config, consumer: Consumer, r: Consumed)
    requires 1 <= c.actual < |c.blocks| && BlocksOk(c.blocks) && r.Accept?
    ensures Apply(c, consumer, r).ptr == c.ptr || Apply(c, consumer, r).ptr == c.ptr + r.used
  {
  }

  lemma {:induction false} StartKnowsEnd(code: seq<byte>)
    requires code != []
    ensures WellFormed(code, Start(code)) && EndKnown(Start(code))
  {
    StartIsTidy(code);
  }

  predicate KnowsEnd(code: seq<byte>, m: Moment)
    requires Sane(code, m)
  {
    m.Running? ==> EndKnown(m.cfg)
  }

  lemma {:induction false} RoundStaysInside(code: seq<byte>, m: Moment)
    requires Sane(code, m) && KnowsEnd(code, m)
    ensures KnowsEnd(code, Turn(code, m))
    ensures Turn(code, m).Running? ==> m.Running? && Inside(m.cfg, Turn(code, m).cfg)
  {
    if m.Running? && m.stack != [] && Step(code, m.cfg, m.stack[0]).Next? {
      TurnStaysInside(code, m.cfg, m.stack[0]);
    }
  }

  lemma {:induction false} EndKnownAtEveryTurn(code: seq<byte>, k: nat)
    requires code != []
    ensures KnowsEnd(code, After(code, k))
  {
    if k == 0 {
      StartKnowsEnd(code);
    } else {
      EndKnownAtEveryTurn(code, k - 1);
      RoundStaysInside(code, After(code, k - 1));
    }
  }

  /** So at every turn of every parse, whatever the bytes. */
  lemma {:induction false} ParseStaysInside(code: seq<byte>, k: nat)
    requires code != []
    ensures var m, next := After(code, k), After(code, k + 1);
            next.Running? ==> m.Running? && Inside(m.cfg, next.cfg)
  {
    EndKnownAtEveryTurn(code, k);
    RoundStaysInside(code, After(code, k));
    assert After(code, k + 1) == Turn(code, After(code, k));
  }

  // ----- where a block starts

  /** The opcode of the block's state stands where the block starts. */
  predicate OpcodeStands(code: seq<byte>, b: Block) {
    b.kind.Entry? ==>
      match RuleOf(b.kind.state).condition
      case Byte(v) => 0 <= b.start < |code| && code[b.start] == v
      case ExtByte(v) => 0 <= b.start < |code| - 1 && code[b.start] == 0x5B && code[b.start + 1] == v
      case _ => true
  }

  predicate OpcodesStand(code: seq<byte>, blocks: seq<Block>) {
    forall i :: 0 <= i < |blocks| ==> OpcodeStands(code, blocks[i])
  }

  lemma {:induction false} CreateStands(code: seq<byte>, c: Config, s: State)
    requires WellFormed(code, c) && OpcodesStand(code, c.blocks) && Guard(code, c, RuleOf(s).condition) == None
    ensures OpcodesStand(code, Create(c, s, RuleOf(s).creation).blocks)
  {
    var d := Create(c, s, RuleOf(s).creation);
    forall i | 0 <= i < |d.blocks| ensures OpcodeStands(code, d.blocks[i]) {
      if i < |c.blocks| { assert OpcodeStands(code, c.blocks[i]); }
    }
  }

  lemma {:induction false} SameLinksStand(code: seq<byte>, a: seq<Block>, b: seq<Block>)
    requires OpcodesStand(code, a) && SameLinks(a, b)
    ensures OpcodesStand(code, b)
  {
    forall i | 0 <= i < |b| ensures OpcodeStands(code, b[i]) { assert OpcodeStands(code, a[i]); }
  }

  lemma {:induction false} ActStands(code: seq<byte>, c: Config, action: Action)
    requires WellFormed(code, c) && Act(code, c, action).Next?
    ensures Act(code, c, action).cfg.blocks == c.blocks
  {
  }

  lemma {:induction false} TurnStands(code: seq<byte>, c: Config, s: State)
    requires WellFormed(code, c) && OpcodesStand(code, c.blocks) && Step(code, c, s).Next?
    ensures OpcodesStand(code, Step(code, c, s).cfg.blocks)
  {
    var created := Create(c, s, RuleOf(s).creation);
    TurnParts(code, c, s);
    CreateStands(code, c, s);
    var taken := Consume(code, created, RuleOf(s).consumer);
    ApplyOk(created, RuleOf(s).consumer, taken);
    var applied := Apply(created, RuleOf(s).consumer, taken);
    SameLinksStand(code, created.blocks, applied.blocks);
    ActStands(code, applied, RuleOf(s).action);
  }

  predicate AllStand(code: seq<byte>, m: Moment) {
    m.Running? ==> OpcodesStand(code, m.cfg.blocks)
  }

  lemma {:induction false} RoundStands(code: seq<byte>, m: Moment)
    requires Sane(code, m) && AllStand(code, m)
    ensures AllStand(code, Turn(code, m))
  {
    if m.Running? && m.stack != [] && Step(code, m.cfg, m.stack[0]).Next? {
      TurnStands(code, m.cfg, m.stack[0]);
    }
  }

  /** After any number of turns on any bytes, every block made for an opcode starts at that opcode. */
  lemma {:induction false} BlocksStartAtOpcodes(code: seq<byte>, k: nat)
    requires code != []
    ensures AllStand(code, After(code, k))
  {
    if k > 0 {
      BlocksStartAtOpcodes(code, k - 1);
      RoundStands(code, After(code, k - 1));
    }
  }
}
