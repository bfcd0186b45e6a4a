/** How the parser reads what terms are made of: flags, values, package lengths and named fields.
    Source: source/kernel/firmware/acpi/aml/main.c:362-502, 583-675, aml_definition.c:337-656 */
module AmlParts {
  import opened AmlGrammar
  import opened AmlMachine
  import opened AmlPackage
  import opened AmlTerms
  import opened AmlLayout
  import opened AmlReading
  import opened AmlNames

  // ----- single blocks

  lemma {:induction false} LeafRead(p: Descent, c: Config, e: int, s: State, n: nat, text: seq<byte>, value: nat)
      returns (d: Config)
    requires Follows(p) && Ready(p.code, c, e) && c.ptr + n <= |p.code|
    requires RuleOf(s).creation == NewBlock(Stay) && RuleOf(s).action.Finish? && Fillable(RuleOf(s).consumer)
    requires Guard(p.code, c, RuleOf(s).condition) == None
    requires forall m :: m == Create(c, s, NewBlock(Stay)) && WellFormed(p.code, m) && Bound(m) == e ==>
               Consume(p.code, m, RuleOf(s).consumer) == Accept(n, text, value)
    ensures Reads(p, [s], c, e, d, e, 1, [Leaf(s, text, value)]) && d.ptr == c.ptr + n
  {
    var m := Creates(p.code, c, e, s, Stay);
    Fills(p.code, c, e, s, m, n, text, value);
    assert [] + text == text;
    d := Filled(m, n, text, value);
    assert d.(dir := Stay) == d;
    assert Step(p.code, c, s) == Next(d, []);
    RunsOne(p, s, c);
    RunsNothing(p, d);
  }

  lemma {:induction false} WordRead(p: Descent, c: Config, e: int, value: nat) returns (d: Config)
    requires Follows(p) && Ready(p.code, c, e) && value < 0x1_0000 && Holds(p.code, c.ptr, EncodeArg(Word(value)), e)
    ensures Reads(p, [WordConst], c, e, d, e, 1, [ArgTree(Word(value))]) && d.ptr == c.ptr + 3
  {
    HoldsByte(p.code, c.ptr, EncodeArg(Word(value)), e, 0);
    HoldsByte(p.code, c.ptr, EncodeArg(Word(value)), e, 1);
    HoldsByte(p.code, c.ptr, EncodeArg(Word(value)), e, 2);
    d := LeafRead(p, c, e, WordConst, 3, [], value);
  }

  lemma {:induction false} OneRead(p: Descent, c: Config, e: int) returns (d: Config)
    requires Follows(p) && Ready(p.code, c, e) && Holds(p.code, c.ptr, [0x01], e)
    ensures Reads(p, [OneOp], c, e, d, e, 1, [ArgTree(One)]) && d.ptr == c.ptr + 1
  {
    HoldsByte(p.code, c.ptr, [0x01], e, 0);
    d := LeafRead(p, c, e, OneOp, 1, [], 1);
  }

  lemma {:induction false} SpaceRead(p: Descent, c: Config, e: int, space: byte) returns (d: Config)
    requires Follows(p) && Ready(p.code, c, e) && Holds(p.code, c.ptr, [space], e) && (space <= 0x0A || space >= 0x80)
    ensures Reads(p, [RegionSpace], c, e, d, e, 1, [Leaf(RegionSpace, [space], 0)]) && d.ptr == c.ptr + 1
  {
    HoldsByte(p.code, c.ptr, [space], e, 0);
    d := LeafRead(p, c, e, RegionSpace, 1, [space], 0);
  }

  lemma {:induction false} SpaceRefused(p: Descent, c: Config, e: int, space: byte)
    requires Follows(p) && Ready(p.code, c, e) && Holds(p.code, c.ptr, [space], e) && 0x0A < space < 0x80
    ensures p.runs([RegionSpace], c) == Stuck
  {
    HoldsByte(p.code, c.ptr, [space], e, 0);
    var m := Creates(p.code, c, e, RegionSpace, Stay);
    RunsOne(p, RegionSpace, c);
  }

  lemma {:induction false} FieldFlagsRefused(p: Descent, c: Config, e: int, flags: byte)
    requires Follows(p) && Ready(p.code, c, e) && Holds(p.code, c.ptr, [flags], e) && flags >= 0x80
    ensures p.runs([FieldFlags], c) == Stuck
  {
    HoldsByte(p.code, c.ptr, [flags], e, 0);
    var m := Creates(p.code, c, e, FieldFlags, Stay);
    RunsOne(p, FieldFlags, c);
  }

  lemma {:induction false} FieldFlagsRead(p: Descent, c: Config, e: int, flags: byte) returns (d: Config)
    requires Follows(p) && Ready(p.code, c, e) && Holds(p.code, c.ptr, [flags], e) && flags < 0x80
    ensures Reads(p, [FieldFlags], c, e, d, e, 1,
                  [Leaf(FieldFlags, [flags % 0x10, flags / 0x10 % 2, flags / 0x20], 0)])
    ensures d.ptr == c.ptr + 1
  {
    HoldsByte(p.code, c.ptr, [flags], e, 0);
    d := LeafRead(p, c, e, FieldFlags, 1, [flags % 0x10, flags / 0x10 % 2, flags / 0x20], 0);
  }

  lemma {:induction false} MethodFlagsRead(p: Descent, c: Config, e: int, flags: byte) returns (d: Config)
    requires Follows(p) && Ready(p.code, c, e) && Holds(p.code, c.ptr, [flags], e)
    ensures Reads(p, [MethodFlags], c, e, d, e, 1, [Leaf(MethodFlags, [flags % 4, flags / 4 % 2, flags / 8], 0)])
    ensures d.ptr == c.ptr + 1
  {
    HoldsByte(p.code, c.ptr, [flags], e, 0);
    d := LeafRead(p, c, e, MethodFlags, 1, [flags % 4, flags / 4 % 2, flags / 8], 0);
  }

  // ----- sections

  /** A section is closed: what was read in it is below the block that opened it, and the end is the outer one. */
  lemma {:induction false} Closes(
      p: Descent, c: Config, e: int, s: State, text: seq<byte>, m: Config, d: Config, ts: seq<Tree>)
      returns (x: Config)
    requires Follows(p) && Ready(p.code, c, e) && Ready(p.code, m, e) && WellFormed(p.code, d)
    requires m.dir.Right? && m.actual == |c.blocks| && Grows(c, m.(dir := Stay), [Leaf(s, text, 0)]) && Grows(m, d, ts)
    ensures Ready(p.code, x, e) && p.runs([MoveLeft], d) == Through(x, 1) && x.ptr == d.ptr
    ensures Grows(c, x, [Node(s, text, 0, ts)])
  {
    x := d.(actual := |c.blocks|, dir := Stay);
    ClosesBlocks(c, e, s, text, m, d, x, ts);
    CloseTurn(p.code, d, x);
    RunsOne(p, MoveLeft, d);
    RunsNothing(p, x);
  }

  lemma {:induction false} CloseTurn(code: seq<byte>, d: Config, x: Config)
    requires WellFormed(code, d) && SectionOf(d) == x.actual > 0 && x == d.(actual := x.actual, dir := Stay)
    ensures Step(code, d, MoveLeft) == Next(x, [])
  {
  }

  lemma {:induction false} ClosesBlocks(
      c: Config, e: int, s: State, text: seq<byte>, m: Config, d: Config, x: Config, ts: seq<Tree>)
    requires Free(c) && Free(m) && EndsAt(c, e) && EndsAt(m, e) && m.dir.Right? && m.actual == |c.blocks|
    requires Grows(c, m.(dir := Stay), [Leaf(s, text, 0)]) && Grows(m, d, ts)
    requires x == d.(actual := |c.blocks|, dir := Stay)
    ensures Free(x) && EndsAt(x, e) && d.actual < |d.blocks| && SectionOf(d) == x.actual
    ensures Grows(c, x, [Node(s, text, 0, ts)])
  {
    var t := Node(s, text, 0, ts);
    GrowsSection(c, m, d, t);
    GrowsOne(c, m.(dir := Stay), s, text, 0);
    GrowsOn(c, x, [t]);
  }

  /** The turn of `s` leads to `m` in a new section, where `inner` comes before the closing state. */
  predicate Opens(p: Descent, c: Config, s: State, m: Config, inner: seq<State>) {
    p.runs([s], c) == Higher(p.runs(inner + [MoveLeft], m), 1)
  }

  lemma {:induction false} SectionRead(
      p: Descent, c: Config, e: int, s: State, inner: seq<State>, m: Config, d: Config, f: int, h: nat, ts: seq<Tree>)
      returns (x: Config)
    requires Follows(p) && Ready(p.code, c, e) && Opens(p, c, s, m, inner) && inner != []
    requires m.dir.Right? && m.actual == |c.blocks| && Grows(c, m.(dir := Stay), [Leaf(s, [], 0)])
    requires Reads(p, inner, m, e, d, f, h, ts)
    ensures Reads(p, [s], c, e, x, e, h + 1, [Node(s, [], 0, ts)]) && x.ptr == d.ptr
  {
    x := Closes(p, c, e, s, [], m, d, ts);
    RunsThen(p, inner, [MoveLeft], m);
  }

  lemma {:induction false} SectionStuck(p: Descent, c: Config, s: State, inner: seq<State>, m: Config)
    requires Follows(p) && WellFormed(p.code, m) && Opens(p, c, s, m, inner) && inner != []
    requires p.runs(inner, m) == Stuck
    ensures p.runs([s], c) == Stuck
  {
    RunsThen(p, inner, [MoveLeft], m);
  }

  /** Behind an opcode of one byte. */
  lemma {:induction false} ByteOpens(
      p: Descent, c: Config, e: int, s: State, v: byte, bytes: seq<byte>, inner: seq<State>) returns (m: Config)
    requires Follows(p) && Ready(p.code, c, e) && Holds(p.code, c.ptr, [v] + bytes, e)
    requires RuleOf(s) == Rule(Byte(v), NewBlock(Right), SkipOpcode, AddStates(inner + [MoveLeft]))
    ensures Opens(p, c, s, m, inner) && Ready(p.code, m, e) && m.ptr == c.ptr + 1 && Holds(p.code, m.ptr, bytes, e)
    ensures m.dir.Right? && m.actual == |c.blocks| && Grows(c, m.(dir := Stay), [Leaf(s, [], 0)])
  {
    HoldsParts(p.code, c.ptr, [v], bytes, e);
    HoldsByte(p.code, c.ptr, [v], e, 0);
    var n := Creates(p.code, c, e, s, Right);
    m := n.(ptr := c.ptr + 1);
    RunsOne(p, s, c);
  }

  lemma {:induction false} ExtByteTurn(
      code: seq<byte>, c: Config, e: int, s: State, v: byte, states: seq<State>, n: Config)
    requires WellFormed(code, c) && Bound(c) == e && c.ptr + 1 <= e < |code|
    requires code[c.ptr] == 0x5B && code[c.ptr + 1] == v
    requires RuleOf(s) == Rule(ExtByte(v), NewBlock(Right), SkipExtOpcode, AddStates(states))
    requires n == Create(c, s, NewBlock(Right)) && n.ptr == c.ptr && WellFormed(code, n)
    ensures Step(code, c, s) == Next(n.(ptr := c.ptr + 2), states)
  {
  }

  /** Behind an opcode of two bytes. */
  lemma {:induction false} ExtByteOpens(
      p: Descent, c: Config, e: int, s: State, v: byte, bytes: seq<byte>, inner: seq<State>) returns (m: Config)
    requires Follows(p) && Ready(p.code, c, e) && Holds(p.code, c.ptr, [0x5B, v] + bytes, e)
    requires RuleOf(s) == Rule(ExtByte(v), NewBlock(Right), SkipExtOpcode, AddStates(inner + [MoveLeft]))
    ensures Opens(p, c, s, m, inner) && Ready(p.code, m, e) && m.ptr == c.ptr + 2 && Holds(p.code, m.ptr, bytes, e)
    ensures m.dir.Right? && m.actual == |c.blocks| && Grows(c, m.(dir := Stay), [Leaf(s, [], 0)])
  {
    HoldsParts(p.code, c.ptr, [0x5B, v], bytes, e);
    HoldsByte(p.code, c.ptr, [0x5B, v], e, 0);
    HoldsByte(p.code, c.ptr, [0x5B, v], e, 1);
    var n := Creates(p.code, c, e, s, Right);
    ExtByteTurn(p.code, c, e, s, v, inner + [MoveLeft], n);
    m := n.(ptr := c.ptr + 2);
    RunsOne(p, s, c);
  }

  // ----- values

  predicate IsHolder(s: State) {
    s.RegionOffset? || s.RegionLen? || s.Operand? || s.Target?
  }

  lemma {:induction false} HolderOpens(p: Descent, c: Config, e: int, s: State) returns (m: Config)
    requires Follows(p) && Ready(p.code, c, e) && IsHolder(s)
    ensures Opens(p, c, s, m, [TermArg]) && Ready(p.code, m, e) && m.ptr == c.ptr
    ensures m.dir.Right? && m.actual == |c.blocks| && Grows(c, m.(dir := Stay), [Leaf(s, [], 0)])
  {
    m := Creates(p.code, c, e, s, Right);
    assert [TermArg] + [MoveLeft] == [TermArg, MoveLeft];
    RunsOne(p, s, c);
  }

  lemma {:induction false} HolderRead(p: Descent, c: Config, e: int, s: State, a: Arg) returns (x: Config)
    requires Follows(p) && Ready(p.code, c, e) && IsHolder(s) && ProperArg(a) && Holds(p.code, c.ptr, EncodeArg(a), e)
    ensures Reads(p, [s], c, e, x, e, 1 + ArgHeight(a), [Holder(s, a)]) && x.ptr == c.ptr + |EncodeArg(a)|
    decreases a, 3
  {
    var m := HolderOpens(p, c, e, s);
    var d := ArgRead(p, m, e, a);
    x := SectionRead(p, c, e, s, [TermArg], m, d, e, ArgHeight(a), [ArgTree(a)]);
  }

  function ArgState(a: Arg): State {
    match a
    case Word(_) => WordConst
    case One => OneOp
    case HexArg(_, _) => DefToHexString
  }

  lemma {:induction false} ArgTells(p: Descent, c: Config, e: int, a: Arg, x: State)
    requires Ready(p.code, c, e) && ProperArg(a) && Holds(p.code, c.ptr, EncodeArg(a), e)
    requires x.DefToHexString? || x.WordConst? || x.OneOp?
    ensures Tells(p.code, c, x, ArgState(a))
  {
    HoldsByte(p.code, c.ptr, EncodeArg(a), e, 0);
  }

  lemma {:induction false} ArgTurn(p: Descent, c: Config, e: int, a: Arg)
    requires Ready(p.code, c, e) && ProperArg(a) && Holds(p.code, c.ptr, EncodeArg(a), e)
    ensures Step(p.code, c, TermArg) == Next(c, [ArgState(a)])
  {
    var choices := [DefToHexString, WordConst, OneOp];
    forall k | 0 <= k < |choices| ensures Tells(p.code, c, choices[k], ArgState(a)) {
      ArgTells(p, c, e, a, choices[k]);
    }
    ChoiceTurn(p.code, c, TermArg, choices, ArgState(a));
  }

  lemma {:induction false} ArgRead(p: Descent, c: Config, e: int, a: Arg) returns (d: Config)
    requires Follows(p) && Ready(p.code, c, e) && ProperArg(a) && Holds(p.code, c.ptr, EncodeArg(a), e)
    ensures Reads(p, [TermArg], c, e, d, e, ArgHeight(a), [ArgTree(a)]) && d.ptr == c.ptr + |EncodeArg(a)|
    decreases a, 2
  {
    ArgTurn(p, c, e, a);
    RunsOne(p, TermArg, c);
    match a {
      case Word(value) => d := WordRead(p, c, e, value);
      case One => d := OneRead(p, c, e);
      case HexArg(_, _) => d := HexRead(p, c, e, a);
    }
  }

  lemma {:induction false} HexPartsRead(p: Descent, m: Config, e: int, a: Arg) returns (d: Config)
    requires Follows(p) && Ready(p.code, m, e) && a.HexArg? && ProperArg(a)
    requires Holds(p.code, m.ptr, EncodeArg(a.operand) + EncodeArg(a.target), e)
    ensures Reads(p, [Operand, Target], m, e, d, e, Max(2 + ArgHeight(a.operand), 1 + ArgHeight(a.target)),
                  [Holder(Operand, a.operand), Holder(Target, a.target)])
    ensures d.ptr == m.ptr + |EncodeArg(a.operand)| + |EncodeArg(a.target)|
    decreases a, 0
  {
    HoldsParts(p.code, m.ptr, EncodeArg(a.operand), EncodeArg(a.target), e);
    var y := HolderRead(p, m, e, Operand, a.operand);
    d := HolderRead(p, y, e, Target, a.target);
    HexPartsJoin(p, m, e, y, d, 1 + ArgHeight(a.operand), Holder(Operand, a.operand), 1 + ArgHeight(a.target),
                 Holder(Target, a.target));
  }

  lemma {:induction false} HexPartsJoin(
      p: Descent, m: Config, e: int, y: Config, d: Config, h: nat, t: Tree, k: nat, u: Tree)
    requires Follows(p) && Reads(p, [Operand], m, e, y, e, h, [t]) && Reads(p, [Target], y, e, d, e, k, [u])
    ensures Reads(p, [Operand, Target], m, e, d, e, Max(h + 1, k), [t, u])
  {
    ReadsThen(p, [Operand], m, e, y, e, h, [t], [Target], d, e, k, [u]);
    assert [Operand] + [Target] == [Operand, Target] && [t] + [u] == [t, u];
  }

  lemma {:induction false} HexRead(p: Descent, c: Config, e: int, a: Arg) returns (x: Config)
    requires Follows(p) && Ready(p.code, c, e) && a.HexArg? && ProperArg(a)
    requires Holds(p.code, c.ptr, [0x98] + (EncodeArg(a.operand) + EncodeArg(a.target)), e)
    ensures Reads(p, [DefToHexString], c, e, x, e, ArgHeight(a), [ArgTree(a)])
    ensures x.ptr == c.ptr + 1 + |EncodeArg(a.operand)| + |EncodeArg(a.target)|
    decreases a, 1
  {
    assert [Operand, Target] + [MoveLeft] == [Operand, Target, MoveLeft];
    var m := ByteOpens(p, c, e, DefToHexString, 0x98, EncodeArg(a.operand) + EncodeArg(a.target), [Operand, Target]);
    var d := HexPartsRead(p, m, e, a);
    var h := Max(2 + ArgHeight(a.operand), 1 + ArgHeight(a.target));
    x := SectionRead(p, c, e, DefToHexString, [Operand, Target], m, d, e, h,
                     [Holder(Operand, a.operand), Holder(Target, a.target)]);
  }

  // ----- packages

  /** A length is read, and the section ends where it says. */
  lemma {:induction false} LengthRead(p: Descent, c: Config, e: int, n: nat) returns (d: Config)
    requires Follows(p) && Ready(p.code, c, e) && c.dir.Right? && 1 <= n < PKG_LIMIT
    requires Holds(p.code, c.ptr, EncodeLength(n), e)
    ensures d.ptr == c.ptr + |EncodeLength(n)|
    ensures Grows(c, d, [LengthTree(n)]) && p.runs([PkgLength], c) == Through(d, 1) && WellFormed(p.code, d)
    ensures Free(d) && EndsAt(d, c.ptr + n - 1)
  {
    var m := Creates(p.code, c, e, PkgLength, Stay);
    LengthRoundTrip(p.code, m, n);
    var taken := Accept(|EncodeLength(n)|, [], n);
    d := Apply(m, ReadPkgLength, taken);
    ApplyOk(m, ReadPkgLength, taken);
    assert Step(p.code, c, PkgLength) == Next(d, []);
    RunsOne(p, PkgLength, c);
    RunsNothing(p, d);
    LengthBlocks(p, c, e, m, n);
  }

  lemma {:induction false} LastEnds(blocks: seq<Block>, k: nat, end: int)
    requires BlocksOk(blocks) && k < |blocks| && blocks[k].down == -1
    ensures SetEnds(blocks, k, end) == blocks[k := blocks[k].(end := end)]
  {
    var b := blocks[k := blocks[k].(end := end)];
    assert SameLinks(blocks, b);
    SameLinksOk(blocks, b);
    assert SetEnds(b, -1, end) == b;
  }

  /** Only the block that opened the section and the one of the length get the end. */
  lemma {:induction false} LengthBlocks(p: Descent, c: Config, e: int, m: Config, n: nat)
    requires Ready(p.code, c, e) && c.dir.Right? && m == Create(c, PkgLength, NewBlock(Stay)) && Ready(p.code, m, e)
    ensures var d := Apply(m, ReadPkgLength, Accept(|EncodeLength(n)|, [], n));
            Grows(c, d, [LengthTree(n)]) && Free(d) && EndsAt(d, c.ptr + n - 1)
    requires n < PKG_LIMIT
  {
    var d := Apply(m, ReadPkgLength, Accept(|EncodeLength(n)|, [], n));
    var k, end := |c.blocks|, c.ptr + n - 1;
    assert Parent(m) == c.actual && m.blocks[c.actual].right == k;
    var b := m.blocks[c.actual := m.blocks[c.actual].(end := end)];
    assert SameLinks(m.blocks, b);
    SameLinksOk(m.blocks, b);
    LastEnds(b, k, end);
    assert [] + [] == m.blocks[k].text;
    GrowsOne(c, d, PkgLength, [], n);
  }

  lemma PackageHasLength(code: seq<byte>, at: nat, content: seq<byte>, e: int)
    requires PackageLength(|content|) < PKG_LIMIT && Holds(code, at, Package(content), e)
    ensures var n := PackageLength(|content|);
            Holds(code, at, EncodeLength(n), e) && Holds(code, at + |EncodeLength(n)|, content, at + n - 1)
            && at + |EncodeLength(n)| + |content| == at + n == at + |Package(content)| && n >= 1
  {
    PackageCountsItself(|content|);
    HoldsParts(code, at, EncodeLength(PackageLength(|content|)), content, e);
  }

  /** The length of a package is read, and the section ends with the package. */
  lemma {:induction false} PackageRead(p: Descent, c: Config, e: int, content: seq<byte>) returns (m: Config, f: int)
    requires Follows(p) && Ready(p.code, c, e) && c.dir.Right? && PackageLength(|content|) < PKG_LIMIT
    requires Holds(p.code, c.ptr, Package(content), e)
    ensures Reads(p, [PkgLength], c, e, m, f, 1, [LengthTree(PackageLength(|content|))])
    ensures Holds(p.code, m.ptr, content, f) && m.ptr + |content| == f + 1 == c.ptr + |Package(content)|
  {
    var n := PackageLength(|content|);
    PackageHasLength(p.code, c.ptr, content, e);
    m := LengthRead(p, c, e, n);
    f := c.ptr + n - 1;
  }

  /** A package of a name and more: its length and its name are read; but the name is refused if it ends in a segment
      and nothing follows. */
  lemma {:induction false} NamedPackageRead(p: Descent, c: Config, e: int, name: Name, rest: seq<byte>)
      returns (d: Config, f: int)
    requires Follows(p) && Ready(p.code, c, e) && c.dir.Right? && ProperName(name)
    requires PackageLength(|EncodeName(name) + rest|) < PKG_LIMIT
    requires Holds(p.code, c.ptr, Package(EncodeName(name) + rest), e)
    ensures name.segs == [] || rest != [] ==>
              && Reads(p, [PkgLength, NameString], c, e, d, f, 2,
                       [LengthTree(PackageLength(|EncodeName(name) + rest|)), NameTree(name)])
              && Holds(p.code, d.ptr, rest, f) && d.ptr + |rest| == f + 1
              && f + 1 == c.ptr + |Package(EncodeName(name) + rest)|
    ensures name.segs != [] && rest == [] ==> p.runs([PkgLength, NameString], c) == Stuck
  {
    var m;
    m, f := PackageRead(p, c, e, EncodeName(name) + rest);
    HoldsParts(p.code, m.ptr, EncodeName(name), rest, f);
    d := NameRead(p, m, f, name);
    var t := LengthTree(PackageLength(|EncodeName(name) + rest|));
    if name.segs == [] || rest != [] {
      LengthThenName(p, c, e, m, f, t, d, NameHeight(name), NameTree(name));
    } else {
      RunsThen(p, [PkgLength], [NameString], c);
      assert [PkgLength] + [NameString] == [PkgLength, NameString];
    }
  }

  lemma {:induction false} LengthThenName(
      p: Descent, c: Config, e: int, m: Config, f: int, t: Tree, d: Config, h: nat, u: Tree)
    requires Follows(p) && h <= 2
    requires Reads(p, [PkgLength], c, e, m, f, 1, [t]) && Reads(p, [NameString], m, f, d, f, h, [u])
    ensures Reads(p, [PkgLength, NameString], c, e, d, f, 2, [t, u])
  {
    ReadsThen(p, [PkgLength], c, e, m, f, 1, [t], [NameString], d, f, h, [u]);
    assert [PkgLength] + [NameString] == [PkgLength, NameString] && [t] + [u] == [t, u];
  }

  // ----- named fields

  function ElementBytes(el: Element): seq<byte>
    requires ProperElement(el)
  {
    el.seg + EncodeLength(el.bits)
  }

  /** A named field has its segment in its own block. */
  lemma {:induction false} ElementOpens(p: Descent, c: Config, e: int, el: Element) returns (n: Config, m: Config)
    requires Follows(p) && Ready(p.code, c, e) && ProperElement(el) && Holds(p.code, c.ptr, ElementBytes(el), e)
    ensures Opens(p, c, NamedField, n, [NameSeg, PkgLength]) && WellFormed(p.code, n)
    ensures p.runs([NameSeg], n) == Through(m, 1) && m.ptr == c.ptr + 4
    ensures Ready(p.code, m, e) && m.dir.Right? && m.actual == |c.blocks|
    ensures Grows(c, m.(dir := Stay), [Leaf(NamedField, el.seg, 0)])
    ensures Holds(p.code, m.ptr, EncodeLength(el.bits), e)
  {
    HoldsParts(p.code, c.ptr, el.seg, EncodeLength(el.bits), e);
    n := Creates(p.code, c, e, NamedField, Right);
    SegRead(p, n, e, el.seg);
    m := Filled(n, 4, el.seg, 0);
    Fills(p.code, c, e, NamedField, n, 4, el.seg, 0);
    assert [] + el.seg == el.seg;
    assert [NameSeg, PkgLength] + [MoveLeft] == [NameSeg, PkgLength, MoveLeft];
    RunsOne(p, NamedField, c);
  }

  lemma {:induction false} ElementRead(p: Descent, c: Config, e: int, el: Element) returns (x: Config)
    requires Follows(p) && Ready(p.code, c, e) && ProperElement(el) && Holds(p.code, c.ptr, ElementBytes(el), e)
    ensures Reads(p, [NamedField], c, e, x, e, 3, [ElementTree(el)]) && x.ptr == c.ptr + |ElementBytes(el)|
  {
    var n, m := ElementOpens(p, c, e, el);
    var d := LengthRead(p, m, e, el.bits);
    x := Closes(p, c, e, NamedField, el.seg, m, d, [LengthTree(el.bits)]);
    RunsThen(p, [NameSeg, PkgLength], [MoveLeft], n);
    RunsThen(p, [NameSeg], [PkgLength], n);
    assert [NameSeg] + [PkgLength] == [NameSeg, PkgLength];
  }

  function ElementsHeight(es: seq<Element>): nat {
    if es == [] then 1 else 4
  }

  lemma {:induction false} ElementTurns(p: Descent, c: Config, e: int, el: Element)
    requires Ready(p.code, c, e) && ProperElement(el) && Holds(p.code, c.ptr, ElementBytes(el), e)
    ensures Step(p.code, c, FieldList) == Next(c, [FieldListElement])
    ensures Step(p.code, c, FieldElement) == Next(c, [NamedField])
  {
    HoldsByte(p.code, c.ptr, ElementBytes(el), e, 0);
    ListTurn(p.code, c, FieldList, FieldListElement, true);
    assert Tells(p.code, c, NamedField, NamedField);
    ChoiceTurn(p.code, c, FieldElement, [NamedField], NamedField);
  }

  lemma {:induction false} NoElements(p: Descent, c: Config, e: int)
    requires Follows(p) && Ready(p.code, c, e) && c.ptr == e + 1
    ensures Reads(p, [FieldList], c, e, c, e, 1, [])
  {
    ListTurn(p.code, c, FieldList, FieldListElement, false);
    RunsOne(p, FieldList, c);
    RunsNothing(p, c);
    GrowsNothing(c, c.ptr);
  }

  /** One named field and then more of them. */
  lemma {:induction false} MoreElements(
      p: Descent, c: Config, e: int, el: Element, m: Config, d: Config, k: nat, t: Tree, ts: seq<Tree>)
    requires Follows(p) && Ready(p.code, c, e) && ProperElement(el) && Holds(p.code, c.ptr, ElementBytes(el), e)
    requires Reads(p, [NamedField], c, e, m, e, 3, [t]) && Reads(p, [FieldList], m, e, d, e, k, ts) && k <= 4
    ensures Reads(p, [FieldList], c, e, d, e, 4, [t] + ts)
  {
    ElementTurns(p, c, e, el);
    StatesTurn(p.code, c, FieldListElement, [FieldElement, FieldList]);
    RunsOne(p, FieldList, c);
    RunsOne(p, FieldListElement, c);
    RunsOne(p, FieldElement, c);
    ReadsThen(p, [FieldElement], c, e, m, e, 3, [t], [FieldList], d, e, k, ts);
    assert [FieldElement] + [FieldList] == [FieldElement, FieldList];
  }

  lemma ElementsSplit(es: seq<Element>)
    requires ProperElements(es) && es != []
    ensures ProperElement(es[0]) && ProperElements(es[1..])
    ensures EncodeElements(es) == ElementBytes(es[0]) + EncodeElements(es[1..])
  {
    assert ProperElement(es[0]);
    forall k | 0 <= k < |es[1..]| ensures ProperElement(es[1..][k]) { assert ProperElement(es[k + 1]); }
    assert es[0].seg + (EncodeLength(es[0].bits) + EncodeElements(es[1..]))
           == es[0].seg + EncodeLength(es[0].bits) + EncodeElements(es[1..]);
  }

  /** Named fields up to the end of their section. */
  lemma {:induction false} ElementsRead(p: Descent, c: Config, e: int, es: seq<Element>) returns (d: Config)
    requires Follows(p) && Ready(p.code, c, e) && ProperElements(es)
    requires Holds(p.code, c.ptr, EncodeElements(es), e) && c.ptr + |EncodeElements(es)| == e + 1
    ensures Reads(p, [FieldList], c, e, d, e, ElementsHeight(es), ElementTrees(es)) && d.ptr == e + 1
    decreases es
  {
    if es == [] {
      d := c;
      NoElements(p, c, e);
    } else {
      ElementsSplit(es);
      HoldsParts(p.code, c.ptr, ElementBytes(es[0]), EncodeElements(es[1..]), e);
      var m := ElementRead(p, c, e, es[0]);
      d := ElementsRead(p, m, e, es[1..]);
      MoreElements(p, c, e, es[0], m, d, ElementsHeight(es[1..]), ElementTree(es[0]), ElementTrees(es[1..]));
    }
  }
}
