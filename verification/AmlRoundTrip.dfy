/** The parser reads what is written: the code of terms is accepted, and its tree is theirs.
    Source: source/kernel/firmware/acpi/aml/main.c:247-445, aml_definition.c:200-656 */
module AmlRoundTrip {
  import opened AmlGrammar
  import opened AmlMachine
  import opened AmlDescent
  import opened AmlPackage
  import opened AmlTerms
  import opened AmlLayout
  import opened AmlReading
  import opened AmlNames
  import opened AmlParts
  import opened AmlApart
  import P = AmlParser

  // ----- joining parts

  lemma {:induction false} JoinOne(
      p: Descent, a: seq<State>, c: Config, e: int, d: Config, f: int, h: nat, ts: seq<Tree>,
      s: State, x: Config, g: int, k: nat, us: seq<Tree>)
    requires Follows(p) && Reads(p, a, c, e, d, f, h, ts) && Reads(p, [s], d, f, x, g, k, us) && a != []
    ensures Reads(p, a + [s], c, e, x, g, Max(h + 1, k), ts + us)
  {
    ReadsThen(p, a, c, e, d, f, h, ts, [s], x, g, k, us);
  }

  lemma {:induction false} StuckThen(
      p: Descent, a: seq<State>, c: Config, e: int, d: Config, f: int, h: nat, ts: seq<Tree>, s: State)
    requires Follows(p) && Reads(p, a, c, e, d, f, h, ts) && a != [] && p.runs([s], d) == Stuck
    ensures p.runs(a + [s], c) == Stuck
  {
    RunsThen(p, a, [s], c);
  }

  lemma {:induction false} StuckFirst(p: Descent, a: seq<State>, c: Config, s: State)
    requires Follows(p) && WellFormed(p.code, c) && a != [] && p.runs(a, c) == Stuck
    ensures p.runs(a + [s], c) == Stuck
  {
    RunsThen(p, a, [s], c);
  }

  // ----- regions

  function ValueBytes(offset: Arg, length: Arg): seq<byte>
    requires ProperArg(offset) && ProperArg(length)
  {
    EncodeArg(offset) + EncodeArg(length)
  }

  predicate KnownSpace(space: byte) {
    space <= 0x0A || space >= 0x80
  }

  lemma {:induction false} NameThenByte(p: Descent, m: Config, e: int, name: Name, b: byte, rest: seq<byte>)
      returns (y: Config)
    requires Follows(p) && Ready(p.code, m, e) && ProperName(name)
    requires Holds(p.code, m.ptr, EncodeName(name) + ([b] + rest), e)
    ensures Reads(p, [NameString], m, e, y, e, NameHeight(name), [NameTree(name)])
    ensures y.ptr == m.ptr + |EncodeName(name)| && Holds(p.code, y.ptr, [b], e) && Holds(p.code, y.ptr + 1, rest, e)
  {
    HoldsParts(p.code, m.ptr, EncodeName(name), [b] + rest, e);
    y := NameRead(p, m, e, name);
    HoldsParts(p.code, y.ptr, [b], rest, e);
  }

  lemma {:induction false} ThenSpace(p: Descent, m: Config, e: int, y: Config, h: nat, t: Tree, space: byte)
      returns (d: Config)
    requires Follows(p) && Reads(p, [NameString], m, e, y, e, h, [t]) && Holds(p.code, y.ptr, [space], e)
    ensures if KnownSpace(space)
            then && Reads(p, [NameString, RegionSpace], m, e, d, e, Max(1 + h, 1),
                          [t] + [Leaf(RegionSpace, [space], 0)])
                 && d.ptr == y.ptr + 1
            else p.runs([NameString, RegionSpace], m) == Stuck
  {
    assert [NameString] + [RegionSpace] == [NameString, RegionSpace];
    if KnownSpace(space) {
      d := SpaceRead(p, y, e, space);
      JoinOne(p, [NameString], m, e, y, e, h, [t], RegionSpace, d, e, 1, [Leaf(RegionSpace, [space], 0)]);
    } else {
      d := y;
      SpaceRefused(p, y, e, space);
      StuckThen(p, [NameString], m, e, y, e, h, [t], RegionSpace);
    }
  }

  lemma {:induction false} PlaceRead(p: Descent, m: Config, e: int, name: Name, space: byte, rest: seq<byte>)
      returns (d: Config)
    requires Follows(p) && Ready(p.code, m, e) && ProperName(name)
    requires Holds(p.code, m.ptr, EncodeName(name) + ([space] + rest), e)
    ensures if KnownSpace(space)
            then && Reads(p, [NameString, RegionSpace], m, e, d, e, Max(1 + NameHeight(name), 1),
                          [NameTree(name)] + [Leaf(RegionSpace, [space], 0)])
                 && d.ptr == m.ptr + |EncodeName(name)| + 1 && Holds(p.code, d.ptr, rest, e)
            else p.runs([NameString, RegionSpace], m) == Stuck
  {
    var y := NameThenByte(p, m, e, name, space, rest);
    d := ThenSpace(p, m, e, y, NameHeight(name), NameTree(name), space);
  }

  /** The offset comes before the length. */
  lemma {:induction false} ValuesRead(p: Descent, m: Config, e: int, offset: Arg, length: Arg) returns (d: Config)
    requires Follows(p) && Ready(p.code, m, e) && ProperArg(offset) && ProperArg(length)
    requires Holds(p.code, m.ptr, ValueBytes(offset, length), e)
    ensures Reads(p, [RegionOffset, RegionLen], m, e, d, e, Max(2 + ArgHeight(offset), 1 + ArgHeight(length)),
                  [Holder(RegionOffset, offset)] + [Holder(RegionLen, length)])
    ensures d.ptr == m.ptr + |ValueBytes(offset, length)|
  {
    HoldsParts(p.code, m.ptr, EncodeArg(offset), EncodeArg(length), e);
    var y := HolderRead(p, m, e, RegionOffset, offset);
    d := HolderRead(p, y, e, RegionLen, length);
    JoinOne(p, [RegionOffset], m, e, y, e, 1 + ArgHeight(offset), [Holder(RegionOffset, offset)],
            RegionLen, d, e, 1 + ArgHeight(length), [Holder(RegionLen, length)]);
    assert [RegionOffset] + [RegionLen] == [RegionOffset, RegionLen];
  }

  lemma {:induction false} PlaceThenValues(
      p: Descent, m: Config, e: int, y: Config, h: nat, ts: seq<Tree>, d: Config, k: nat, us: seq<Tree>,
      both: seq<Tree>, n: nat)
    requires Follows(p) && Reads(p, [NameString, RegionSpace], m, e, y, e, h, ts)
    requires Reads(p, [RegionOffset, RegionLen], y, e, d, e, k, us) && both == ts + us && n == Max(h + 2, k)
    ensures Reads(p, [NameString, RegionSpace, RegionOffset, RegionLen], m, e, d, e, n, both)
  {
    ReadsThen(p, [NameString, RegionSpace], m, e, y, e, h, ts, [RegionOffset, RegionLen], d, e, k, us);
    assert [NameString, RegionSpace] + [RegionOffset, RegionLen] == [NameString, RegionSpace, RegionOffset, RegionLen];
  }

  /** The height inside a region, and its parts. */
  function RegionHeight(name: Name, offset: Arg, length: Arg): nat {
    Max(3 + NameHeight(name), Max(2 + ArgHeight(offset), 1 + ArgHeight(length)))
  }

  function RegionTrees(name: Name, space: byte, offset: Arg, length: Arg): seq<Tree> {
    [NameTree(name), Leaf(RegionSpace, [space], 0), Holder(RegionOffset, offset), Holder(RegionLen, length)]
  }

  function RegionBytes(name: Name, space: byte, offset: Arg, length: Arg): seq<byte>
    requires ProperName(name) && ProperArg(offset) && ProperArg(length)
  {
    EncodeName(name) + ([space] + ValueBytes(offset, length))
  }

  lemma {:induction false} PlaceStuck(p: Descent, m: Config)
    requires Follows(p) && WellFormed(p.code, m) && p.runs([NameString, RegionSpace], m) == Stuck
    ensures p.runs([NameString, RegionSpace, RegionOffset, RegionLen], m) == Stuck
  {
    RunsThen(p, [NameString, RegionSpace], [RegionOffset, RegionLen], m);
    assert [NameString, RegionSpace] + [RegionOffset, RegionLen] == [NameString, RegionSpace, RegionOffset, RegionLen];
  }

  lemma {:induction false} RegionPartsRead(
      p: Descent, m: Config, e: int, name: Name, space: byte, offset: Arg, length: Arg) returns (d: Config)
    requires Follows(p) && Ready(p.code, m, e) && ProperName(name) && ProperArg(offset) && ProperArg(length)
    requires Holds(p.code, m.ptr, RegionBytes(name, space, offset, length), e)
    ensures if KnownSpace(space)
            then && Reads(p, [NameString, RegionSpace, RegionOffset, RegionLen], m, e, d, e,
                          RegionHeight(name, offset, length), RegionTrees(name, space, offset, length))
                 && d.ptr == m.ptr + |RegionBytes(name, space, offset, length)|
            else p.runs([NameString, RegionSpace, RegionOffset, RegionLen], m) == Stuck
  {
    var y := PlaceRead(p, m, e, name, space, ValueBytes(offset, length));
    if KnownSpace(space) {
      d := ValuesRead(p, y, e, offset, length);
      RegionPartsJoin(p, m, e, y, d, name, space, offset, length);
    } else {
      d := y;
      PlaceStuck(p, m);
    }
  }

  lemma {:induction false} RegionPartsJoin(
      p: Descent, m: Config, e: int, y: Config, d: Config, name: Name, space: byte, offset: Arg, length: Arg)
    requires Follows(p)
    requires Reads(p, [NameString, RegionSpace], m, e, y, e, Max(1 + NameHeight(name), 1),
                   [NameTree(name)] + [Leaf(RegionSpace, [space], 0)])
    requires Reads(p, [RegionOffset, RegionLen], y, e, d, e, Max(2 + ArgHeight(offset), 1 + ArgHeight(length)),
                   [Holder(RegionOffset, offset)] + [Holder(RegionLen, length)])
    ensures Reads(p, [NameString, RegionSpace, RegionOffset, RegionLen], m, e, d, e, RegionHeight(name, offset, length),
                  RegionTrees(name, space, offset, length))
  {
    var ts := [NameTree(name)] + [Leaf(RegionSpace, [space], 0)];
    var us := [Holder(RegionOffset, offset)] + [Holder(RegionLen, length)];
    assert RegionTrees(name, space, offset, length) == ts + us;
    PlaceThenValues(p, m, e, y, Max(1 + NameHeight(name), 1), ts, d, Max(2 + ArgHeight(offset), 1 + ArgHeight(length)),
                    us, RegionTrees(name, space, offset, length), RegionHeight(name, offset, length));
  }

  lemma {:induction false} RegionIs(name: Name, space: byte, offset: Arg, length: Arg)
    requires Proper(Region(name, space, offset, length))
    ensures var t := Region(name, space, offset, length);
            && Encode(t) == [0x5B, 0x80] + RegionBytes(name, space, offset, length)
            && TreeOf(t) == Node(DefOpRegion, [], 0, RegionTrees(name, space, offset, length))
            && Height(t) == RegionHeight(name, offset, length) + 1 && Accepted(t) == KnownSpace(space)
  {
  }

  lemma {:induction false} RegionOpens(p: Descent, c: Config, e: int, bytes: seq<byte>) returns (m: Config)
    requires Follows(p) && Ready(p.code, c, e) && Holds(p.code, c.ptr, [0x5B, 0x80] + bytes, e)
    ensures Opens(p, c, DefOpRegion, m, [NameString, RegionSpace, RegionOffset, RegionLen])
    ensures Ready(p.code, m, e) && m.ptr == c.ptr + 2 && Holds(p.code, m.ptr, bytes, e)
    ensures m.dir.Right? && m.actual == |c.blocks| && Grows(c, m.(dir := Stay), [Leaf(DefOpRegion, [], 0)])
  {
    var inner := [NameString, RegionSpace, RegionOffset, RegionLen];
    assert inner + [MoveLeft] == [NameString, RegionSpace, RegionOffset, RegionLen, MoveLeft];
    m := ExtByteOpens(p, c, e, DefOpRegion, 0x80, bytes, inner);
  }

  lemma {:induction false} RegionRead(
      p: Descent, c: Config, e: int, name: Name, space: byte, offset: Arg, length: Arg) returns (x: Config)
    requires Follows(p) && Ready(p.code, c, e) && ProperName(name) && ProperArg(offset) && ProperArg(length)
    requires Holds(p.code, c.ptr, [0x5B, 0x80] + RegionBytes(name, space, offset, length), e)
    ensures if KnownSpace(space)
            then && Reads(p, [DefOpRegion], c, e, x, e, RegionHeight(name, offset, length) + 1,
                          [Node(DefOpRegion, [], 0, RegionTrees(name, space, offset, length))])
                 && x.ptr == c.ptr + 2 + |RegionBytes(name, space, offset, length)|
            else p.runs([DefOpRegion], c) == Stuck
  {
    var m := RegionOpens(p, c, e, RegionBytes(name, space, offset, length));
    var d := RegionPartsRead(p, m, e, name, space, offset, length);
    x := OpenedRead(p, c, e, DefOpRegion, [NameString, RegionSpace, RegionOffset, RegionLen], m, d, e,
                    RegionHeight(name, offset, length), RegionTrees(name, space, offset, length), KnownSpace(space));
  }

  // ----- fields

  function HeadTrees(name: Name, content: seq<byte>): seq<Tree> {
    [LengthTree(PackageLength(|content|)), NameTree(name)]
  }

  function FieldLeaf(flags: byte): Tree {
    Leaf(FieldFlags, [flags % 0x10, flags / 0x10 % 2, flags / 0x20], 0)
  }

  lemma {:induction false} FieldPartsJoin(
      p: Descent, m: Config, e: int, y: Config, f: int, ts: seq<Tree>, z: Config, u: Tree, d: Config, k: nat,
      us: seq<Tree>)
    requires Follows(p) && Reads(p, [PkgLength, NameString], m, e, y, f, 2, ts) && k <= 4
    requires Reads(p, [FieldFlags], y, f, z, f, 1, [u]) && Reads(p, [FieldList], z, f, d, f, k, us)
    ensures Reads(p, [PkgLength, NameString, FieldFlags, FieldList], m, e, d, f, 4, ts + [u] + us)
  {
    JoinOne(p, [PkgLength, NameString], m, e, y, f, 2, ts, FieldFlags, z, f, 1, [u]);
    assert [PkgLength, NameString] + [FieldFlags] == [PkgLength, NameString, FieldFlags];
    JoinOne(p, [PkgLength, NameString, FieldFlags], m, e, z, f, 3, ts + [u], FieldList, d, f, k, us);
    assert [PkgLength, NameString, FieldFlags] + [FieldList] == [PkgLength, NameString, FieldFlags, FieldList];
  }

  function FieldContent(name: Name, flags: byte, elements: seq<Element>): seq<byte>
    requires ProperName(name) && ProperElements(elements)
  {
    EncodeName(name) + ([flags] + EncodeElements(elements))
  }

  function FieldTrees(name: Name, flags: byte, elements: seq<Element>): seq<Tree>
    requires ProperName(name) && ProperElements(elements)
  {
    HeadTrees(name, FieldContent(name, flags, elements)) + [FieldLeaf(flags)] + ElementTrees(elements)
  }

  lemma {:induction false} FlagsStuck(p: Descent, m: Config, e: int, y: Config, f: int, ts: seq<Tree>)
    requires Follows(p) && Reads(p, [PkgLength, NameString], m, e, y, f, 2, ts) && p.runs([FieldFlags], y) == Stuck
    ensures p.runs([PkgLength, NameString, FieldFlags, FieldList], m) == Stuck
  {
    StuckThen(p, [PkgLength, NameString], m, e, y, f, 2, ts, FieldFlags);
    assert [PkgLength, NameString] + [FieldFlags] == [PkgLength, NameString, FieldFlags];
    StuckFirst(p, [PkgLength, NameString, FieldFlags], m, FieldList);
    assert [PkgLength, NameString, FieldFlags] + [FieldList] == [PkgLength, NameString, FieldFlags, FieldList];
  }

  lemma {:induction false} FieldPartsRead(
      p: Descent, m: Config, e: int, name: Name, flags: byte, elements: seq<Element>) returns (d: Config, f: int)
    requires Follows(p) && Ready(p.code, m, e) && m.dir.Right? && ProperName(name) && ProperElements(elements)
    requires PackageLength(|FieldContent(name, flags, elements)|) < PKG_LIMIT
    requires Holds(p.code, m.ptr, Package(FieldContent(name, flags, elements)), e)
    ensures if flags < 0x80
            then && Reads(p, [PkgLength, NameString, FieldFlags, FieldList], m, e, d, f, 4,
                          FieldTrees(name, flags, elements))
                 && d.ptr == m.ptr + |Package(FieldContent(name, flags, elements))|
            else p.runs([PkgLength, NameString, FieldFlags, FieldList], m) == Stuck
  {
    var y;
    y, f := NamedPackageRead(p, m, e, name, [flags] + EncodeElements(elements));
    HoldsParts(p.code, y.ptr, [flags], EncodeElements(elements), f);
    var head := HeadTrees(name, FieldContent(name, flags, elements));
    if flags < 0x80 {
      var z := FieldFlagsRead(p, y, f, flags);
      d := ElementsRead(p, z, f, elements);
      FieldPartsJoin(p, m, e, y, f, head, z, FieldLeaf(flags), d, ElementsHeight(elements), ElementTrees(elements));
    } else {
      d := y;
      FieldFlagsRefused(p, y, f, flags);
      FlagsStuck(p, m, e, y, f, head);
    }
  }

  lemma {:induction false} FieldRead(
      p: Descent, c: Config, e: int, name: Name, flags: byte, elements: seq<Element>) returns (x: Config)
    requires Follows(p) && Ready(p.code, c, e) && ProperName(name) && ProperElements(elements)
    requires PackageLength(|FieldContent(name, flags, elements)|) < PKG_LIMIT
    requires Holds(p.code, c.ptr, [0x5B, 0x81] + Package(FieldContent(name, flags, elements)), e)
    ensures if flags < 0x80
            then && Reads(p, [DefField], c, e, x, e, 5, [Node(DefField, [], 0, FieldTrees(name, flags, elements))])
                 && x.ptr == c.ptr + 2 + |Package(FieldContent(name, flags, elements))|
            else p.runs([DefField], c) == Stuck
  {
    var inner := [PkgLength, NameString, FieldFlags, FieldList];
    assert inner + [MoveLeft] == [PkgLength, NameString, FieldFlags, FieldList, MoveLeft];
    var m := ExtByteOpens(p, c, e, DefField, 0x81, Package(FieldContent(name, flags, elements)), inner);
    var d, f := FieldPartsRead(p, m, e, name, flags, elements);
    x := OpenedRead(p, c, e, DefField, inner, m, d, f, 4, FieldTrees(name, flags, elements), flags < 0x80);
  }

  lemma {:induction false} FieldIs(name: Name, flags: byte, elements: seq<Element>)
    requires Proper(Field(name, flags, elements))
    ensures var t := Field(name, flags, elements);
            && ProperName(name) && ProperElements(elements)
            && PackageLength(|FieldContent(name, flags, elements)|) < PKG_LIMIT
            && Encode(t) == [0x5B, 0x81] + Package(FieldContent(name, flags, elements))
            && TreeOf(t) == Node(DefField, [], 0, FieldTrees(name, flags, elements))
            && Height(t) == 5 && Accepted(t) == (flags < 0x80)
  {
  }

  // ----- scopes, devices and methods

  function ScopeContent(name: Name, body: seq<Term>): seq<byte>
    requires ProperName(name) && AllProper(body)
  {
    EncodeName(name) + EncodeAll(body)
  }

  function MethodContent(name: Name, flags: byte, body: seq<Term>): seq<byte>
    requires ProperName(name) && AllProper(body)
  {
    EncodeName(name) + ([flags] + EncodeAll(body))
  }

  function MethodLeaf(flags: byte): Tree {
    Leaf(MethodFlags, [flags % 4, flags / 4 % 2, flags / 8], 0)
  }

  lemma {:induction false} BodyIsSome(body: seq<Term>)
    requires AllProper(body)
    ensures EncodeAll(body) == [] <==> body == []
  {
  }

  function ScopeTrees(name: Name, body: seq<Term>): seq<Tree>
    requires ProperName(name) && AllProper(body)
  {
    HeadTrees(name, ScopeContent(name, body)) + TreesOf(body)
  }

  /** The name is not the end of the package, nor is any in the body. */
  predicate ScopeAccepted(name: Name, body: seq<Term>) {
    (body == [] ==> name.segs == []) && AllAccepted(body)
  }

  /** What comes of terms up to the end of their section. */
  predicate TermsOutcome(p: Descent, c: Config, e: int, d: Config, ts: seq<Term>)
    requires AllProper(ts)
  {
    if AllAccepted(ts) then Reads(p, [TermList], c, e, d, e, AllHeight(ts), TreesOf(ts)) && d.ptr == e + 1
    else p.runs([TermList], c) == Stuck
  }

  /** The package of a scope or a device. */
  lemma {:induction false} ScopePartsRead(p: Descent, m: Config, e: int, name: Name, body: seq<Term>)
      returns (d: Config, f: int)
    requires Follows(p) && Ready(p.code, m, e) && m.dir.Right? && ProperName(name) && AllProper(body)
    requires PackageLength(|ScopeContent(name, body)|) < PKG_LIMIT
    requires Holds(p.code, m.ptr, Package(ScopeContent(name, body)), e)
    ensures if ScopeAccepted(name, body)
            then && Reads(p, [PkgLength, NameString, TermList], m, e, d, f, Max(3, AllHeight(body)),
                          ScopeTrees(name, body))
                 && d.ptr == m.ptr + |Package(ScopeContent(name, body))|
            else p.runs([PkgLength, NameString, TermList], m) == Stuck
    decreases body, 2
  {
    var y;
    y, f := NamedPackageRead(p, m, e, name, EncodeAll(body));
    BodyIsSome(body);
    assert [PkgLength, NameString] + [TermList] == [PkgLength, NameString, TermList];
    if body == [] && name.segs != [] {
      StuckFirst(p, [PkgLength, NameString], m, TermList);
      d := y;
    } else {
      d := TermsRead(p, y, f, body);
      ScopePartsJoin(p, m, e, y, f, HeadTrees(name, ScopeContent(name, body)), d, body);
    }
  }

  lemma {:induction false} ScopePartsJoin(
      p: Descent, m: Config, e: int, y: Config, f: int, head: seq<Tree>, d: Config, body: seq<Term>)
    requires Follows(p) && Reads(p, [PkgLength, NameString], m, e, y, f, 2, head) && AllProper(body)
    requires TermsOutcome(p, y, f, d, body)
    ensures if AllAccepted(body)
            then Reads(p, [PkgLength, NameString, TermList], m, e, d, f, Max(3, AllHeight(body)), head + TreesOf(body))
            else p.runs([PkgLength, NameString, TermList], m) == Stuck
  {
    assert [PkgLength, NameString] + [TermList] == [PkgLength, NameString, TermList];
    if AllAccepted(body) {
      JoinOne(p, [PkgLength, NameString], m, e, y, f, 2, head, TermList, d, f, AllHeight(body), TreesOf(body));
    } else {
      StuckThen(p, [PkgLength, NameString], m, e, y, f, 2, head, TermList);
    }
  }

  lemma {:induction false} MethodHeadRead(p: Descent, m: Config, e: int, name: Name, flags: byte, rest: seq<byte>)
      returns (d: Config, f: int)
    requires Follows(p) && Ready(p.code, m, e) && m.dir.Right? && ProperName(name)
    requires PackageLength(|EncodeName(name) + ([flags] + rest)|) < PKG_LIMIT
    requires Holds(p.code, m.ptr, Package(EncodeName(name) + ([flags] + rest)), e)
    ensures Reads(p, [PkgLength, NameString, MethodFlags], m, e, d, f, 3,
                  HeadTrees(name, EncodeName(name) + ([flags] + rest)) + [MethodLeaf(flags)])
    ensures Holds(p.code, d.ptr, rest, f) && d.ptr + |rest| == f + 1
    ensures f + 1 == m.ptr + |Package(EncodeName(name) + ([flags] + rest))|
  {
    var y;
    y, f := NamedPackageRead(p, m, e, name, [flags] + rest);
    HoldsParts(p.code, y.ptr, [flags], rest, f);
    d := MethodFlagsRead(p, y, f, flags);
    JoinOne(p, [PkgLength, NameString], m, e, y, f, 2, HeadTrees(name, EncodeName(name) + ([flags] + rest)),
            MethodFlags, d, f, 1, [MethodLeaf(flags)]);
    assert [PkgLength, NameString] + [MethodFlags] == [PkgLength, NameString, MethodFlags];
  }

  function MethodTrees(name: Name, flags: byte, body: seq<Term>): seq<Tree>
    requires ProperName(name) && AllProper(body)
  {
    HeadTrees(name, MethodContent(name, flags, body)) + [MethodLeaf(flags)] + TreesOf(body)
  }

  lemma {:induction false} MethodPartsRead(p: Descent, m: Config, e: int, name: Name, flags: byte, body: seq<Term>)
      returns (d: Config, f: int)
    requires Follows(p) && Ready(p.code, m, e) && m.dir.Right? && ProperName(name) && AllProper(body)
    requires PackageLength(|MethodContent(name, flags, body)|) < PKG_LIMIT
    requires Holds(p.code, m.ptr, Package(MethodContent(name, flags, body)), e)
    ensures if AllAccepted(body)
            then && Reads(p, [PkgLength, NameString, MethodFlags, TermList], m, e, d, f, Max(4, AllHeight(body)),
                          MethodTrees(name, flags, body))
                 && d.ptr == m.ptr + |Package(MethodContent(name, flags, body))|
            else p.runs([PkgLength, NameString, MethodFlags, TermList], m) == Stuck
    decreases body, 2
  {
    var y;
    y, f := MethodHeadRead(p, m, e, name, flags, EncodeAll(body));
    d := TermsRead(p, y, f, body);
    var head := HeadTrees(name, MethodContent(name, flags, body)) + [MethodLeaf(flags)];
    MethodPartsJoin(p, m, e, y, f, head, d, body);
  }

  lemma {:induction false} MethodPartsJoin(
      p: Descent, m: Config, e: int, y: Config, f: int, head: seq<Tree>, d: Config, body: seq<Term>)
    requires Follows(p) && Reads(p, [PkgLength, NameString, MethodFlags], m, e, y, f, 3, head) && AllProper(body)
    requires TermsOutcome(p, y, f, d, body)
    ensures if AllAccepted(body)
            then Reads(p, [PkgLength, NameString, MethodFlags, TermList], m, e, d, f, Max(4, AllHeight(body)),
                       head + TreesOf(body))
            else p.runs([PkgLength, NameString, MethodFlags, TermList], m) == Stuck
  {
    var states := [PkgLength, NameString, MethodFlags];
    assert states + [TermList] == [PkgLength, NameString, MethodFlags, TermList];
    if AllAccepted(body) {
      JoinOne(p, states, m, e, y, f, 3, head, TermList, d, f, AllHeight(body), TreesOf(body));
    } else {
      StuckThen(p, states, m, e, y, f, 3, head, TermList);
    }
  }

  /** A section that is opened by `s` and gets through or not. */
  lemma {:induction false} OpenedRead(
      p: Descent, c: Config, e: int, s: State, inner: seq<State>, m: Config, d: Config, f: int, h: nat, ts: seq<Tree>,
      good: bool) returns (x: Config)
    requires Follows(p) && Ready(p.code, c, e) && Opens(p, c, s, m, inner) && inner != [] && Ready(p.code, m, e)
    requires m.dir.Right? && m.actual == |c.blocks| && Grows(c, m.(dir := Stay), [Leaf(s, [], 0)])
    requires if good then Reads(p, inner, m, e, d, f, h, ts) else p.runs(inner, m) == Stuck
    ensures if good then Reads(p, [s], c, e, x, e, h + 1, [Node(s, [], 0, ts)]) && x.ptr == d.ptr
            else p.runs([s], c) == Stuck
  {
    if good {
      x := SectionRead(p, c, e, s, inner, m, d, f, h, ts);
    } else {
      SectionStuck(p, c, s, inner, m);
      x := c;
    }
  }

  /** A scope or a device behind its opcode. */
  lemma {:induction false} ScopeRead(
      p: Descent, c: Config, e: int, s: State, m: Config, name: Name, body: seq<Term>) returns (x: Config)
    requires Follows(p) && Ready(p.code, c, e) && Opens(p, c, s, m, [PkgLength, NameString, TermList])
    requires m.dir.Right? && m.actual == |c.blocks| && Grows(c, m.(dir := Stay), [Leaf(s, [], 0)])
    requires Ready(p.code, m, e) && ProperName(name) && AllProper(body)
    requires PackageLength(|ScopeContent(name, body)|) < PKG_LIMIT
    requires Holds(p.code, m.ptr, Package(ScopeContent(name, body)), e)
    ensures if ScopeAccepted(name, body)
            then && Reads(p, [s], c, e, x, e, Max(3, AllHeight(body)) + 1, [Node(s, [], 0, ScopeTrees(name, body))])
                 && x.ptr == m.ptr + |Package(ScopeContent(name, body))|
            else p.runs([s], c) == Stuck
    decreases body, 3
  {
    var d, f := ScopePartsRead(p, m, e, name, body);
    x := OpenedRead(p, c, e, s, [PkgLength, NameString, TermList], m, d, f, Max(3, AllHeight(body)),
                    ScopeTrees(name, body), ScopeAccepted(name, body));
  }

  lemma {:induction false} MethodRead(
      p: Descent, c: Config, e: int, m: Config, name: Name, flags: byte, body: seq<Term>) returns (x: Config)
    requires Follows(p) && Ready(p.code, c, e)
    requires Opens(p, c, DefMethod, m, [PkgLength, NameString, MethodFlags, TermList])
    requires m.dir.Right? && m.actual == |c.blocks| && Grows(c, m.(dir := Stay), [Leaf(DefMethod, [], 0)])
    requires Ready(p.code, m, e) && ProperName(name) && AllProper(body)
    requires PackageLength(|MethodContent(name, flags, body)|) < PKG_LIMIT
    requires Holds(p.code, m.ptr, Package(MethodContent(name, flags, body)), e)
    ensures if AllAccepted(body)
            then && Reads(p, [DefMethod], c, e, x, e, Max(4, AllHeight(body)) + 1,
                          [Node(DefMethod, [], 0, MethodTrees(name, flags, body))])
                 && x.ptr == m.ptr + |Package(MethodContent(name, flags, body))|
            else p.runs([DefMethod], c) == Stuck
    decreases body, 3
  {
    var d, f := MethodPartsRead(p, m, e, name, flags, body);
    x := OpenedRead(p, c, e, DefMethod, [PkgLength, NameString, MethodFlags, TermList], m, d, f,
                    Max(4, AllHeight(body)), MethodTrees(name, flags, body), AllAccepted(body));
  }

  // ----- terms

  function TermState(t: Term): State {
    match t
    case Scope(_, _) => DefScope
    case Device(_, _) => DefDevice
    case Method(_, _, _) => DefMethod
    case Region(_, _, _, _) => DefOpRegion
    case Field(_, _, _) => DefField
    case ToHex(_, _) => DefToHexString
  }

  /** What comes of a term where its state is on top. */
  predicate TermOutcome(p: Descent, c: Config, e: int, s: State, d: Config, t: Term)
    requires Proper(t)
  {
    if Accepted(t) then Reads(p, [s], c, e, d, e, Height(t), [TreeOf(t)]) && d.ptr == c.ptr + |Encode(t)|
    else p.runs([s], c) == Stuck
  }

  lemma {:induction false} ScopeIs(t: Term)
    requires Proper(t) && (t.Scope? || t.Device?)
    ensures var content := ScopeContent(t.name, t.body);
            && ProperName(t.name) && AllProper(t.body) && PackageLength(|content|) < PKG_LIMIT
            && Encode(t) == (if t.Scope? then [0x10] else [0x5B, 0x82]) + Package(content)
            && TreeOf(t) == Node(TermState(t), [], 0, ScopeTrees(t.name, t.body))
            && Height(t) == Max(3, AllHeight(t.body)) + 1 && Accepted(t) == ScopeAccepted(t.name, t.body)
  {
  }

  lemma {:induction false} MethodIs(t: Term)
    requires Proper(t) && t.Method?
    ensures var content := MethodContent(t.name, t.flags, t.body);
            && ProperName(t.name) && AllProper(t.body) && PackageLength(|content|) < PKG_LIMIT
            && Encode(t) == [0x14] + Package(content)
            && TreeOf(t) == Node(DefMethod, [], 0, MethodTrees(t.name, t.flags, t.body))
            && Height(t) == Max(4, AllHeight(t.body)) + 1 && Accepted(t) == AllAccepted(t.body)
  {
    var content := MethodContent(t.name, t.flags, t.body);
    var trees := HeadTrees(t.name, content) + [MethodLeaf(t.flags)];
    assert trees == [LengthTree(PackageLength(|content|)), NameTree(t.name), MethodLeaf(t.flags)];
  }

  lemma {:induction false} ScopeTerm(p: Descent, c: Config, e: int, t: Term) returns (x: Config)
    requires Follows(p) && Ready(p.code, c, e) && t.Scope? && Proper(t) && Holds(p.code, c.ptr, Encode(t), e)
    ensures TermOutcome(p, c, e, DefScope, x, t)
    decreases t, 1
  {
    ScopeIs(t);
    var inner := [PkgLength, NameString, TermList];
    assert inner + [MoveLeft] == [PkgLength, NameString, TermList, MoveLeft];
    var m := ByteOpens(p, c, e, DefScope, 0x10, Package(ScopeContent(t.name, t.body)), inner);
    x := ScopeRead(p, c, e, DefScope, m, t.name, t.body);
  }

  lemma {:induction false} DeviceTerm(p: Descent, c: Config, e: int, t: Term) returns (x: Config)
    requires Follows(p) && Ready(p.code, c, e) && t.Device? && Proper(t) && Holds(p.code, c.ptr, Encode(t), e)
    ensures TermOutcome(p, c, e, DefDevice, x, t)
    decreases t, 1
  {
    ScopeIs(t);
    var inner := [PkgLength, NameString, TermList];
    assert inner + [MoveLeft] == [PkgLength, NameString, TermList, MoveLeft];
    var m := ExtByteOpens(p, c, e, DefDevice, 0x82, Package(ScopeContent(t.name, t.body)), inner);
    x := ScopeRead(p, c, e, DefDevice, m, t.name, t.body);
  }

  lemma {:induction false} MethodTerm(p: Descent, c: Config, e: int, t: Term) returns (x: Config)
    requires Follows(p) && Ready(p.code, c, e) && t.Method? && Proper(t) && Holds(p.code, c.ptr, Encode(t), e)
    ensures TermOutcome(p, c, e, DefMethod, x, t)
    decreases t, 1
  {
    MethodIs(t);
    var inner := [PkgLength, NameString, MethodFlags, TermList];
    assert inner + [MoveLeft] == [PkgLength, NameString, MethodFlags, TermList, MoveLeft];
    var m := ByteOpens(p, c, e, DefMethod, 0x14, Package(MethodContent(t.name, t.flags, t.body)), inner);
    x := MethodRead(p, c, e, m, t.name, t.flags, t.body);
  }

  lemma {:induction false} RegionTerm(p: Descent, c: Config, e: int, t: Term) returns (x: Config)
    requires Follows(p) && Ready(p.code, c, e) && t.Region? && Proper(t) && Holds(p.code, c.ptr, Encode(t), e)
    ensures TermOutcome(p, c, e, DefOpRegion, x, t)
  {
    RegionIs(t.name, t.space, t.offset, t.length);
    x := RegionRead(p, c, e, t.name, t.space, t.offset, t.length);
  }

  lemma {:induction false} FieldTerm(p: Descent, c: Config, e: int, t: Term) returns (x: Config)
    requires Follows(p) && Ready(p.code, c, e) && t.Field? && Proper(t) && Holds(p.code, c.ptr, Encode(t), e)
    ensures TermOutcome(p, c, e, DefField, x, t)
  {
    FieldIs(t.name, t.flags, t.elements);
    x := FieldRead(p, c, e, t.name, t.flags, t.elements);
  }

  lemma {:induction false} HexTerm(p: Descent, c: Config, e: int, t: Term) returns (x: Config)
    requires Follows(p) && Ready(p.code, c, e) && t.ToHex? && Proper(t) && Holds(p.code, c.ptr, Encode(t), e)
    ensures TermOutcome(p, c, e, DefToHexString, x, t)
  {
    x := HexRead(p, c, e, HexArg(t.operand, t.target));
  }

  lemma {:induction false} TermRead(p: Descent, c: Config, e: int, t: Term) returns (x: Config)
    requires Follows(p) && Ready(p.code, c, e) && Proper(t) && Holds(p.code, c.ptr, Encode(t), e)
    ensures TermOutcome(p, c, e, TermState(t), x, t)
    decreases t, 2
  {
    match t {
      case Scope(_, _) => x := ScopeTerm(p, c, e, t);
      case Device(_, _) => x := DeviceTerm(p, c, e, t);
      case Method(_, _, _) => x := MethodTerm(p, c, e, t);
      case Region(_, _, _, _) => x := RegionTerm(p, c, e, t);
      case Field(_, _, _) => x := FieldTerm(p, c, e, t);
      case ToHex(_, _) => x := HexTerm(p, c, e, t);
    }
  }

  predicate IsExt(t: Term) {
    t.Device? || t.Region? || t.Field?
  }

  /** The first byte of a term, and the one behind it if that is the extended prefix. */
  function OpcodeOf(t: Term): byte {
    match t
    case Scope(_, _) => 0x10
    case Device(_, _) => 0x82
    case Method(_, _, _) => 0x14
    case Region(_, _, _, _) => 0x80
    case Field(_, _, _) => 0x81
    case ToHex(_, _) => 0x98
  }

  predicate OpcodeAt(code: seq<byte>, at: nat, e: int, t: Term) {
    && at <= e < |code|
    && (if IsExt(t) then at < e && code[at] == 0x5B && code[at + 1] == OpcodeOf(t) else code[at] == OpcodeOf(t))
  }

  lemma {:induction false} OpcodeStands(p: Descent, c: Config, e: int, t: Term)
    requires Ready(p.code, c, e) && Proper(t) && Holds(p.code, c.ptr, Encode(t), e)
    ensures OpcodeAt(p.code, c.ptr, e, t)
  {
    HoldsByte(p.code, c.ptr, Encode(t), e, 0);
    if IsExt(t) { HoldsByte(p.code, c.ptr, Encode(t), e, 1); }
  }

  predicate IsObject(s: State) {
    s.DefScope? || s.DefOpRegion? || s.DefMethod? || s.DefField? || s.DefDevice? || s.DefToHexString?
  }

  /** The opcode tells a term's state from the others. */
  lemma {:induction false} OpcodeTells(code: seq<byte>, c: Config, e: int, t: Term, s: State)
    requires WellFormed(code, c) && Bound(c) == e && OpcodeAt(code, c.ptr, e, t) && IsObject(s)
    ensures Tells(code, c, s, TermState(t))
  {
  }

  lemma {:induction false} TermTurn(p: Descent, c: Config, e: int, t: Term)
    requires Ready(p.code, c, e) && OpcodeAt(p.code, c.ptr, e, t)
    ensures Step(p.code, c, TermObj) == Next(c, [TermState(t)])
  {
    var choices := [DefScope, DefOpRegion, DefMethod, DefField, DefDevice, DefToHexString];
    forall k | 0 <= k < |choices| ensures Tells(p.code, c, choices[k], TermState(t)) {
      OpcodeTells(p.code, c, e, t, choices[k]);
    }
    ChoiceTurn(p.code, c, TermObj, choices, TermState(t));
  }

  lemma {:induction false} ObjectRead(p: Descent, c: Config, e: int, t: Term) returns (x: Config)
    requires Follows(p) && Ready(p.code, c, e) && Proper(t) && Holds(p.code, c.ptr, Encode(t), e)
    ensures TermOutcome(p, c, e, TermObj, x, t)
    decreases t, 3
  {
    x := TermRead(p, c, e, t);
    OpcodeStands(p, c, e, t);
    TermTurn(p, c, e, t);
    RunsOne(p, TermObj, c);
  }

  lemma {:induction false} NoTermsRead(p: Descent, c: Config, e: int)
    requires Follows(p) && Ready(p.code, c, e) && c.ptr == e + 1
    ensures Reads(p, [TermList], c, e, c, e, 1, [])
  {
    ListTurn(p.code, c, TermList, TermListEntry, false);
    RunsOne(p, TermList, c);
    RunsNothing(p, c);
    GrowsNothing(c, c.ptr);
  }

  lemma {:induction false} ListRuns(p: Descent, c: Config, e: int)
    requires Follows(p) && Ready(p.code, c, e) && c.ptr <= e
    ensures p.runs([TermList], c) == Higher(Higher(p.runs([TermObj] + [TermList], c), 1), 1)
  {
    ListTurn(p.code, c, TermList, TermListEntry, true);
    StatesTurn(p.code, c, TermListEntry, [TermObj, TermList]);
    RunsOne(p, TermList, c);
    RunsOne(p, TermListEntry, c);
    assert [TermObj] + [TermList] == [TermObj, TermList];
  }

  lemma {:induction false} TermsSplit(code: seq<byte>, at: nat, e: int, ts: seq<Term>)
    requires AllProper(ts) && ts != [] && Holds(code, at, EncodeAll(ts), e) && at + |EncodeAll(ts)| == e + 1
    ensures Holds(code, at, Encode(ts[0]), e) && Holds(code, at + |Encode(ts[0])|, EncodeAll(ts[1..]), e)
    ensures at + |Encode(ts[0])| + |EncodeAll(ts[1..])| == e + 1
  {
    HoldsParts(code, at, Encode(ts[0]), EncodeAll(ts[1..]), e);
  }

  /** A term and then more of them. */
  lemma {:induction false} MoreTerms(p: Descent, c: Config, e: int, t: Term, m: Config, ts: seq<Term>, d: Config)
    requires Follows(p) && Ready(p.code, c, e) && c.ptr <= e && Proper(t) && AllProper(ts)
    requires Accepted(t) && Reads(p, [TermObj], c, e, m, e, Height(t), [TreeOf(t)]) && TermsOutcome(p, m, e, d, ts)
    ensures if AllAccepted(ts)
            then Reads(p, [TermList], c, e, d, e, Max(1 + Height(t), AllHeight(ts)), [TreeOf(t)] + TreesOf(ts))
            else p.runs([TermList], c) == Stuck
  {
    ListRuns(p, c, e);
    if AllAccepted(ts) {
      JoinOne(p, [TermObj], c, e, m, e, Height(t), [TreeOf(t)], TermList, d, e, AllHeight(ts), TreesOf(ts));
    } else {
      StuckThen(p, [TermObj], c, e, m, e, Height(t), [TreeOf(t)], TermList);
    }
  }

  lemma {:induction false} NoMoreTerms(p: Descent, c: Config, e: int)
    requires Follows(p) && Ready(p.code, c, e) && c.ptr <= e && p.runs([TermObj], c) == Stuck
    ensures p.runs([TermList], c) == Stuck
  {
    ListRuns(p, c, e);
    StuckFirst(p, [TermObj], c, TermList);
  }

  lemma {:induction false} TermsJoin(p: Descent, c: Config, e: int, ts: seq<Term>, m: Config, d: Config)
    requires Follows(p) && Ready(p.code, c, e) && c.ptr <= e && AllProper(ts) && ts != []
    requires TermOutcome(p, c, e, TermObj, m, ts[0])
    requires Accepted(ts[0]) ==> TermsOutcome(p, m, e, d, ts[1..])
    ensures TermsOutcome(p, c, e, d, ts)
  {
    if Accepted(ts[0]) {
      MoreTerms(p, c, e, ts[0], m, ts[1..], d);
    } else {
      NoMoreTerms(p, c, e);
    }
  }

  lemma {:induction false} AfterFirst(p: Descent, c: Config, e: int, ts: seq<Term>, m: Config)
    requires AllProper(ts) && ts != [] && Accepted(ts[0]) && TermOutcome(p, c, e, TermObj, m, ts[0])
    requires Holds(p.code, c.ptr, EncodeAll(ts), e) && c.ptr + |EncodeAll(ts)| == e + 1
    ensures Ready(p.code, m, e) && AllProper(ts[1..])
    ensures Holds(p.code, m.ptr, EncodeAll(ts[1..]), e) && m.ptr + |EncodeAll(ts[1..])| == e + 1
  {
    TermsSplit(p.code, c.ptr, e, ts);
  }

  /** Terms up to the end of their section. */
  lemma {:induction false} TermsRead(p: Descent, c: Config, e: int, ts: seq<Term>) returns (d: Config)
    requires Follows(p) && Ready(p.code, c, e) && AllProper(ts)
    requires Holds(p.code, c.ptr, EncodeAll(ts), e) && c.ptr + |EncodeAll(ts)| == e + 1
    ensures TermsOutcome(p, c, e, d, ts)
    decreases ts, 1
  {
    d := c;
    if ts == [] {
      NoTermsRead(p, c, e);
    } else {
      TermsSplit(p.code, c.ptr, e, ts);
      OpcodeStands(p, c, e, ts[0]);
      var m := ObjectRead(p, c, e, ts[0]);
      if Accepted(ts[0]) {
        AfterFirst(p, c, e, ts, m);
        d := TermsRead(p, m, e, ts[1..]);
      }
      TermsJoin(p, c, e, ts, m, d);
    }
  }

  // ----- whole codes

  lemma {:induction false} StartsReady(code: seq<byte>)
    requires code != []
    ensures Ready(code, Start(code), |code| - 1)
  {
    var c := Start(code);
    assert BlockOk(c.blocks, 0) && BlockOk(c.blocks, 1);
  }

  /** The tree below the table block is the one of the terms. */
  predicate HasTree(blocks: seq<Block>, ts: seq<Term>)
    requires AllProper(ts)
  {
    && |blocks| > 1 && Onward(blocks)
    && (assert OnwardAt(blocks, 1); TreesFrom(blocks, blocks[1].right) == TreesOf(ts))
  }

  /** The parser comes to the end of the code of terms if and only if no name is the end of its package, no region is in
      an undefined space and no field has a reserved flag. Then it has needed as many stack entries as the terms are
      deep, and the tree is theirs. */
  lemma {:induction false} RoundTrip(ts: seq<Term>)
    requires AllProper(ts) && ts != []
    ensures var code := EncodeAll(ts);
            && code != [] && WellFormed(code, Start(code))
            && var r := ParseAll(code, [TermList], Start(code));
            && (r.Done? <==> AllAccepted(ts))
            && (r.Done? ==> r.cfg.ptr == |code| && HasTree(r.cfg.blocks, ts))
            && (r.Done? ==> Peak(code, [TermList], Start(code)) == AllHeight(ts))
  {
    var code := EncodeAll(ts);
    BodyIsSome(ts);
    StartsReady(code);
    var p := DescentOf(code);
    DescentFollows(code);
    assert code[0..0 + |code|] == code;
    var d := TermsRead(p, Start(code), |code| - 1, ts);
    if AllAccepted(ts) {
      OkIsOnward(d.blocks);
      assert OnwardAt(d.blocks, 1);
      ChainIsRead(d.blocks, 2, 1, TreesOf(ts));
    }
  }

  /** So the code of the device "DEV0" with nothing in it is refused. */
  lemma {:induction false} EmptyDeviceIsRefused(ts: seq<Term>)
    requires ts == [Device(Name(false, 0, [[0x44, 0x45, 0x56, 0x30]]), [])]
    ensures var code := [0x5B, 0x82, 0x05, 0x44, 0x45, 0x56, 0x30];
            && AllProper(ts) && EncodeAll(ts) == code && WellFormed(code, Start(code))
            && ParseAll(code, [TermList], Start(code)).Error?
  {
    DeviceBytes(ts[0], ts[0].name.segs[0]);
    assert ts[1..] == [] && EncodeAll([]) == [];
    RoundTrip(ts);
  }

  lemma {:induction false} DeviceBytes(t: Term, seg: seq<byte>)
    requires t == Device(Name(false, 0, [seg]), []) && ProperSeg(seg)
    ensures Proper(t) && Encode(t) == [0x5B, 0x82, 0x05] + seg && !Accepted(t)
  {
    var name := Name(false, 0, [seg]);
    assert ProperName(name);
    assert Carets(0) == [] && EncodeName(name) == [] + seg == seg && EncodeAll([]) == [] && seg + [] == seg;
    assert Package(seg) == [0x05] + seg;
  }

  /** The parser with the stack it really has accepts the code of such terms exactly if they are not too deep; and then
      the tree is theirs. */
  lemma {:induction false} BoundedRoundTrip(ts: seq<Term>)
    requires AllProper(ts) && ts != []
    ensures var code := EncodeAll(ts);
            && code != [] && WellFormed(code, Start(code))
            && var r := BoundedRun(code, [TermList], Start(code));
            && (r.Done? <==> AllAccepted(ts) && AllHeight(ts) <= STACK_LIMIT)
            && (r.Done? ==> HasTree(r.cfg.blocks, ts))
  {
    var code := EncodeAll(ts);
    RoundTrip(ts);
    OverflowIffTooDeep(code, [TermList], Start(code));
    BoundedRunRefinesDescent(code, [TermList], Start(code));
  }

  /** So what `Parser.ProcessCode` hands to its caller for the code of terms, is their tree or nothing. */
  lemma {:induction false} HandedTree(ts: seq<Term>, tree: Option<seq<Block>>, freed: seq<nat>)
    requires AllProper(ts) && ts != [] && EncodeAll(ts) != []
    requires WellFormed(EncodeAll(ts), Start(EncodeAll(ts)))
    requires P.Disposed(BoundedRun(EncodeAll(ts), [TermList], Start(EncodeAll(ts))), tree, freed)
    ensures tree.Some? <==> AllAccepted(ts) && AllHeight(ts) <= STACK_LIMIT
    ensures tree.Some? ==> HasTree(tree.value, ts)
  {
    BoundedRoundTrip(ts);
    var r := BoundedRun(EncodeAll(ts), [TermList], Start(EncodeAll(ts)));
    if r.Done? {
      var blocks := r.cfg.blocks;
      assert OnwardAt(blocks, 1);
      LeftIsNotRead(blocks, P.Detached(blocks), 1, -1, blocks[1].right);
    }
  }

  /** And whoever has the tree has the terms: no others are handed the same. */
  lemma {:induction false} TreeHasOneCode(ts: seq<Term>, us: seq<Term>, blocks: seq<Block>)
    requires AllProper(ts) && AllProper(us) && HasTree(blocks, ts) && HasTree(blocks, us)
    ensures ts == us
  {
    TermsApart(ts, us);
  }
}
