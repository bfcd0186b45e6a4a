/** The terms the AML parser knows, their bytes as sections 20.2.2 to 20.2.5 of the ACPI Specification lay them out, and
    the tree that stands for them. Nothing here looks at the parser's rule table.
    Source: source/kernel/firmware/acpi/aml/aml_definition.c:200-656 */
module AmlTerms {
  import opened AmlGrammar
  import opened AmlMachine
  import opened AmlPackage

  /** From the root, or `ups` levels up, through the segments. */
  datatype Name = Name(root: bool, ups: nat, segs: seq<seq<byte>>)

  /** What stands where the grammar wants a value. */
  datatype Arg = Word(value: nat) | One | HexArg(operand: Arg, target: Arg)

  /** A named field of `bits` bits. */
  datatype Element = Element(seg: seq<byte>, bits: nat)

  datatype Term =
    | Scope(name: Name, body: seq<Term>)
    | Device(name: Name, body: seq<Term>)
    | Method(name: Name, flags: byte, body: seq<Term>)
    | Region(name: Name, space: byte, offset: Arg, length: Arg)
    | Field(name: Name, flags: byte, elements: seq<Element>)
    | ToHex(operand: Arg, target: Arg)

  // ----- the bytes

  function Segments(segs: seq<seq<byte>>): seq<byte> {
    if segs == [] then [] else segs[0] + Segments(segs[1..])
  }

  function Carets(n: nat): seq<byte> {
    if n == 0 then [] else [0x5E] + Carets(n - 1)
  }

  /** Section 20.2.2: no segment, one, two behind a prefix of their own, or more behind a prefix and their number. */
  function EncodePath(segs: seq<seq<byte>>): seq<byte>
    requires |segs| < 0x100
  {
    if segs == [] then [0]
    else if |segs| == 1 then segs[0]
    else if |segs| == 2 then [0x2E] + (segs[0] + segs[1])
    else [0x2F] + ([|segs|] + Segments(segs))
  }

  function EncodeName(n: Name): seq<byte>
    requires |n.segs| < 0x100
  {
    (if n.root then [0x5C] else Carets(n.ups)) + EncodePath(n.segs)
  }

  /** What the package length says: the number of bytes from itself to the end of the package. */
  function PackageLength(content: nat): nat {
    if content + 1 < 0x40 then content + 1
    else if content + 2 < 0x1000 then content + 2
    else if content + 3 < 0x10_0000 then content + 3
    else content + 4
  }

  function Package(content: seq<byte>): seq<byte>
    requires PackageLength(|content|) < PKG_LIMIT
  {
    EncodeLength(PackageLength(|content|)) + content
  }

  /** A length is written in as many bytes as it counts of itself. */
  lemma PackageCountsItself(content: nat)
    requires PackageLength(content) < PKG_LIMIT
    ensures PackageLength(content) == |EncodeLength(PackageLength(content))| + content
  {
  }

  function EncodeArg(a: Arg): seq<byte>
    requires ProperArg(a)
  {
    match a
    case Word(value) => [0x0B, value % 0x100, value / 0x100]
    case One => [0x01]
    case HexArg(operand, target) => [0x98] + (EncodeArg(operand) + EncodeArg(target))
  }

  function EncodeElements(es: seq<Element>): seq<byte>
    requires ProperElements(es)
  {
    if es == [] then [] else
      assert ProperElement(es[0]);
      es[0].seg + (EncodeLength(es[0].bits) + EncodeElements(es[1..]))
  }

  function Encode(t: Term): seq<byte>
    requires Proper(t)
    decreases t, 1
  {
    match t
    case Scope(name, body) => [0x10] + Package(EncodeName(name) + EncodeAll(body))
    case Device(name, body) => [0x5B, 0x82] + Package(EncodeName(name) + EncodeAll(body))
    case Method(name, flags, body) => [0x14] + Package(EncodeName(name) + ([flags] + EncodeAll(body)))
    case Region(name, space, offset, length) =>
      [0x5B, 0x80] + (EncodeName(name) + ([space] + (EncodeArg(offset) + EncodeArg(length))))
    case Field(name, flags, elements) =>
      [0x5B, 0x81] + Package(EncodeName(name) + ([flags] + EncodeElements(elements)))
    case ToHex(operand, target) => [0x98] + (EncodeArg(operand) + EncodeArg(target))
  }

  function EncodeAll(ts: seq<Term>): seq<byte>
    requires AllProper(ts)
    decreases ts, 1
  {
    if ts == [] then [] else Encode(ts[0]) + EncodeAll(ts[1..])
  }

  // ----- what can be written

  /** Section 20.2.2: four characters, the first of them a letter or an underscore. */
  predicate ProperSeg(seg: seq<byte>) {
    |seg| == 4 && (0x41 <= seg[0] <= 0x5A || seg[0] == 0x5F)
  }

  predicate ProperName(n: Name) {
    && (n.root ==> n.ups == 0) && |n.segs| < 0x100
    && forall k :: 0 <= k < |n.segs| ==> ProperSeg(n.segs[k])
  }

  predicate ProperArg(a: Arg) {
    match a
    case Word(value) => value < 0x1_0000
    case One => true
    case HexArg(operand, target) => ProperArg(operand) && ProperArg(target)
  }

  predicate ProperElement(e: Element) {
    ProperSeg(e.seg) && 1 <= e.bits < PKG_LIMIT
  }

  predicate ProperElements(es: seq<Element>) {
    forall k :: 0 <= k < |es| ==> ProperElement(es[k])
  }

  /** Packages are short enough for their length to be written. */
  predicate Proper(t: Term)
    decreases t, 0
  {
    match t
    case Scope(name, body) =>
      ProperName(name) && AllProper(body) && PackageLength(|EncodeName(name) + EncodeAll(body)|) < PKG_LIMIT
    case Device(name, body) =>
      ProperName(name) && AllProper(body) && PackageLength(|EncodeName(name) + EncodeAll(body)|) < PKG_LIMIT
    case Method(name, flags, body) =>
      && ProperName(name) && AllProper(body)
      && PackageLength(|EncodeName(name) + ([flags] + EncodeAll(body))|) < PKG_LIMIT
    case Region(name, space, offset, length) =>
      ProperName(name) && ProperArg(offset) && ProperArg(length)
    case Field(name, flags, elements) =>
      && ProperName(name) && ProperElements(elements)
      && PackageLength(|EncodeName(name) + ([flags] + EncodeElements(elements))|) < PKG_LIMIT
    case ToHex(operand, target) => ProperArg(operand) && ProperArg(target)
  }

  predicate AllProper(ts: seq<Term>)
    decreases ts, 0
  {
    ts == [] || (Proper(ts[0]) && AllProper(ts[1..]))
  }

  // ----- the tree

  /** A block of the parser's tree: its kind, the characters or flag fields and the number in it, and what is below. */
  datatype Tree = Node(kind: State, text: seq<byte>, value: nat, children: seq<Tree>)

  function Leaf(kind: State, text: seq<byte>, value: nat): Tree {
    Node(kind, text, value, [])
  }

  function NameText(n: Name): seq<byte> {
    (if n.root then [0x5C] else Carets(n.ups)) + Segments(n.segs)
  }

  function NameTree(n: Name): Tree {
    Leaf(NameString, NameText(n), 0)
  }

  function LengthTree(length: nat): Tree {
    Leaf(PkgLength, [], length)
  }

  function Holder(kind: State, a: Arg): Tree {
    Node(kind, [], 0, [ArgTree(a)])
  }

  function ArgTree(a: Arg): Tree {
    match a
    case Word(value) => Leaf(WordConst, [], value)
    case One => Leaf(OneOp, [], 1)
    case HexArg(operand, target) =>
      Node(DefToHexString, [], 0, [Node(Operand, [], 0, [ArgTree(operand)]), Node(Target, [], 0, [ArgTree(target)])])
  }

  function ElementTree(e: Element): Tree {
    Node(NamedField, e.seg, 0, [LengthTree(e.bits)])
  }

  function ElementTrees(es: seq<Element>): seq<Tree> {
    if es == [] then [] else [ElementTree(es[0])] + ElementTrees(es[1..])
  }

  /** The tree of a term: its parts in order. The flags of a method appear as the parser splits them. */
  function TreeOf(t: Term): Tree
    requires Proper(t)
    decreases t
  {
    match t
    case Scope(name, body) =>
      var length := PackageLength(|EncodeName(name) + EncodeAll(body)|);
      Node(DefScope, [], 0, [LengthTree(length), NameTree(name)] + TreesOf(body))
    case Device(name, body) =>
      var length := PackageLength(|EncodeName(name) + EncodeAll(body)|);
      Node(DefDevice, [], 0, [LengthTree(length), NameTree(name)] + TreesOf(body))
    case Method(name, flags, body) =>
      var length := PackageLength(|EncodeName(name) + ([flags] + EncodeAll(body))|);
      var split := [flags % 4, flags / 4 % 2, flags / 8];
      Node(DefMethod, [], 0, [LengthTree(length), NameTree(name), Leaf(MethodFlags, split, 0)] + TreesOf(body))
    case Region(name, space, offset, length) =>
      Node(DefOpRegion, [], 0,
           [NameTree(name), Leaf(RegionSpace, [space], 0), Holder(RegionOffset, offset), Holder(RegionLen, length)])
    case Field(name, flags, elements) =>
      var length := PackageLength(|EncodeName(name) + ([flags] + EncodeElements(elements))|);
      var split := [flags % 0x10, flags / 0x10 % 2, flags / 0x20];
      Node(DefField, [], 0,
           [LengthTree(length), NameTree(name), Leaf(FieldFlags, split, 0)] + ElementTrees(elements))
    case ToHex(operand, target) => ArgTree(HexArg(operand, target))
  }

  function TreesOf(ts: seq<Term>): seq<Tree>
    requires AllProper(ts)
    decreases ts
  {
    if ts == [] then [] else [TreeOf(ts[0])] + TreesOf(ts[1..])
  }

  // ----- what the parser accepts of it

  /** A name that ends in a segment is followed by something in its package; region spaces are the defined ones or
      the vendors'; the highest bit of field flags is clear. */
  predicate Accepted(t: Term)
    decreases t
  {
    match t
    case Scope(name, body) => (body == [] ==> name.segs == []) && AllAccepted(body)
    case Device(name, body) => (body == [] ==> name.segs == []) && AllAccepted(body)
    case Method(_, _, body) => AllAccepted(body)
    case Region(_, space, _, _) => space <= 0x0A || space >= 0x80
    case Field(_, flags, _) => flags < 0x80
    case ToHex(_, _) => true
  }

  predicate AllAccepted(ts: seq<Term>)
    decreases ts
  {
    ts == [] || (Accepted(ts[0]) && AllAccepted(ts[1..]))
  }

  function Max(a: nat, b: nat): nat {
    if a > b then a else b
  }

  /** How many stack entries reading a name takes at most. */
  function NameHeight(n: Name): nat {
    if n.ups > 0 || |n.segs| == 2 then 2 else 1
  }

  /** How many stack entries reading a value takes at most. */
  function ArgHeight(a: Arg): (h: nat)
    ensures h >= 1
  {
    match a
    case HexArg(operand, target) => Max(3 + ArgHeight(operand), 2 + ArgHeight(target))
    case _ => 1
  }

  /** How many stack entries reading a term takes at most. */
  function Height(t: Term): (h: nat)
    ensures h >= 1
    decreases t
  {
    match t
    case Scope(_, body) => Max(4, 1 + AllHeight(body))
    case Device(_, body) => Max(4, 1 + AllHeight(body))
    case Method(_, _, body) => Max(5, 1 + AllHeight(body))
    case Region(name, _, offset, length) =>
      Max(4 + NameHeight(name), Max(3 + ArgHeight(offset), 2 + ArgHeight(length)))
    case Field(_, _, _) => 5
    case ToHex(operand, target) => ArgHeight(HexArg(operand, target))
  }

  function AllHeight(ts: seq<Term>): (h: nat)
    ensures h >= 1
    decreases ts
  {
    if ts == [] then 1 else Max(1 + Height(ts[0]), AllHeight(ts[1..]))
  }
}
