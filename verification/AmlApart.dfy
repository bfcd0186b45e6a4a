/** Nothing of a term is lost in its tree: different terms have different trees.
    Source: source/kernel/firmware/acpi/aml/aml_definition.c:200-656 */
module AmlApart {
  import opened AmlGrammar
  import opened AmlMachine
  import opened AmlTerms

  predicate ProperSegs(segs: seq<seq<byte>>) {
    forall k :: 0 <= k < |segs| ==> ProperSeg(segs[k])
  }

  lemma {:induction false} SegsApart(a: seq<seq<byte>>, b: seq<seq<byte>>)
    requires ProperSegs(a) && ProperSegs(b) && Segments(a) == Segments(b)
    ensures a == b
  {
    if a != [] { assert ProperSeg(a[0]) && Segments(a)[..4] == a[0] && Segments(a)[4..] == Segments(a[1..]); }
    if b != [] { assert ProperSeg(b[0]) && Segments(b)[..4] == b[0] && Segments(b)[4..] == Segments(b[1..]); }
    if a != [] && b != [] {
      forall k | 0 <= k < |a[1..]| ensures ProperSeg(a[1..][k]) { assert ProperSeg(a[k + 1]); }
      forall k | 0 <= k < |b[1..]| ensures ProperSeg(b[1..][k]) { assert ProperSeg(b[k + 1]); }
      SegsApart(a[1..], b[1..]);
      assert a == [a[0]] + a[1..] && b == [b[0]] + b[1..];
    }
  }

  /** The first byte behind the prefix is a letter or an underscore, or there is none. */
  lemma {:induction false} SegsBegin(a: seq<seq<byte>>)
    requires ProperSegs(a) && a != []
    ensures Segments(a) != [] && IsLeadNameChar(Segments(a)[0])
  {
    assert ProperSeg(a[0]);
  }

  lemma {:induction false} PrefixesApart(i: nat, a: seq<seq<byte>>, j: nat, b: seq<seq<byte>>)
    requires ProperSegs(a) && ProperSegs(b) && Carets(i) + Segments(a) == Carets(j) + Segments(b)
    ensures i == j && a == b
  {
    var left, right := Carets(i) + Segments(a), Carets(j) + Segments(b);
    if i > 0 { assert left[0] == 0x5E && left[1..] == Carets(i - 1) + Segments(a); }
    if j > 0 { assert right[0] == 0x5E && right[1..] == Carets(j - 1) + Segments(b); }
    if i == 0 { assert left == Segments(a); }
    if j == 0 { assert right == Segments(b); }
    if i == 0 && j == 0 {
      SegsApart(a, b);
    } else if i > 0 && j > 0 {
      PrefixesApart(i - 1, a, j - 1, b);
    } else if i == 0 {
      if a != [] { SegsBegin(a); }
      assert false;
    } else {
      if b != [] { SegsBegin(b); }
      assert false;
    }
  }

  lemma {:induction false} RootsApart(a: Name, b: Name)
    requires ProperName(a) && ProperName(b) && a.root && !b.root
    ensures NameText(a) != NameText(b)
  {
    assert NameText(a)[0] == 0x5C;
    if b.ups > 0 {
      assert NameText(b)[0] == 0x5E;
    } else {
      assert NameText(b) == Segments(b.segs);
      if b.segs != [] { SegsBegin(b.segs); }
    }
  }

  lemma {:induction false} NamesApart(a: Name, b: Name)
    requires ProperName(a) && ProperName(b) && NameText(a) == NameText(b)
    ensures a == b
  {
    if a.root != b.root {
      if a.root { RootsApart(a, b); } else { RootsApart(b, a); }
    } else if a.root {
      assert NameText(a)[1..] == Segments(a.segs) && NameText(b)[1..] == Segments(b.segs);
      SegsApart(a.segs, b.segs);
    } else {
      PrefixesApart(a.ups, a.segs, b.ups, b.segs);
    }
  }

  lemma {:induction false} ArgsApart(a: Arg, b: Arg)
    requires ArgTree(a) == ArgTree(b)
    ensures a == b
  {
    var t, u := ArgTree(a), ArgTree(b);
    if a.HexArg? {
      assert t.kind == DefToHexString && b.HexArg?;
      assert t.children[0].children[0] == ArgTree(a.operand) && t.children[1].children[0] == ArgTree(a.target);
      assert u.children[0].children[0] == ArgTree(b.operand) && u.children[1].children[0] == ArgTree(b.target);
      ArgsApart(a.operand, b.operand);
      ArgsApart(a.target, b.target);
    }
  }

  lemma {:induction false} HoldersApart(s: State, a: Arg, b: Arg)
    requires Holder(s, a) == Holder(s, b)
    ensures a == b
  {
    assert Holder(s, a).children[0] == ArgTree(a) && Holder(s, b).children[0] == ArgTree(b);
    ArgsApart(a, b);
  }

  lemma {:induction false} ElementsApart(a: seq<Element>, b: seq<Element>)
    requires ElementTrees(a) == ElementTrees(b)
    ensures a == b
  {
    if a != [] && b != [] {
      var t, u := ElementTrees(a), ElementTrees(b);
      assert t[0] == ElementTree(a[0]) && u[0] == ElementTree(b[0]);
      assert t[0].children[0] == LengthTree(a[0].bits) && u[0].children[0] == LengthTree(b[0].bits);
      assert t[1..] == ElementTrees(a[1..]) && u[1..] == ElementTrees(b[1..]);
      ElementsApart(a[1..], b[1..]);
      assert a == [a[0]] + a[1..] && b == [b[0]] + b[1..];
    }
  }

  lemma MethodFlagsWhole(a: byte)
    ensures a == a % 4 + 4 * (a / 4 % 2) + 8 * (a / 8)
  {
    assert a / 4 == a / 8 * 2 + a / 4 % 2;
  }

  lemma FieldFlagsWhole(a: byte)
    ensures a == a % 0x10 + 0x10 * (a / 0x10 % 2) + 0x20 * (a / 0x20)
  {
    assert a / 0x10 == a / 0x20 * 2 + a / 0x10 % 2;
  }

  lemma MethodFlagsApart(a: byte, b: byte)
    requires [a % 4, a / 4 % 2, a / 8] == [b % 4, b / 4 % 2, b / 8]
    ensures a == b
  {
    var m, n := [a % 4, a / 4 % 2, a / 8], [b % 4, b / 4 % 2, b / 8];
    assert m[0] == n[0] && m[1] == n[1] && m[2] == n[2];
    MethodFlagsWhole(a);
    MethodFlagsWhole(b);
  }

  lemma FieldFlagsApart(a: byte, b: byte)
    requires [a % 0x10, a / 0x10 % 2, a / 0x20] == [b % 0x10, b / 0x10 % 2, b / 0x20]
    ensures a == b
  {
    var m, n := [a % 0x10, a / 0x10 % 2, a / 0x20], [b % 0x10, b / 0x10 % 2, b / 0x20];
    assert m[0] == n[0] && m[1] == n[1] && m[2] == n[2];
    FieldFlagsWhole(a);
    FieldFlagsWhole(b);
  }

  /** The name, the flags and the body in the tree of a package. */
  lemma {:induction false} PackageTree(t: Term)
    requires Proper(t) && (t.Scope? || t.Device? || t.Method?)
    ensures var c := TreeOf(t).children;
            && |c| >= 2 && c[1] == NameTree(t.name)
            && (if t.Method? then |c| >= 3 && c[2].text == [t.flags % 4, t.flags / 4 % 2, t.flags / 8]
                                  && c[3..] == TreesOf(t.body)
                else c[2..] == TreesOf(t.body))
  {
  }

  lemma {:induction false} PackagesApart(t: Term, u: Term)
    requires Proper(t) && Proper(u) && TreeOf(t) == TreeOf(u) && (t.Scope? || t.Device? || t.Method?)
    requires AllProper(t.body)
    ensures t == u
    decreases t, 0
  {
    assert TreeOf(t).kind == TreeOf(u).kind;
    PackageTree(t);
    PackageTree(u);
    assert NameTree(t.name).text == NameTree(u.name).text;
    NamesApart(t.name, u.name);
    TermsApart(t.body, u.body);
    if t.Method? { MethodFlagsApart(t.flags, u.flags); }
  }

  lemma {:induction false} RegionsApart(t: Term, u: Term)
    requires Proper(t) && Proper(u) && TreeOf(t) == TreeOf(u) && t.Region?
    ensures t == u
  {
    assert TreeOf(t).kind == TreeOf(u).kind;
    var c, d := TreeOf(t).children, TreeOf(u).children;
    assert c[0] == NameTree(t.name) && d[0] == NameTree(u.name);
    assert c[1].text[0] == t.space && d[1].text[0] == u.space;
    assert c[2] == Holder(RegionOffset, t.offset) && d[2] == Holder(RegionOffset, u.offset);
    assert c[3] == Holder(RegionLen, t.length) && d[3] == Holder(RegionLen, u.length);
    NamesApart(t.name, u.name);
    HoldersApart(RegionOffset, t.offset, u.offset);
    HoldersApart(RegionLen, t.length, u.length);
  }

  lemma {:induction false} FieldsApart(t: Term, u: Term)
    requires Proper(t) && Proper(u) && TreeOf(t) == TreeOf(u) && t.Field?
    ensures t == u
  {
    assert TreeOf(t).kind == TreeOf(u).kind;
    var c, d := TreeOf(t).children, TreeOf(u).children;
    assert c[1] == NameTree(t.name) && d[1] == NameTree(u.name);
    assert c[2].text == [t.flags % 0x10, t.flags / 0x10 % 2, t.flags / 0x20];
    assert d[2].text == [u.flags % 0x10, u.flags / 0x10 % 2, u.flags / 0x20];
    assert c[3..] == ElementTrees(t.elements) && d[3..] == ElementTrees(u.elements);
    NamesApart(t.name, u.name);
    FieldFlagsApart(t.flags, u.flags);
    ElementsApart(t.elements, u.elements);
  }

  lemma {:induction false} TermApart(t: Term, u: Term)
    requires Proper(t) && Proper(u) && TreeOf(t) == TreeOf(u)
    ensures t == u
    decreases t, 1
  {
    assert TreeOf(t).kind == TreeOf(u).kind;
    match t {
      case Region(_, _, _, _) => RegionsApart(t, u);
      case Field(_, _, _) => FieldsApart(t, u);
      case ToHex(operand, target) => ArgsApart(HexArg(operand, target), HexArg(u.operand, u.target));
      case _ => PackagesApart(t, u);
    }
  }

  /** Terms with the same trees are the same. */
  lemma {:induction false} TermsApart(ts: seq<Term>, us: seq<Term>)
    requires AllProper(ts) && AllProper(us) && TreesOf(ts) == TreesOf(us)
    ensures ts == us
    decreases ts
  {
    if ts != [] && us != [] {
      var a, b := TreesOf(ts), TreesOf(us);
      assert a[0] == TreeOf(ts[0]) && b[0] == TreeOf(us[0]);
      assert a[1..] == TreesOf(ts[1..]) && b[1..] == TreesOf(us[1..]);
      TermApart(ts[0], us[0]);
      TermsApart(ts[1..], us[1..]);
      assert ts == [ts[0]] + ts[1..] && us == [us[0]] + us[1..];
    }
  }
}
