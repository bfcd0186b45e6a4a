/** What the consumers of the AML parser make of the bytes: package lengths as section 20.2.4 of the ACPI
    Specification encodes them, and the blocks a package length bounds.
    Source: source/kernel/firmware/acpi/aml/main.c:362-421, 453-502, 600-611 */
module AmlPackage {
  import opened AmlGrammar
  import opened AmlMachine
  import opened AmlTree
  import F = Forest

  // ----- package lengths

  const PKG_LIMIT: nat := 0x1000_0000

  /** The shortest encoding of a length: six bits, or four bits and one to three more bytes. */
  function EncodeLength(n: nat): seq<byte>
    requires n < PKG_LIMIT
  {
    if n < 0x40 then [n]
    else if n < 0x1000 then [0x40 + n % 0x10, n / 0x10]
    else if n < 0x10_0000 then [0x80 + n % 0x10, n / 0x10 % 0x100, n / 0x1000]
    else [0xC0 + n % 0x10, n / 0x10 % 0x100, n / 0x1000 % 0x100, n / 0x10_0000]
  }

  /** The digits of a length: its low four bits, then three bytes. */
  lemma Digits(n: nat)
    requires n < PKG_LIMIT
    ensures n == n % 0x10 + n / 0x10 * 0x10
    ensures n / 0x10 == n / 0x10 % 0x100 + n / 0x1000 * 0x100
    ensures n / 0x1000 == n / 0x1000 % 0x100 + n / 0x10_0000 * 0x100
    ensures n / 0x10_0000 < 0x100 && (n < 0x10_0000 ==> n / 0x1000 < 0x100) && (n < 0x1000 ==> n / 0x10 < 0x100)
  {
  }

  lemma LengthBytes(code: seq<byte>, at: nat, n: nat)
    requires n < PKG_LIMIT && at + |EncodeLength(n)| <= |code|
    requires code[at..at + |EncodeLength(n)|] == EncodeLength(n)
    ensures var following := At(code, at) / 0x40;
            following == |EncodeLength(n)| - 1 && PkgLengthOf(code, at, following) == n
  {
    var e := EncodeLength(n);
    var bytes := code[at..at + |e|];
    assert bytes[0] == code[at];
    Digits(n);
    if n < 0x40 {
      assert At(code, at) == n;
    } else if n < 0x1000 {
      assert bytes[1] == code[at + 1];
      assert At(code, at) == 0x40 + n % 0x10 && At(code, at + 1) == n / 0x10;
    } else if n < 0x10_0000 {
      assert bytes[1] == code[at + 1] && bytes[2] == code[at + 2];
      assert At(code, at) == 0x80 + n % 0x10 && At(code, at + 1) == n / 0x10 % 0x100 && At(code, at + 2) == n / 0x1000;
    } else {
      assert bytes[1] == code[at + 1] && bytes[2] == code[at + 2] && bytes[3] == code[at + 3];
      assert At(code, at) == 0xC0 + n % 0x10 && At(code, at + 1) == n / 0x10 % 0x100;
      assert At(code, at + 2) == n / 0x1000 % 0x100 && At(code, at + 3) == n / 0x10_0000;
    }
  }

  /** An encoded length inside its section is read back, byte for byte; zero is refused. */
  lemma LengthRoundTrip(code: seq<byte>, c: Config, n: nat)
    requires WellFormed(code, c) && n < PKG_LIMIT && c.ptr + |EncodeLength(n)| <= |code|
    requires code[c.ptr..c.ptr + |EncodeLength(n)|] == EncodeLength(n)
    requires c.ptr + |EncodeLength(n)| - 1 <= Bound(c)
    ensures Consume(code, c, ReadPkgLength) ==
            if n == 0 then Refuse(ConsumerFailed) else Accept(|EncodeLength(n)|, [], n)
  {
    LengthBytes(code, c.ptr, n);
  }

  // ----- the blocks of a section

  /** `x` is `from` or one of the blocks behind it. */
  predicate OnChain(blocks: seq<Block>, from: int, x: nat)
    requires BlocksOk(blocks) && -1 <= from < |blocks|
    decreases if from == -1 then 0 else |blocks| - from
  {
    from != -1 && (from == x || (assert BlockOk(blocks, from); OnChain(blocks, blocks[from].down, x)))
  }

  lemma {:induction false} OnChainNext(blocks: seq<Block>, from: int, j: nat, x: nat)
    requires BlocksOk(blocks) && -1 <= from < |blocks| && j < |blocks|
    requires OnChain(blocks, from, j) && blocks[j].down == x
    ensures OnChain(blocks, from, x)
    decreases if from == -1 then 0 else |blocks| - from
  {
    assert BlockOk(blocks, from);
    if from != j {
      OnChainNext(blocks, blocks[from].down, j, x);
    } else {
      assert OnChain(blocks, blocks[j].down, x);
    }
  }

  lemma {:induction false} ChainSharesParent(blocks: seq<Block>, from: int, x: nat)
    requires Shaped(blocks) && -1 <= from < |blocks| && OnChain(blocks, from, x)
    ensures x < |blocks| && blocks[x].left == blocks[from].left
    decreases |blocks| - from
  {
    assert BlockOk(blocks, from) && ParentOk(blocks, from);
    if from != x {
      ChainSharesParent(blocks, blocks[from].down, x);
    }
  }

  lemma {:induction false} ChildrenAreOnChain(blocks: seq<Block>, pred: seq<nat>, x: nat)
    requires Shaped(blocks) && F.LinkedOnce(Links(blocks), pred) && 1 <= x < |blocks|
    ensures 0 <= blocks[x].left < |blocks| && -1 <= blocks[blocks[x].left].right < |blocks|
    ensures OnChain(blocks, blocks[blocks[x].left].right, x)
  {
    assert BlockOk(blocks, x) && BlockOk(blocks, blocks[x].left);
    var j := pred[x];
    assert F.Points(Links(blocks), j, x);
    assert ParentOk(blocks, j) && BlockOk(blocks, j);
    if blocks[j].right == x {
      assert blocks[x].left == j;
    } else {
      assert blocks[j].down == x && j >= 1;
      ChildrenAreOnChain(blocks, pred, j);
      OnChainNext(blocks, blocks[blocks[x].left].right, j, x);
    }
  }

  /** The blocks on a section's chain are the blocks whose parent it is. */
  lemma ChainIsSection(blocks: seq<Block>, p: nat, x: nat)
    requires Shaped(blocks) && p < |blocks| && x < |blocks|
    ensures -1 <= blocks[p].right < |blocks|
    ensures OnChain(blocks, blocks[p].right, x) <==> x >= 1 && blocks[x].left == p
  {
    assert BlockOk(blocks, p) && ParentOk(blocks, p) && BlockOk(blocks, x) && BlockOk(blocks, 0);
    if x >= 1 {
      var pred :| F.LinkedOnce(Links(blocks), pred);
      ChildrenAreOnChain(blocks, pred, x);
    }
    if OnChain(blocks, blocks[p].right, x) {
      ChainSharesParent(blocks, blocks[p].right, x);
    }
  }

  lemma {:induction false} SameLinksChain(a: seq<Block>, b: seq<Block>, from: int, x: nat)
    requires BlocksOk(a) && BlocksOk(b) && SameLinks(a, b) && -1 <= from < |a|
    ensures OnChain(b, from, x) == OnChain(a, from, x)
    decreases if from == -1 then 0 else |a| - from
  {
    if from != -1 {
      assert BlockOk(a, from);
      SameLinksChain(a, b, a[from].down, x);
    }
  }

  lemma {:induction false} SetEndsOnChain(blocks: seq<Block>, from: int, end: int, x: nat)
    requires BlocksOk(blocks) && -1 <= from < |blocks| && x < |blocks|
    ensures SetEnds(blocks, from, end)[x].end == if OnChain(blocks, from, x) then end else blocks[x].end
    decreases if from == -1 then 0 else |blocks| - from
  {
    if from != -1 {
      var b := blocks[from := blocks[from].(end := end)];
      assert BlockOk(blocks, from) && SameLinks(blocks, b);
      SameLinksOk(blocks, b);
      SetEndsOnChain(b, blocks[from].down, end, x);
      SameLinksChain(blocks, b, blocks[from].down, x);
      NotBehindItself(blocks, blocks[from].down, from);
    }
  }

  lemma {:induction false} NotBehindItself(blocks: seq<Block>, from: int, x: nat)
    requires BlocksOk(blocks) && -1 <= from < |blocks| && (from == -1 || x < from)
    ensures !OnChain(blocks, from, x)
    decreases if from == -1 then 0 else |blocks| - from
  {
    if from != -1 {
      assert BlockOk(blocks, from);
      NotBehindItself(blocks, blocks[from].down, x);
    }
  }

  /** A package length bounds exactly its section: the block that opened it and the blocks in it so far, and no
      other block. */
  lemma PackageBoundsItsSection(c: Config, length: nat, x: nat)
    requires Tidy(c) && x < |c.blocks|
    ensures Bounded(c, length)[x].end ==
            if x == Parent(c) || (x >= 1 && c.blocks[x].left == Parent(c)) then c.ptr + length - 1 else c.blocks[x].end
  {
    var p, end := Parent(c), c.ptr + length - 1;
    var b := c.blocks[p := c.blocks[p].(end := end)];
    assert SameLinks(c.blocks, b);
    SameLinksOk(c.blocks, b);
    assert BlockOk(b, p);
    SetEndsOnChain(b, b[p].right, end, x);
    SameLinksChain(c.blocks, b, b[p].right, x);
    ChainIsSection(c.blocks, p, x);
  }

  // ----- alternatives

  /** An alternative that is taken passes its own condition on the next turn. */
  lemma {:induction false} TakenPassesItsCondition(code: seq<byte>, c: Config, choices: seq<State>)
    requires WellFormed(code, c)
    ensures var p := Pick(code, c, choices);
            p.Take? ==> Guard(code, c, RuleOf(p.state).condition) == None
  {
    if choices != [] && !choices[0].Nothing? && Matching(code, c, RuleOf(choices[0]).condition).Differs? {
      TakenPassesItsCondition(code, c, choices[1..]);
    }
  }

  /** The alternative is one of the list, its condition holds, and of none before it does. */
  predicate IsFirst(code: seq<byte>, c: Config, choices: seq<State>, i: nat)
    requires WellFormed(code, c)
  {
    && i < |choices| && !choices[i].Nothing? && Matching(code, c, RuleOf(choices[i]).condition) == Matches
    && forall j :: 0 <= j < i ==> Passed(code, c, choices[j])
  }

  predicate IsNothing(code: seq<byte>, c: Config, choices: seq<State>, i: nat)
    requires WellFormed(code, c)
  {
    i < |choices| && choices[i].Nothing? && forall j :: 0 <= j < i ==> Passed(code, c, choices[j])
  }

  predicate Passed(code: seq<byte>, c: Config, s: State)
    requires WellFormed(code, c)
  {
    !s.Nothing? && Matching(code, c, RuleOf(s).condition) == Differs
  }

  predicate IsUnreadable(code: seq<byte>, c: Config, choices: seq<State>, i: nat)
    requires WellFormed(code, c)
  {
    && i < |choices| && !choices[i].Nothing? && Matching(code, c, RuleOf(choices[i]).condition) == Unreadable
    && forall j :: 0 <= j < i ==> Passed(code, c, choices[j])
  }

  /** The search ends at the first alternative that is not passed, with what that says. */
  lemma {:induction false} PickStops(code: seq<byte>, c: Config, choices: seq<State>, i: nat)
    requires WellFormed(code, c) && i < |choices| && !Passed(code, c, choices[i])
    requires forall j :: 0 <= j < i ==> Passed(code, c, choices[j])
    ensures var p := Pick(code, c, choices);
            && (p.TakeNothing? <==> IsNothing(code, c, choices, i))
            && (p.Take? <==> IsFirst(code, c, choices, i)) && (p.Take? ==> p.state == choices[i])
            && (p.CannotRead? <==> IsUnreadable(code, c, choices, i)) && !p.TakeNone?
    decreases i
  {
    if i > 0 {
      var rest := choices[1..];
      assert Passed(code, c, choices[0]) && rest[i - 1] == choices[i];
      forall j | 0 <= j < i - 1 ensures Passed(code, c, rest[j]) { assert Passed(code, c, choices[j + 1]); }
      PickStops(code, c, rest, i - 1);
    }
  }

  /** There is such an alternative unless none is taken. */
  lemma {:induction false} SomeStop(code: seq<byte>, c: Config, choices: seq<State>) returns (i: nat)
    requires WellFormed(code, c)
    ensures i <= |choices| && forall j :: 0 <= j < i ==> Passed(code, c, choices[j])
    ensures i == |choices| ==> Pick(code, c, choices).TakeNone?
    ensures i < |choices| ==> !Passed(code, c, choices[i])
  {
    if choices == [] || !Passed(code, c, choices[0]) {
      i := 0;
    } else {
      var k := SomeStop(code, c, choices[1..]);
      i := k + 1;
      forall j | 0 < j < i ensures Passed(code, c, choices[j]) { assert Passed(code, c, choices[1..][j - 1]); }
    }
  }

  /** What is taken is the first alternative whose condition holds, in front of any `Nothing`; `Nothing` is taken
      exactly where that comes before any such; and the search fails exactly where it comes first to one whose
      condition would read behind the code. */
  lemma {:induction false} TakenIsFirst(code: seq<byte>, c: Config, choices: seq<State>)
    requires WellFormed(code, c)
    ensures var p := Pick(code, c, choices);
            && (p.Take? <==> exists i: nat :: IsFirst(code, c, choices, i))
            && (p.Take? ==> exists i: nat :: IsFirst(code, c, choices, i) && choices[i] == p.state)
            && (p.TakeNothing? <==> exists i: nat :: IsNothing(code, c, choices, i))
            && (p.CannotRead? <==> exists i: nat :: IsUnreadable(code, c, choices, i))
  {
    var p := Pick(code, c, choices);
    var k := SomeStop(code, c, choices);
    if k < |choices| { PickStops(code, c, choices, k); }
    if i: nat :| IsFirst(code, c, choices, i) { PickStops(code, c, choices, i); }
    if i: nat :| IsNothing(code, c, choices, i) { PickStops(code, c, choices, i); }
    if i: nat :| IsUnreadable(code, c, choices, i) { PickStops(code, c, choices, i); }
  }

  /** When no alternative is taken, none of their conditions holds. */
  lemma {:induction false} NothingFits(code: seq<byte>, c: Config, choices: seq<State>, s: State)
    requires WellFormed(code, c) && Pick(code, c, choices).TakeNone? && s in choices
    ensures !s.Nothing? && Matching(code, c, RuleOf(s).condition) == Differs
  {
    if s != choices[0] { NothingFits(code, c, choices[1..], s); }
  }
}
