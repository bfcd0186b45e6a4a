/** How the parser reads the names of section 20.2.2 of the ACPI Specification.
    Source: source/kernel/firmware/acpi/aml/main.c:504-581, aml_definition.c:356-423 */
module AmlNames {
  import opened AmlGrammar
  import opened AmlMachine
  import opened AmlTerms
  import opened AmlLayout
  import opened AmlReading

  /** The current block still has no number in it. */
  predicate Blank(code: seq<byte>, c: Config, e: int) {
    WellFormed(code, c) && EndsAt(c, e) && e < |code| && c.blocks[c.actual].value == 0
  }

  lemma {:induction false} FilledBlank(code: seq<byte>, c: Config, e: int, n: nat, text: seq<byte>)
    requires Blank(code, c, e) && c.ptr + n <= |code|
    ensures Blank(code, Filled(c, n, text, 0), e)
  {
    SameLinksOk(c.blocks, Filled(c, n, text, 0).blocks);
  }

  lemma {:induction false} FilledTwice(c: Config, n: nat, text: seq<byte>, k: nat, more: seq<byte>)
    requires c.actual < |c.blocks|
    ensures Filled(Filled(c, n, text, 0), k, more, 0) == Filled(c, n + k, text + more, 0)
  {
    var once, twice := Filled(c, n, text, 0), Filled(c, n + k, text + more, 0);
    var start := c.blocks[c.actual].text;
    assert (start + text) + more == start + (text + more);
    assert Filled(once, k, more, 0).blocks == twice.blocks;
  }

  lemma {:induction false} FilledSkips(c: Config, n: nat)
    requires c.actual < |c.blocks| && c.blocks[c.actual].value == 0
    ensures Filled(c, n, [], 0) == c.(ptr := c.ptr + n)
  {
    assert c.blocks[c.actual].text + [] == c.blocks[c.actual].text;
  }

  // ----- segments

  lemma {:induction false} SegmentsSize(segs: seq<seq<byte>>)
    requires forall k :: 0 <= k < |segs| ==> ProperSeg(segs[k])
    ensures |Segments(segs)| == 4 * |segs|
  {
    if segs != [] {
      assert ProperSeg(segs[0]);
      forall k | 0 <= k < |segs[1..]| ensures ProperSeg(segs[1..][k]) { assert ProperSeg(segs[k + 1]); }
      SegmentsSize(segs[1..]);
    }
  }

  /** A segment is read unless it is the end of its section. */
  lemma {:induction false} SegRead(p: Descent, c: Config, e: int, seg: seq<byte>)
    requires Follows(p) && Blank(p.code, c, e) && Holds(p.code, c.ptr, seg, e) && ProperSeg(seg)
    ensures p.runs([NameSeg], c) == if c.ptr + 4 <= e then Through(Filled(c, 4, seg, 0), 1) else Stuck
  {
    RunsOne(p, NameSeg, c);
    if c.ptr + 4 <= e {
      var d := Filled(c, 4, seg, 0);
      FilledBlank(p.code, c, e, 4, seg);
      assert Consume(p.code, c, ReadNameSeg) == Accept(4, seg, 0);
      assert Step(p.code, c, NameSeg) == Next(d, []);
      RunsNothing(p, d);
    }
  }

  lemma {:induction false} TwoSegsRead(p: Descent, c: Config, e: int, a: seq<byte>, b: seq<byte>)
    requires Follows(p) && Blank(p.code, c, e) && Holds(p.code, c.ptr, a + b, e) && ProperSeg(a) && ProperSeg(b)
    ensures p.runs([NameSeg, NameSeg], c) ==
            if c.ptr + 8 <= e then Through(Filled(c, 8, a + b, 0), 2) else Stuck
  {
    HoldsParts(p.code, c.ptr, a, b, e);
    SegRead(p, c, e, a);
    RunsThen(p, [NameSeg], [NameSeg], c);
    assert [NameSeg] + [NameSeg] == [NameSeg, NameSeg];
    var d := Filled(c, 4, a, 0);
    FilledBlank(p.code, c, e, 4, a);
    SegRead(p, d, e, b);
    FilledTwice(c, 4, a, 4, b);
  }

  // ----- paths

  /** The state that reads the path. */
  function PathState(segs: seq<seq<byte>>): State {
    if segs == [] then NullName
    else if |segs| == 1 then NameSeg
    else if |segs| == 2 then DualNamePath
    else MultiNamePath
  }

  function PathHeight(segs: seq<seq<byte>>): nat {
    if |segs| == 2 then 2 else 1
  }

  predicate ProperPath(segs: seq<seq<byte>>) {
    |segs| < 0x100 && forall k :: 0 <= k < |segs| ==> ProperSeg(segs[k])
  }

  /** What comes of reading a path: it is refused if its last segment ends the section. */
  function PathRan(c: Config, e: int, segs: seq<seq<byte>>, n: nat): Ran
    requires c.actual < |c.blocks| && ProperPath(segs)
  {
    if segs == [] || c.ptr + |EncodePath(segs)| <= e
    then Through(Filled(c, |EncodePath(segs)|, Segments(segs), 0), n)
    else Stuck
  }

  lemma {:induction false} NullNameRead(p: Descent, c: Config, e: int)
    requires Follows(p) && Blank(p.code, c, e) && Holds(p.code, c.ptr, EncodePath([]), e)
    ensures p.runs([NullName], c) == PathRan(c, e, [], 1)
  {
    HoldsByte(p.code, c.ptr, [0], e, 0);
    RunsOne(p, NullName, c);
    var d := Filled(c, 1, [], 0);
    FilledBlank(p.code, c, e, 1, []);
    FilledSkips(c, 1);
    assert Step(p.code, c, NullName) == Next(d, []);
    RunsNothing(p, d);
  }

  lemma {:induction false} OneSegRead(p: Descent, c: Config, e: int, segs: seq<seq<byte>>)
    requires Follows(p) && Blank(p.code, c, e) && ProperPath(segs) && |segs| == 1
    requires Holds(p.code, c.ptr, EncodePath(segs), e)
    ensures p.runs([NameSeg], c) == PathRan(c, e, segs, 1)
  {
    assert ProperSeg(segs[0]);
    assert segs[1..] == [] && Segments(segs) == segs[0] + Segments([]) == segs[0];
    SegRead(p, c, e, segs[0]);
  }

  lemma {:induction false} DualRead(p: Descent, c: Config, e: int, segs: seq<seq<byte>>)
    requires Follows(p) && Blank(p.code, c, e) && ProperPath(segs) && |segs| == 2
    requires Holds(p.code, c.ptr, EncodePath(segs), e)
    ensures p.runs([DualNamePath], c) == PathRan(c, e, segs, 2)
  {
    assert ProperSeg(segs[0]) && ProperSeg(segs[1]);
    var both := segs[0] + segs[1];
    assert segs[1..] == [segs[1]] && segs[1..][1..] == [];
    assert Segments(segs[1..]) == segs[1] + Segments([]) == segs[1];
    assert Segments(segs) == both;
    HoldsParts(p.code, c.ptr, [0x2E], both, e);
    HoldsByte(p.code, c.ptr, [0x2E], e, 0);
    RunsOne(p, DualNamePath, c);
    var d := Filled(c, 1, [], 0);
    FilledBlank(p.code, c, e, 1, []);
    FilledSkips(c, 1);
    assert Step(p.code, c, DualNamePath) == Next(d, [NameSeg, NameSeg]);
    TwoSegsRead(p, d, e, segs[0], segs[1]);
    FilledTwice(c, 1, [], 8, both);
    assert [] + both == both;
  }

  lemma {:induction false} MultiStands(code: seq<byte>, c: Config, e: int, segs: seq<seq<byte>>)
    requires Blank(code, c, e) && ProperPath(segs) && |segs| > 2 && Holds(code, c.ptr, EncodePath(segs), e)
    ensures var text := Segments(segs);
            && |text| == 4 * |segs| && |EncodePath(segs)| == 2 + |text| && Holds(code, c.ptr + 2, text, e)
            && c.ptr + 1 <= e && code[c.ptr] == 0x2F && code[c.ptr + 1] == |segs|
  {
    var text := Segments(segs);
    SegmentsSize(segs);
    assert EncodePath(segs) == [0x2F, |segs|] + text;
    HoldsParts(code, c.ptr, [0x2F, |segs|], text, e);
    HoldsByte(code, c.ptr, [0x2F, |segs|], e, 0);
    HoldsByte(code, c.ptr, [0x2F, |segs|], e, 1);
  }

  lemma {:induction false} MultiRead(p: Descent, c: Config, e: int, segs: seq<seq<byte>>)
    requires Follows(p) && Blank(p.code, c, e) && ProperPath(segs) && |segs| > 2
    requires Holds(p.code, c.ptr, EncodePath(segs), e)
    ensures p.runs([MultiNamePath], c) == PathRan(c, e, segs, 1)
  {
    var text := Segments(segs);
    MultiStands(p.code, c, e, segs);
    RunsOne(p, MultiNamePath, c);
    if c.ptr + 2 + |text| <= e {
      var d := Filled(c, 2 + |text|, text, 0);
      FilledBlank(p.code, c, e, 2 + |text|, text);
      assert Consume(p.code, c, ReadMultiNamePath) == Accept(2 + |text|, text, 0);
      FillTurn(p.code, c, MultiNamePath, 2 + |text|, text, 0);
      RunsNothing(p, d);
    } else {
      assert Consume(p.code, c, ReadMultiNamePath).Refuse?;
    }
  }

  lemma {:induction false} PathRead(p: Descent, c: Config, e: int, segs: seq<seq<byte>>)
    requires Follows(p) && Blank(p.code, c, e) && ProperPath(segs) && Holds(p.code, c.ptr, EncodePath(segs), e)
    ensures p.runs([PathState(segs)], c) == PathRan(c, e, segs, PathHeight(segs))
  {
    if segs == [] { NullNameRead(p, c, e); }
    else if |segs| == 1 { OneSegRead(p, c, e, segs); }
    else if |segs| == 2 { DualRead(p, c, e, segs); }
    else { MultiRead(p, c, e, segs); }
  }

  /** The first byte of a path says which it is. */
  lemma {:induction false} PathBegins(p: Descent, c: Config, e: int, segs: seq<seq<byte>>)
    requires Blank(p.code, c, e) && ProperPath(segs) && Holds(p.code, c.ptr, EncodePath(segs), e)
    ensures c.ptr <= e && var b := p.code[c.ptr];
            && b != 0x5C && b != 0x5E && (IsLeadNameChar(b) <==> |segs| == 1)
            && (b == 0x2E <==> |segs| == 2) && (b == 0x2F <==> |segs| > 2) && (b == 0 <==> segs == [])
  {
    if |segs| == 1 { assert ProperSeg(segs[0]); }
    HoldsByte(p.code, c.ptr, EncodePath(segs), e, 0);
  }

  predicate IsPathState(s: State) {
    s.NameSeg? || s.DualNamePath? || s.MultiNamePath? || s.NullName?
  }

  lemma {:induction false} PathTells(p: Descent, c: Config, e: int, segs: seq<seq<byte>>, x: State)
    requires Blank(p.code, c, e) && ProperPath(segs) && Holds(p.code, c.ptr, EncodePath(segs), e)
    requires IsPathState(x) || x.NameStringRootPath? || x.NameStringPrefixPath?
    ensures Tells(p.code, c, x, PathState(segs))
  {
    PathBegins(p, c, e, segs);
  }

  lemma {:induction false} NamePathRead(p: Descent, c: Config, e: int, segs: seq<seq<byte>>)
    requires Follows(p) && Blank(p.code, c, e) && ProperPath(segs) && Holds(p.code, c.ptr, EncodePath(segs), e)
    ensures p.runs([NamePath], c) == PathRan(c, e, segs, PathHeight(segs))
  {
    var choices := [NameSeg, DualNamePath, MultiNamePath, NullName];
    forall k | 0 <= k < |choices| ensures Tells(p.code, c, choices[k], PathState(segs)) {
      PathTells(p, c, e, segs, choices[k]);
    }
    ChoiceTurn(p.code, c, NamePath, choices, PathState(segs));
    RunsOne(p, NamePath, c);
    PathRead(p, c, e, segs);
  }

  // ----- prefixes

  lemma {:induction false} CaretsSize(n: nat)
    ensures |Carets(n)| == n
  {
    if n > 0 { CaretsSize(n - 1); }
  }

  lemma {:induction false} CaretTurn(p: Descent, c: Config, e: int)
    requires Blank(p.code, c, e) && c.ptr + 1 <= e && p.code[c.ptr] == 0x5E
    ensures var d := Filled(c, 1, [0x5E], 0);
            && Blank(p.code, d, e)
            && Step(p.code, c, PrefixPath) == Next(d, if p.code[c.ptr + 1] == 0x5E then [PrefixPath] else [])
  {
    var d := Filled(c, 1, [0x5E], 0);
    FilledBlank(p.code, c, e, 1, [0x5E]);
    FillTurn(p.code, c, PrefixPath, 1, [0x5E], 0);
    FirstOrNothing(p.code, d, PrefixPath);
  }

  /** As many carets as there are. */
  lemma {:induction false} CaretsRead(p: Descent, c: Config, e: int, n: nat)
    requires Follows(p) && Blank(p.code, c, e) && n >= 1 && Holds(p.code, c.ptr, Carets(n), e)
    requires c.ptr + n <= e && p.code[c.ptr + n] != 0x5E
    ensures p.runs([PrefixPath], c) == Through(Filled(c, n, Carets(n), 0), 1)
    decreases n
  {
    assert Carets(n) == [0x5E] + Carets(n - 1);
    HoldsParts(p.code, c.ptr, [0x5E], Carets(n - 1), e);
    HoldsByte(p.code, c.ptr, [0x5E], e, 0);
    CaretTurn(p, c, e);
    RunsOne(p, PrefixPath, c);
    var d := Filled(c, 1, [0x5E], 0);
    if n == 1 {
      assert Carets(0) == [] && Carets(1) == [0x5E];
      RunsNothing(p, d);
    } else {
      CaretsSize(n - 1);
      HoldsByte(p.code, d.ptr, Carets(n - 1), e, 0);
      CaretsRead(p, d, e, n - 1);
      FilledTwice(c, 1, [0x5E], n - 1, Carets(n - 1));
    }
  }

  /** What the parser makes of the whole name, in the block it has made for it. */
  function NameRan(m: Config, e: int, n: Name): Ran
    requires m.actual < |m.blocks| && ProperName(n)
  {
    if n.segs == [] || m.ptr + |EncodeName(n)| <= e
    then Through(Filled(m, |EncodeName(n)|, NameText(n), 0), NameHeight(n))
    else Stuck
  }

  lemma {:induction false} RootTurn(p: Descent, m: Config, e: int, path: seq<byte>)
    requires Blank(p.code, m, e) && Holds(p.code, m.ptr, [0x5C] + path, e)
    ensures Step(p.code, m, NameStringRootPath) == Next(Filled(m, 1, [0x5C], 0), [NamePath])
    ensures Blank(p.code, Filled(m, 1, [0x5C], 0), e) && Holds(p.code, m.ptr + 1, path, e)
  {
    HoldsParts(p.code, m.ptr, [0x5C], path, e);
    HoldsByte(p.code, m.ptr, [0x5C], e, 0);
    FilledBlank(p.code, m, e, 1, [0x5C]);
    FillTurn(p.code, m, NameStringRootPath, 1, [0x5C], 0);
  }

  /** The path behind `n` bytes of prefix. */
  lemma {:induction false} PathBehind(m: Config, e: int, n: nat, prefix: seq<byte>, segs: seq<seq<byte>>, h: nat)
    requires m.actual < |m.blocks| && ProperPath(segs)
    ensures PathRan(Filled(m, n, prefix, 0), e, segs, h) ==
            if segs == [] || m.ptr + n + |EncodePath(segs)| <= e
            then Through(Filled(m, n + |EncodePath(segs)|, prefix + Segments(segs), 0), h)
            else Stuck
  {
    FilledTwice(m, n, prefix, |EncodePath(segs)|, Segments(segs));
  }

  lemma {:induction false} RootRead(p: Descent, m: Config, e: int, n: Name)
    requires Follows(p) && Blank(p.code, m, e) && ProperName(n) && n.root
    requires Holds(p.code, m.ptr, EncodeName(n), e)
    ensures p.runs([NameStringRootPath], m) == NameRan(m, e, n)
  {
    RootTurn(p, m, e, EncodePath(n.segs));
    RunsOne(p, NameStringRootPath, m);
    NamePathRead(p, Filled(m, 1, [0x5C], 0), e, n.segs);
    PathBehind(m, e, 1, [0x5C], n.segs, PathHeight(n.segs));
  }

  lemma {:induction false} PrefixRead(p: Descent, m: Config, e: int, n: Name)
    requires Follows(p) && Blank(p.code, m, e) && ProperName(n) && n.ups > 0
    requires Holds(p.code, m.ptr, EncodeName(n), e)
    ensures p.runs([NameStringPrefixPath], m) == NameRan(m, e, n)
  {
    CaretsSize(n.ups);
    HoldsParts(p.code, m.ptr, Carets(n.ups), EncodePath(n.segs), e);
    HoldsByte(p.code, m.ptr, Carets(n.ups), e, 0);
    RunsOne(p, NameStringPrefixPath, m);
    var d := Filled(m, n.ups, Carets(n.ups), 0);
    FilledBlank(p.code, m, e, n.ups, Carets(n.ups));
    PathBegins(p, d, e, n.segs);
    CaretsRead(p, m, e, n.ups);
    RunsThen(p, [PrefixPath], [NamePath], m);
    assert [PrefixPath] + [NamePath] == [PrefixPath, NamePath];
    NamePathRead(p, d, e, n.segs);
    PathBehind(m, e, n.ups, Carets(n.ups), n.segs, PathHeight(n.segs));
  }

  lemma {:induction false} PlainRead(p: Descent, m: Config, e: int, n: Name)
    requires Follows(p) && Blank(p.code, m, e) && ProperName(n) && !n.root && n.ups == 0
    requires Holds(p.code, m.ptr, EncodeName(n), e)
    ensures p.runs([PathState(n.segs)], m) == NameRan(m, e, n)
    ensures Holds(p.code, m.ptr, EncodePath(n.segs), e)
  {
    assert [] + EncodePath(n.segs) == EncodePath(n.segs) && [] + Segments(n.segs) == Segments(n.segs);
    PathRead(p, m, e, n.segs);
  }

  function NameState(n: Name): State {
    if n.root then NameStringRootPath else if n.ups > 0 then NameStringPrefixPath else PathState(n.segs)
  }

  lemma {:induction false} NameTells(p: Descent, m: Config, e: int, n: Name, x: State)
    requires Blank(p.code, m, e) && ProperName(n) && Holds(p.code, m.ptr, EncodeName(n), e)
    requires IsPathState(x) || x.NameStringRootPath? || x.NameStringPrefixPath?
    ensures Tells(p.code, m, x, NameState(n))
  {
    if n.root {
      HoldsByte(p.code, m.ptr, EncodeName(n), e, 0);
    } else if n.ups > 0 {
      CaretsSize(n.ups);
      HoldsByte(p.code, m.ptr, EncodeName(n), e, 0);
    } else {
      assert [] + EncodePath(n.segs) == EncodePath(n.segs);
      PathTells(p, m, e, n.segs, x);
    }
  }

  lemma {:induction false} NameIsPicked(p: Descent, m: Config, e: int, n: Name, choices: seq<State>)
    requires Blank(p.code, m, e) && ProperName(n) && Holds(p.code, m.ptr, EncodeName(n), e)
    requires NameState(n) in choices
    requires forall k :: 0 <= k < |choices| ==>
               IsPathState(choices[k]) || choices[k].NameStringRootPath? || choices[k].NameStringPrefixPath?
    ensures Pick(p.code, m, choices) == Take(NameState(n))
  {
    forall k | 0 <= k < |choices| ensures Tells(p.code, m, choices[k], NameState(n)) {
      NameTells(p, m, e, n, choices[k]);
    }
    OneIsPicked(p.code, m, choices, NameState(n));
  }

  lemma {:induction false} NameStateRead(p: Descent, m: Config, e: int, n: Name)
    requires Follows(p) && Blank(p.code, m, e) && ProperName(n) && Holds(p.code, m.ptr, EncodeName(n), e)
    ensures p.runs([NameState(n)], m) == NameRan(m, e, n)
  {
    if n.root { RootRead(p, m, e, n); }
    else if n.ups > 0 { PrefixRead(p, m, e, n); }
    else { PlainRead(p, m, e, n); }
  }

  lemma NameChoices(s: State)
    requires IsPathState(s) || s.NameStringRootPath? || s.NameStringPrefixPath?
    ensures RuleOf(NameString).action.AddOneOf?
    ensures var choices := RuleOf(NameString).action.choices;
            && RuleOf(NameString) == Rule(Always, NewBlock(Stay), NoConsumer, AddOneOf(choices)) && s in choices
            && forall k :: 0 <= k < |choices| ==>
               IsPathState(choices[k]) || choices[k].NameStringRootPath? || choices[k].NameStringPrefixPath?
  {
  }

  lemma {:induction false} NameTurn(p: Descent, c: Config, e: int, n: Name, m: Config)
    requires Ready(p.code, c, e) && ProperName(n) && Holds(p.code, c.ptr, EncodeName(n), e)
    requires m == Create(c, NameString, NewBlock(Stay)) && m.ptr == c.ptr && Blank(p.code, m, e)
    ensures Step(p.code, c, NameString) == Next(m, [NameState(n)])
  {
    NameChoices(NameState(n));
    var choices := RuleOf(NameString).action.choices;
    NameIsPicked(p, m, e, n, choices);
    NewChoiceTurn(p.code, c, NameString, Stay, choices, m, NameState(n));
  }

  /** A name is read as the block that holds its text, or refused if its last segment ends the section. */
  lemma {:induction false} NameRead(p: Descent, c: Config, e: int, n: Name) returns (d: Config)
    requires Follows(p) && Ready(p.code, c, e) && ProperName(n) && Holds(p.code, c.ptr, EncodeName(n), e)
    ensures n.segs == [] || c.ptr + |EncodeName(n)| <= e ==>
              && Reads(p, [NameString], c, e, d, e, NameHeight(n), [NameTree(n)])
              && d.ptr == c.ptr + |EncodeName(n)|
    ensures n.segs != [] && c.ptr + |EncodeName(n)| > e ==> p.runs([NameString], c) == Stuck
  {
    var m := Creates(p.code, c, e, NameString, Stay);
    NameStateRead(p, m, e, n);
    RunsOne(p, NameString, c);
    NameTurn(p, c, e, n, m);
    d := Filled(m, |EncodeName(n)|, NameText(n), 0);
    NameFills(p.code, c, e, m, |EncodeName(n)|, NameText(n));
  }

  lemma {:induction false} NameFills(code: seq<byte>, c: Config, e: int, m: Config, k: nat, text: seq<byte>)
    requires Free(c) && Ready(code, m, e) && m.actual == |c.blocks| && m.ptr + k <= |code| && m.dir == Stay
    requires m.blocks[m.actual].text == [] && m.blocks[m.actual].value == 0 && Grows(c, m, [Leaf(NameString, [], 0)])
    ensures var w := Filled(m, k, text, 0);
            Ready(code, w, e) && Grows(c, w, [Leaf(NameString, text, 0)])
  {
    assert m.(dir := Stay) == m && [] + text == text;
    Fills(code, c, e, NameString, m, k, text, 0);
    assert Filled(m, k, text, 0).(dir := Stay) == Filled(m, k, text, 0);
  }
}
