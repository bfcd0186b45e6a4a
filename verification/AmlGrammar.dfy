/** The rule table that is the grammar of the AML parser, and what its termination rests on.
    Source: source/kernel/firmware/acpi/aml/aml_definition.c */
module AmlGrammar {

  /** The states some rule can push. `Nothing` occurs only as an alternative. */
  datatype State =
    | TermList | TermListEntry | TermObj | TermArg
    | DefScope | DefMethod | MethodFlags | PkgLength
    | NameString | NameStringRootPath | NameStringPrefixPath | PrefixPath | NamePath | NameSeg
    | DualNamePath | MultiNamePath | NullName
    | DefOpRegion | RegionSpace | RegionOffset | RegionLen | WordConst | OneOp
    | DefField | FieldFlags | FieldList | FieldListElement | FieldElement | NamedField
    | DefDevice | DefToHexString | Operand | Target
    | MoveLeft | Nothing

  datatype Condition = Always | Byte(value: nat) | ExtByte(value: nat) | LeadNameChar

  /** Where the next block is linked: below the current block or behind it. */
  datatype Direction = Right | Stay

  datatype Creation = NoBlock | NewBlock(after: Direction)

  /** The consumer called for a state. */
  datatype Consumer =
    | NoConsumer | ReadPkgLength | ReadRootChar | ReadPrefixPath | ReadNameSeg | ReadMultiNamePath
    | ReadRegionSpace | ReadWordConst | ReadOneOp | ReadFieldFlags | ReadMethodFlags
    | SkipOpcode | SkipExtOpcode

  datatype Action = Finish | AddStates(states: seq<State>) | AddOneOf(choices: seq<State>) | CloseSection

  datatype Rule = Rule(condition: Condition, creation: Creation, consumer: Consumer, action: Action)

  function RuleOf(s: State): Rule {
    match s
    case TermList => Rule(Always, NoBlock, NoConsumer, AddOneOf([TermListEntry, Nothing]))
    case TermListEntry => Rule(Always, NoBlock, NoConsumer, AddStates([TermObj, TermList]))
    case TermObj =>
      Rule(Always, NoBlock, NoConsumer,
           AddOneOf([DefScope, DefOpRegion, DefMethod, DefField, DefDevice, DefToHexString]))
    case TermArg => Rule(Always, NoBlock, NoConsumer, AddOneOf([DefToHexString, WordConst, OneOp]))
    case DefScope =>
      Rule(Byte(0x10), NewBlock(Right), SkipOpcode, AddStates([PkgLength, NameString, TermList, MoveLeft]))
    case DefMethod =>
      Rule(Byte(0x14), NewBlock(Right), SkipOpcode, AddStates([PkgLength, NameString, MethodFlags, TermList, MoveLeft]))
    case MethodFlags => Rule(Always, NewBlock(Stay), ReadMethodFlags, Finish)
    case PkgLength => Rule(Always, NewBlock(Stay), ReadPkgLength, Finish)
    case NameString =>
      Rule(Always, NewBlock(Stay), NoConsumer,
           AddOneOf([NameStringRootPath, NameStringPrefixPath, NameSeg, DualNamePath, MultiNamePath, NullName]))
    case NameStringRootPath => Rule(Byte(0x5C), NoBlock, ReadRootChar, AddStates([NamePath]))
    case NameStringPrefixPath => Rule(Byte(0x5E), NoBlock, NoConsumer, AddStates([PrefixPath, NamePath]))
    case PrefixPath => Rule(Byte(0x5E), NoBlock, ReadPrefixPath, AddOneOf([PrefixPath, Nothing]))
    case NamePath => Rule(Always, NoBlock, NoConsumer, AddOneOf([NameSeg, DualNamePath, MultiNamePath, NullName]))
    case NameSeg => Rule(LeadNameChar, NoBlock, ReadNameSeg, Finish)
    case DualNamePath => Rule(Byte(0x2E), NoBlock, SkipOpcode, AddStates([NameSeg, NameSeg]))
    case MultiNamePath => Rule(Byte(0x2F), NoBlock, ReadMultiNamePath, Finish)
    case NullName => Rule(Byte(0x00), NoBlock, SkipOpcode, Finish)
    case DefOpRegion =>
      Rule(ExtByte(0x80), NewBlock(Right), SkipExtOpcode,
           AddStates([NameString, RegionSpace, RegionOffset, RegionLen, MoveLeft]))
    case RegionSpace => Rule(Always, NewBlock(Stay), ReadRegionSpace, Finish)
    case RegionOffset => Rule(Always, NewBlock(Right), NoConsumer, AddStates([TermArg, MoveLeft]))
    case RegionLen => Rule(Always, NewBlock(Right), NoConsumer, AddStates([TermArg, MoveLeft]))
    case WordConst => Rule(Byte(0x0B), NewBlock(Stay), ReadWordConst, Finish)
    case OneOp => Rule(Byte(0x01), NewBlock(Stay), ReadOneOp, Finish)
    case DefField =>
      Rule(ExtByte(0x81), NewBlock(Right), SkipExtOpcode,
           AddStates([PkgLength, NameString, FieldFlags, FieldList, MoveLeft]))
    case FieldFlags => Rule(Always, NewBlock(Stay), ReadFieldFlags, Finish)
    case FieldList => Rule(Always, NoBlock, NoConsumer, AddOneOf([FieldListElement, Nothing]))
    case FieldListElement => Rule(Always, NoBlock, NoConsumer, AddStates([FieldElement, FieldList]))
    case FieldElement => Rule(Always, NoBlock, NoConsumer, AddOneOf([NamedField]))
    case NamedField => Rule(LeadNameChar, NewBlock(Right), NoConsumer, AddStates([NameSeg, PkgLength, MoveLeft]))
    case DefDevice =>
      Rule(ExtByte(0x82), NewBlock(Right), SkipExtOpcode, AddStates([PkgLength, NameString, TermList, MoveLeft]))
    case DefToHexString => Rule(Byte(0x98), NewBlock(Right), SkipOpcode, AddStates([Operand, Target, MoveLeft]))
    case Operand => Rule(Always, NewBlock(Right), NoConsumer, AddStates([TermArg, MoveLeft]))
    case Target => Rule(Always, NewBlock(Right), NoConsumer, AddStates([TermArg, MoveLeft]))
    case MoveLeft => Rule(Always, NoBlock, NoConsumer, CloseSection)
    case Nothing => Rule(Always, NoBlock, NoConsumer, Finish)
  }

  // ----- what the table promises about progress

  /** A state that cannot be left without consuming at least one byte. */
  predicate MustConsume(s: State) {
    !(s.TermList? || s.FieldList? || s.MoveLeft? || s.Nothing?)
  }

  /** Bounds how many states in a row can be replaced without consuming a byte. */
  function Rank(s: State): nat {
    match s
    case TermList => 8
    case FieldList => 8
    case TermListEntry => 7
    case FieldListElement => 7
    case RegionOffset => 6
    case RegionLen => 6
    case Operand => 6
    case Target => 6
    case TermObj => 5
    case TermArg => 5
    case FieldElement => 5
    case NamedField => 4
    case NameString => 4
    case NameStringPrefixPath => 3
    case NamePath => 3
    case _ => 1
  }

  predicate ChoiceProgress(s: State, choice: State) {
    if choice.Nothing? then !MustConsume(s) else MustConsume(choice) && Rank(choice) < Rank(s)
  }

  /** The progress one rule makes when its consumer is absent. */
  predicate RuleProgress(s: State) {
    var rule := RuleOf(s);
    rule.consumer.NoConsumer? ==>
      match rule.action
      case AddStates(states) => states != [] && MustConsume(states[0]) && MustConsume(s) && Rank(states[0]) < Rank(s)
      case AddOneOf(choices) =>
        forall k :: 0 <= k < |choices| ==> ChoiceProgress(s, choices[k])
      case Finish => s.Nothing?
      case CloseSection => s.MoveLeft?
  }

  lemma TermListsProgress()
    ensures RuleProgress(TermList)
  {
  }

  lemma FieldListsProgress()
    ensures RuleProgress(FieldList) && RuleProgress(FieldElement)
  {
  }

  lemma TermsProgress()
    ensures RuleProgress(TermObj)
  {
    assert ChoiceProgress(TermObj, DefScope) && ChoiceProgress(TermObj, DefOpRegion);
    assert ChoiceProgress(TermObj, DefMethod) && ChoiceProgress(TermObj, DefField);
    assert ChoiceProgress(TermObj, DefDevice) && ChoiceProgress(TermObj, DefToHexString);
  }

  lemma ArgumentsProgress()
    ensures RuleProgress(TermArg)
  {
  }

  lemma PathsProgress()
    ensures RuleProgress(NamePath)
  {
  }

  lemma NamesProgress()
    ensures RuleProgress(NameString)
  {
    assert ChoiceProgress(NameString, NameStringRootPath) && ChoiceProgress(NameString, NameStringPrefixPath);
    assert ChoiceProgress(NameString, NameSeg) && ChoiceProgress(NameString, DualNamePath);
    assert ChoiceProgress(NameString, MultiNamePath) && ChoiceProgress(NameString, NullName);
  }

  lemma OpeningRulesProgress(s: State)
    requires s.TermListEntry? || s.FieldListElement? || s.NameStringPrefixPath? || s.NamedField?
    ensures RuleProgress(s)
  {
  }

  lemma TermHolderRulesProgress(s: State)
    requires s.RegionOffset? || s.RegionLen? || s.Operand? || s.Target?
    ensures RuleProgress(s)
  {
  }

  lemma TableMakesProgress(s: State)
    ensures RuleProgress(s)
  {
    match s {
      case TermList => TermListsProgress();
      case FieldList => FieldListsProgress();
      case FieldElement => FieldListsProgress();
      case TermObj => TermsProgress();
      case TermArg => ArgumentsProgress();
      case NamePath => PathsProgress();
      case NameString => NamesProgress();
      case TermListEntry => OpeningRulesProgress(s);
      case FieldListElement => OpeningRulesProgress(s);
      case NameStringPrefixPath => OpeningRulesProgress(s);
      case NamedField => OpeningRulesProgress(s);
      case RegionOffset => TermHolderRulesProgress(s);
      case RegionLen => TermHolderRulesProgress(s);
      case Operand => TermHolderRulesProgress(s);
      case Target => TermHolderRulesProgress(s);
      case _ =>
    }
  }

  // ----- what the table promises about sections

  function Closings(states: seq<State>): nat {
    if states == [] then 0 else (if states[0].MoveLeft? then 1 else 0) + Closings(states[1..])
  }

  lemma {:induction false} ClosingsConcat(a: seq<State>, b: seq<State>)
    ensures Closings(a + b) == Closings(a) + Closings(b)
  {
    if a == [] {
      assert a + b == b;
    } else {
      assert (a + b)[1..] == a[1..] + b;
      ClosingsConcat(a[1..], b);
    }
  }

  lemma {:induction false} ClosingsBound(a: seq<State>)
    ensures Closings(a) <= |a|
  {
    if a != [] {
      ClosingsBound(a[1..]);
    }
  }

  /** A rule that opens a section pushes exactly one state that closes it, and only such rules do. */
  predicate RuleBalanced(s: State) {
    var rule := RuleOf(s);
    match rule.action
    case AddStates(states) => Closings(states) == if rule.creation == NewBlock(Right) then 1 else 0
    case AddOneOf(choices) => rule.creation != NewBlock(Right) && MoveLeft !in choices
    case Finish => rule.creation != NewBlock(Right)
    case CloseSection => s.MoveLeft? && rule.creation == NoBlock
  }

  predicate PushesScope(s: State) {
    s.DefScope? || s.DefMethod? || s.DefDevice?
  }

  predicate PushesObject(s: State) {
    s.DefOpRegion? || s.DefField? || s.DefToHexString? || s.NamedField?
  }

  lemma ScopesAreBalanced(s: State)
    requires PushesScope(s)
    ensures RuleBalanced(s)
  {
    Unroll(RuleOf(s).action.states, |RuleOf(s).action.states|);
  }

  lemma RegionsAreBalanced()
    ensures RuleBalanced(DefOpRegion)
  {
    Unroll([NameString, RegionSpace, RegionOffset, RegionLen, MoveLeft], 5);
  }

  lemma FieldsAreBalanced()
    ensures RuleBalanced(DefField)
  {
    Unroll([PkgLength, NameString, FieldFlags, FieldList, MoveLeft], 5);
  }

  lemma HexStringsAreBalanced()
    ensures RuleBalanced(DefToHexString)
  {
    Unroll([Operand, Target, MoveLeft], 3);
  }

  lemma NamedFieldsAreBalanced()
    ensures RuleBalanced(NamedField)
  {
    Unroll([NameSeg, PkgLength, MoveLeft], 3);
  }

  lemma ObjectsAreBalanced(s: State)
    requires PushesObject(s)
    ensures RuleBalanced(s)
  {
    RegionsAreBalanced();
    FieldsAreBalanced();
    HexStringsAreBalanced();
    NamedFieldsAreBalanced();
  }

  lemma OtherListsAreBalanced(s: State)
    requires RuleOf(s).action.AddStates? && !PushesScope(s) && !PushesObject(s)
    ensures RuleBalanced(s)
  {
    Unroll(RuleOf(s).action.states, |RuleOf(s).action.states|);
  }

  lemma TableIsBalanced(s: State)
    ensures RuleBalanced(s)
  {
    if PushesScope(s) {
      ScopesAreBalanced(s);
    } else if PushesObject(s) {
      ObjectsAreBalanced(s);
    } else if RuleOf(s).action.AddStates? {
      OtherListsAreBalanced(s);
    }
  }

  lemma Unroll(a: seq<State>, n: nat)
    requires n == |a| && 1 <= n <= 5
    ensures Closings(a) == CloseOne(a, 0) + CloseOne(a, 1) + CloseOne(a, 2) + CloseOne(a, 3) + CloseOne(a, 4)
  {
    assert Closings(a) == CloseOne(a, 0) + Closings(a[1..]);
    if n > 1 { assert Closings(a[1..]) == CloseOne(a, 1) + Closings(a[1..][1..]); assert a[1..][1..] == a[2..]; }
    if n > 2 { assert Closings(a[2..]) == CloseOne(a, 2) + Closings(a[2..][1..]); assert a[2..][1..] == a[3..]; }
    if n > 3 { assert Closings(a[3..]) == CloseOne(a, 3) + Closings(a[3..][1..]); assert a[3..][1..] == a[4..]; }
    if n > 4 { assert Closings(a[4..]) == CloseOne(a, 4); }
  }

  function CloseOne(a: seq<State>, k: nat): nat {
    if k < |a| && a[k].MoveLeft? then 1 else 0
  }
}
