/** A parse of n bytes takes at most linearly many turns.
    Source: source/kernel/firmware/acpi/aml/main.c:247-445 */
module AmlBounds {
  import opened AmlGrammar
  import opened AmlMachine
  import opened AmlDescent

  /** What one byte of code is worth. */
  const PER_BYTE: int := 5

  /** What a state on the stack still costs; a state that must consume is paid for by its byte. */
  function Charge(s: State): int {
    match s
    case TermListEntry => 4 - PER_BYTE
    case FieldListElement => 4 - PER_BYTE
    case RegionOffset => 4 - PER_BYTE
    case RegionLen => 4 - PER_BYTE
    case Operand => 4 - PER_BYTE
    case Target => 4 - PER_BYTE
    case TermObj => 2 - PER_BYTE
    case TermArg => 2 - PER_BYTE
    case FieldElement => 2 - PER_BYTE
    case NameString => 2 - PER_BYTE
    case NamePath => 2 - PER_BYTE
    case TermList => 1
    case FieldList => 1
    case MoveLeft => 1
    case Nothing => 1
    case _ => 1 - PER_BYTE
  }

  function Charges(stack: seq<State>): int {
    if stack == [] then 0 else Charge(stack[0]) + Charges(stack[1..])
  }

  lemma {:induction false} ChargesConcat(a: seq<State>, b: seq<State>)
    ensures Charges(a + b) == Charges(a) + Charges(b)
  {
    if a == [] {
      assert a + b == b;
    } else {
      assert (a + b)[1..] == a[1..] + b;
      ChargesConcat(a[1..], b);
    }
  }

  lemma {:induction false} ChargesAtLeast(stack: seq<State>)
    ensures Charges(stack) >= (1 - PER_BYTE) * |stack|
  {
    if stack != [] {
      ChargesAtLeast(stack[1..]);
    }
  }

  function Potential(code: seq<byte>, stack: seq<State>, c: Config): int {
    PER_BYTE * (|code| - c.ptr) + Charges(stack)
  }

  /** A rule costs more than the states it pushes, up to the byte its consumer takes. */
  predicate RulePays(s: State) {
    var rule := RuleOf(s);
    var credit := if rule.consumer.NoConsumer? then 0 else PER_BYTE;
    match rule.action
    case AddStates(states) => Charge(s) + credit >= 1 + Charges(states)
    case AddOneOf(choices) =>
      forall k :: 0 <= k < |choices| ==>
        Charge(s) + credit >= 1 + (if choices[k].Nothing? then 0 else Charge(choices[k]))
    case Finish => Charge(s) + credit >= 1
    case CloseSection => Charge(s) >= 1
  }

  function ChargeAt(a: seq<State>, k: nat): int {
    if k < |a| then Charge(a[k]) else 0
  }

  lemma {:induction false} UnrollCharges(a: seq<State>)
    requires 1 <= |a| <= 5
    ensures Charges(a) == ChargeAt(a, 0) + ChargeAt(a, 1) + ChargeAt(a, 2) + ChargeAt(a, 3) + ChargeAt(a, 4)
  {
    assert Charges(a) == ChargeAt(a, 0) + Charges(a[1..]);
    if |a| > 1 { assert Charges(a[1..]) == ChargeAt(a, 1) + Charges(a[1..][1..]); assert a[1..][1..] == a[2..]; }
    if |a| > 2 { assert Charges(a[2..]) == ChargeAt(a, 2) + Charges(a[2..][1..]); assert a[2..][1..] == a[3..]; }
    if |a| > 3 { assert Charges(a[3..]) == ChargeAt(a, 3) + Charges(a[3..][1..]); assert a[3..][1..] == a[4..]; }
    if |a| > 4 { assert Charges(a[4..]) == ChargeAt(a, 4); }
  }

  lemma {:induction false} ScopesPay()
    ensures RulePays(DefScope)
  {
    UnrollCharges([PkgLength, NameString, TermList, MoveLeft]);
  }

  lemma {:induction false} MethodsPay()
    ensures RulePays(DefMethod)
  {
    UnrollCharges([PkgLength, NameString, MethodFlags, TermList, MoveLeft]);
  }

  lemma {:induction false} DevicesPay()
    ensures RulePays(DefDevice)
  {
    UnrollCharges([PkgLength, NameString, TermList, MoveLeft]);
  }

  lemma {:induction false} RegionsCharge()
    ensures Charges([NameString, RegionSpace, RegionOffset, RegionLen, MoveLeft]) == 12 - 4 * PER_BYTE
  {
    UnrollCharges([NameString, RegionSpace, RegionOffset, RegionLen, MoveLeft]);
  }

  lemma {:induction false} RegionsPay()
    ensures RulePays(DefOpRegion)
  {
    RegionsCharge();
  }

  lemma {:induction false} FieldsCharge()
    ensures Charges([PkgLength, NameString, FieldFlags, FieldList, MoveLeft]) == 6 - 3 * PER_BYTE
  {
    UnrollCharges([PkgLength, NameString, FieldFlags, FieldList, MoveLeft]);
  }

  lemma {:induction false} FieldsPay()
    ensures RulePays(DefField)
  {
    FieldsCharge();
  }

  lemma {:induction false} HexStringsPay()
    ensures RulePays(DefToHexString)
  {
    UnrollCharges([Operand, Target, MoveLeft]);
  }

  lemma {:induction false} NamedFieldsCharge()
    ensures Charges([NameSeg, PkgLength, MoveLeft]) == 3 - 2 * PER_BYTE
  {
    UnrollCharges([NameSeg, PkgLength, MoveLeft]);
  }

  lemma {:induction false} NamedFieldsPay()
    ensures RulePays(NamedField)
  {
    NamedFieldsCharge();
  }

  lemma {:induction false} OffsetsPay()
    ensures RulePays(RegionOffset)
  {
    UnrollCharges([TermArg, MoveLeft]);
  }

  lemma {:induction false} LengthsPay()
    ensures RulePays(RegionLen)
  {
    UnrollCharges([TermArg, MoveLeft]);
  }

  lemma {:induction false} OperandsPay()
    ensures RulePays(Operand)
  {
    UnrollCharges([TermArg, MoveLeft]);
  }

  lemma {:induction false} TargetsPay()
    ensures RulePays(Target)
  {
    UnrollCharges([TermArg, MoveLeft]);
  }

  lemma {:induction false} TermEntriesPay()
    ensures RulePays(TermListEntry)
  {
    UnrollCharges([TermObj, TermList]);
  }

  lemma {:induction false} FieldEntriesPay()
    ensures RulePays(FieldListElement)
  {
    UnrollCharges([FieldElement, FieldList]);
  }

  lemma {:induction false} RootPathsPay()
    ensures RulePays(NameStringRootPath)
  {
    UnrollCharges([NamePath]);
  }

  lemma {:induction false} PrefixedPathsPay()
    ensures RulePays(NameStringPrefixPath)
  {
    UnrollCharges([PrefixPath, NamePath]);
  }

  lemma {:induction false} DualPathsPay()
    ensures RulePays(DualNamePath)
  {
    UnrollCharges([NameSeg, NameSeg]);
  }

  lemma {:induction false} TermsPay()
    ensures RulePays(TermObj)
  {
  }

  lemma {:induction false} NamesPay()
    ensures RulePays(NameString)
  {
  }

  lemma {:induction false} PathsPay()
    ensures RulePays(NamePath)
  {
  }

  lemma {:induction false} TermListsPay()
    ensures RulePays(TermList)
  {
  }

  lemma {:induction false} FieldListsPay()
    ensures RulePays(FieldList)
  {
  }

  lemma {:induction false} ElementsPay()
    ensures RulePays(FieldElement)
  {
  }

  lemma {:induction false} ArgumentsPay()
    ensures RulePays(TermArg)
  {
  }

  lemma {:induction false} PrefixesPay()
    ensures RulePays(PrefixPath)
  {
  }

  lemma {:induction false} TablePays(s: State)
    ensures RulePays(s)
  {
    match s {
      case DefScope => ScopesPay();
      case DefMethod => MethodsPay();
      case DefDevice => DevicesPay();
      case DefOpRegion => RegionsPay();
      case DefField => FieldsPay();
      case DefToHexString => HexStringsPay();
      case NamedField => NamedFieldsPay();
      case RegionOffset => OffsetsPay();
      case RegionLen => LengthsPay();
      case Operand => OperandsPay();
      case Target => TargetsPay();
      case TermListEntry => TermEntriesPay();
      case FieldListElement => FieldEntriesPay();
      case NameStringRootPath => RootPathsPay();
      case NameStringPrefixPath => PrefixedPathsPay();
      case DualNamePath => DualPathsPay();
      case TermObj => TermsPay();
      case NameString => NamesPay();
      case NamePath => PathsPay();
      case TermList => TermListsPay();
      case FieldList => FieldListsPay();
      case FieldElement => ElementsPay();
      case TermArg => ArgumentsPay();
      case PrefixPath => PrefixesPay();
      case _ =>
    }
  }

  /** What is picked among the alternatives costs no more than the dearest of them. */
  lemma {:induction false} PickPays(code: seq<byte>, c: Config, choices: seq<State>, limit: int)
    requires WellFormed(code, c)
    requires forall k :: 0 <= k < |choices| ==> limit >= 1 + (if choices[k].Nothing? then 0 else Charge(choices[k]))
    ensures var r := Act(code, c, AddOneOf(choices));
            r.Next? ==> limit >= 1 + Charges(r.push)
  {
    var r := Act(code, c, AddOneOf(choices));
    if r.Next? {
      var picked := Pick(code, c, choices);
      if picked.Take? {
        assert r.push[1..] == [] && Charges(r.push) == Charge(r.push[0]);
      }
    }
  }

  lemma {:induction false} ActPays(code: seq<byte>, c: Config, s: State)
    requires WellFormed(code, c) && RulePays(s)
    ensures var r := Act(code, c, RuleOf(s).action);
            var credit := if RuleOf(s).consumer.NoConsumer? then 0 else PER_BYTE;
            r.Next? ==> Charge(s) + credit >= 1 + Charges(r.push)
  {
    var rule := RuleOf(s);
    var limit := Charge(s) + (if rule.consumer.NoConsumer? then 0 else PER_BYTE);
    match rule.action {
      case AddOneOf(choices) => PickPays(code, c, choices, limit);
      case _ =>
    }
  }

  /** Every turn lowers the potential. */
  lemma {:induction false} TurnLowersPotential(code: seq<byte>, stack: seq<State>, c: Config)
    requires WellFormed(code, c) && stack != [] && Step(code, c, stack[0]).Next?
    ensures var r := Step(code, c, stack[0]);
            Potential(code, r.push + stack[1..], r.cfg) < Potential(code, stack, c)
  {
    var s := stack[0];
    var rule := RuleOf(s);
    var r := Step(code, c, s);
    var created := Create(c, s, rule.creation);
    CreateOk(c, s, rule.creation);
    var taken := Consume(code, created, rule.consumer);
    ConsumeAdvances(code, created, rule.consumer);
    ApplyOk(created, rule.consumer, taken);
    var applied := Apply(created, rule.consumer, taken);
    ActKeepsPtr(code, applied, rule.action);
    TablePays(s);
    ActPays(code, applied, s);
    ChargesConcat(r.push, stack[1..]);
  }

  /** How many turns the parser takes. */
  function Turns(code: seq<byte>, stack: seq<State>, c: Config): nat
    requires WellFormed(code, c)
    decreases |code| - c.ptr, Weight(stack)
  {
    if stack == [] then 0
    else
      match Step(code, c, stack[0])
      case Fail(_, _) => 1
      case Next(d, push) =>
        TurnIsLighter(code, stack, c);
        if Overflows(stack, push) then 1 else 1 + Turns(code, push + stack[1..], d)
  }

  lemma {:induction false} TurnsBelowPotential(code: seq<byte>, stack: seq<State>, c: Config)
    requires WellFormed(code, c) && |stack| <= STACK_LIMIT
    ensures Turns(code, stack, c) <= Potential(code, stack, c) + (PER_BYTE - 1) * STACK_LIMIT + 1
    ensures BoundedRun(code, stack, c).Done? ==> Turns(code, stack, c) <= Potential(code, stack, c)
    decreases |code| - c.ptr, Weight(stack)
  {
    ChargesAtLeast(stack);
    if stack != [] {
      TurnAlone(code, c, stack[0]);
      var r := Step(code, c, stack[0]);
      if r.Next? && !Overflows(stack, r.push) {
        TurnIsLighter(code, stack, c);
        TurnLowersPotential(code, stack, c);
        TurnsBelowPotential(code, r.push + stack[1..], r.cfg);
      }
    }
  }

  /** The parser stops on every byte string: after at most 5n + 1 turns if it accepts, and after at most
      5n + 4094 turns in any case. */
  lemma {:induction false} ParserStops(code: seq<byte>)
    requires code != []
    ensures Turns(code, [TermList], Start(code)) <= 5 * |code| + 4094
    ensures BoundedRun(code, [TermList], Start(code)).Done? ==> Turns(code, [TermList], Start(code)) <= 5 * |code| + 1
  {
    StartOk(code);
    TurnsBelowPotential(code, [TermList], Start(code));
    assert Charges([TermList]) == 1;
  }

  lemma {:induction false} StartOk(code: seq<byte>)
    requires code != []
    ensures WellFormed(code, Start(code))
  {
  }
}
