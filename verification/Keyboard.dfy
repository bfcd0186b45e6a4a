/** The PS/2 keyboard parser: a rule table for each scan code set, searched from its first row for every byte.
    Source: source/kernel/hardware/devices/human_input/ps2_keyboard.c:19-29, 160-182, 313-344, 453-460, 535-630 */
module Keyboard {

  type byte = b: int | 0 <= b < 256

  datatype CodeSet = Set1 | Set2 | Set3

  const START: nat := 0x01

  /** The arrays scan codes are looked up in: the plain one of the set and that of the codes behind E0. */
  datatype Table = Plain | Extended

  datatype How = Pressed | Released | PressedOrReleased

  datatype Rule =
    | Goto(state: nat, code: byte, next: nat)
    | PrintScreen(state: nat, code: byte, pressed: bool)
    | Pause(state: nat, code: byte)
    | Convert(state: nat, how: How, table: Table)

  /** The number of rows before the row that ends a table. */
  function Rows(set': CodeSet): nat {
    match set'
    case Set1 => 15
    case Set2 => 22
    case Set3 => 3
  }

  function Row1(k: nat): Rule {
    if k == 0 then Goto(START, 0xE1, 0xE1)
    else if k == 1 then Goto(0xE1, 0x1D, 0xE2)
    else if k == 2 then Goto(0xE2, 0x45, 0xE3)
    else if k == 3 then Goto(0xE3, 0xE1, 0xE4)
    else if k == 4 then Goto(0xE4, 0x9D, 0xE5)
    else if k == 5 then Pause(0xE5, 0xC5)
    else if k == 6 then Goto(START, 0xE0, 0xE0)
    else if k == 7 then Goto(0xE0, 0x2A, 0xE02A)
    else if k == 8 then Goto(0xE02A, 0xE0, 0xE02AE0)
    else if k == 9 then PrintScreen(0xE02AE0, 0x37, true)
    else if k == 10 then Goto(0xE0, 0xB7, 0xE0B7)
    else if k == 11 then Goto(0xE0B7, 0xE0, 0xE0B7E0)
    else if k == 12 then PrintScreen(0xE0B7E0, 0xAA, false)
    else if k == 13 then Convert(0xE0, PressedOrReleased, Extended)
    else Convert(START, PressedOrReleased, Plain)
  }

  function Row2(k: nat): Rule {
    if k == 0 then Goto(START, 0xE1, 0xE1)
    else if k == 1 then Goto(0xE1, 0x14, 0xE2)
    else if k == 2 then Goto(0xE2, 0x77, 0xE3)
    else if k == 3 then Goto(0xE3, 0xE1, 0xE4)
    else if k == 4 then Goto(0xE4, 0xF0, 0xE5)
    else if k == 5 then Goto(0xE5, 0x14, 0xE6)
    else if k == 6 then Goto(0xE6, 0xF0, 0xE7)
    else if k == 7 then Pause(0xE7, 0x77)
    else if k == 8 then Goto(START, 0xE0, 0xE0)
    else if k == 9 then Goto(0xE0, 0x12, 0xE012)
    else if k == 10 then Goto(0xE012, 0xE0, 0xE012E0)
    else if k == 11 then PrintScreen(0xE012E0, 0x7C, true)
    else if k == 12 then Goto(0xE0, 0xF0, 0xE0F0)
    else if k == 13 then Goto(0xE0F0, 0x7C, 0xE0F07C)
    else if k == 14 then Goto(0xE0F07C, 0xE0, 0xE0F07CE0)
    else if k == 15 then Goto(0xE0F07CE0, 0xF0, 0xE0F07CE1)
    else if k == 16 then PrintScreen(0xE0F07CE1, 0x12, false)
    else if k == 17 then Convert(0xE0F0, Released, Extended)
    else if k == 18 then Convert(0xE0, Pressed, Extended)
    else if k == 19 then Goto(START, 0xF0, 0xF0)
    else if k == 20 then Convert(0xF0, Released, Plain)
    else Convert(START, Pressed, Plain)
  }

  function Row3(k: nat): Rule {
    if k == 0 then Goto(START, 0xF0, 0xF0)
    else if k == 1 then Convert(0xF0, Released, Plain)
    else Convert(START, Pressed, Plain)
  }

  function Row(set': CodeSet, k: nat): Rule {
    match set'
    case Set1 => Row1(k)
    case Set2 => Row2(k)
    case Set3 => Row3(k)
  }

  // ----- one byte

  datatype Key = Mapped(table: Table, code: nat) | PrintScreenKey | PauseKey

  datatype Report = Report(key: Key, pressed: bool)

  predicate Applies(rule: Rule, state: nat, b: byte) {
    rule.state == state && (rule.Convert? || rule.code == b)
  }

  datatype Result = Result(state: nat, reports: seq<Report>)

  function Perform(rule: Rule, b: byte): Result {
    match rule
    case Goto(_, _, next) => Result(next, [])
    case PrintScreen(_, _, pressed) => Result(START, [Report(PrintScreenKey, pressed)])
    case Pause(_, _) => Result(START, [Report(PauseKey, true), Report(PauseKey, false)])
    case Convert(_, Pressed, table) => Result(START, [Report(Mapped(table, b), true)])
    case Convert(_, Released, table) => Result(START, [Report(Mapped(table, b), false)])
    case Convert(_, PressedOrReleased, table) =>
      if b < 0x80 then Result(START, [Report(Mapped(table, b), true)])
      else Result(START, [Report(Mapped(table, b - 0x80), false)])
  }

  /** The first row from `k` on that applies decides; a byte no row applies to resets the parser. */
  function ParseFrom(set': CodeSet, state: nat, b: byte, k: nat): Result
    decreases Rows(set') - k
  {
    if k >= Rows(set') then Result(START, [])
    else if Applies(Row(set', k), state, b) then Perform(Row(set', k), b)
    else ParseFrom(set', state, b, k + 1)
  }

  function Parse(set': CodeSet, state: nat, bytes: seq<byte>): Result
    decreases |bytes|
  {
    if bytes == [] then Result(state, [])
    else
      var first := ParseFrom(set', state, bytes[0], 0);
      var rest := Parse(set', first.state, bytes[1..]);
      Result(rest.state, first.reports + rest.reports)
  }

  lemma {:induction false} FirstRowDecides(set': CodeSet, state: nat, b: byte, k: nat, r: nat)
    requires k <= r < Rows(set') && Applies(Row(set', r), state, b)
    requires forall i: nat :: k <= i < r ==> !Applies(Row(set', i), state, b)
    ensures ParseFrom(set', state, b, k) == Perform(Row(set', r), b)
    decreases r - k
  {
    if k < r { FirstRowDecides(set', state, b, k + 1, r); }
  }

  /** A byte that no row applies to is dropped, and the next one is parsed from the start. */
  lemma {:induction false} NoRowResets(set': CodeSet, state: nat, b: byte, k: nat)
    requires forall r: nat :: k <= r < Rows(set') ==> !Applies(Row(set', r), state, b)
    ensures ParseFrom(set', state, b, k) == Result(START, [])
    decreases Rows(set') - k
  {
    if k < Rows(set') { NoRowResets(set', state, b, k + 1); }
  }

  lemma Assoc(a: seq<Report>, b: seq<Report>, c: seq<Report>)
    ensures (a + b) + c == a + (b + c)
  {
  }

  lemma {:induction false} ParseConcat(set': CodeSet, state: nat, a: seq<byte>, b: seq<byte>)
    ensures var first := Parse(set', state, a);
            var rest := Parse(set', first.state, b);
            Parse(set', state, a + b) == Result(rest.state, first.reports + rest.reports)
    decreases |a|
  {
    if a == [] {
      var rest := Parse(set', state, b);
      assert a + b == b && [] + rest.reports == rest.reports;
    } else {
      var one := ParseFrom(set', state, a[0], 0);
      ParseConcat(set', one.state, a[1..], b);
      assert (a + b)[1..] == a[1..] + b && (a + b)[0] == a[0];
      var first := Parse(set', one.state, a[1..]);
      Assoc(one.reports, first.reports, Parse(set', first.state, b).reports);
    }
  }

  // ----- what the keys send

  /** What happens at the keyboard. Pause has no release code: its press sends press and release at once. */
  datatype Stroke =
    | Plainly(code: byte, pressed: bool)
    | Extendedly(code: byte, pressed: bool)
    | PrintScreenStroke(pressed: bool)
    | PauseStroke

  /** The codes `ps2_keyboard_scancode_set1_map` names a key for, and so on for the other arrays. */
  predicate InPlain1(code: int) {
    0x01 <= code <= 0x53 || 0x57 <= code <= 0x58
  }

  predicate InExtended1(code: int) {
    code == 0x10 || code == 0x19 || 0x1C <= code <= 0x1D || 0x20 <= code <= 0x22 || code == 0x24 || code == 0x2E ||
    code == 0x30 || code == 0x32 || code == 0x35 || code == 0x38 || 0x47 <= code <= 0x49 || code == 0x4B ||
    code == 0x4D || 0x4F <= code <= 0x53 || 0x5B <= code <= 0x5F || code == 0x63 || 0x65 <= code <= 0x6D
  }

  predicate InPlain2(code: int) {
    code == 0x01 || 0x03 <= code <= 0x07 || 0x09 <= code <= 0x0E || 0x11 <= code <= 0x12 || 0x14 <= code <= 0x16 ||
    0x1A <= code <= 0x1E || 0x21 <= code <= 0x26 || 0x29 <= code <= 0x2E || 0x31 <= code <= 0x36 ||
    0x3A <= code <= 0x3E || 0x41 <= code <= 0x46 || 0x49 <= code <= 0x4E || code == 0x52 || 0x54 <= code <= 0x55 ||
    0x58 <= code <= 0x5B || code == 0x5D || code == 0x66 || code == 0x69 || 0x6B <= code <= 0x6C ||
    0x70 <= code <= 0x7E || code == 0x83
  }

  predicate InExtended2(code: int) {
    0x10 <= code <= 0x11 || 0x14 <= code <= 0x15 || code == 0x18 || 0x1F <= code <= 0x21 || code == 0x23 ||
    0x27 <= code <= 0x28 || code == 0x2B || 0x2F <= code <= 0x30 || code == 0x32 || code == 0x34 ||
    0x37 <= code <= 0x38 || 0x3A <= code <= 0x3B || 0x3F <= code <= 0x40 || code == 0x48 || code == 0x4A ||
    code == 0x4D || code == 0x50 || code == 0x5A || code == 0x5E || code == 0x69 || 0x6B <= code <= 0x6C ||
    0x70 <= code <= 0x72 || 0x74 <= code <= 0x75 || code == 0x7A || code == 0x7D
  }

  predicate InPlain3(code: int) {
    0x07 <= code <= 0x08 || 0x0D <= code <= 0x0F || 0x11 <= code <= 0x12 || 0x14 <= code <= 0x17 ||
    0x19 <= code <= 0x1F || 0x21 <= code <= 0x27 || 0x29 <= code <= 0x2F || 0x31 <= code <= 0x37 ||
    0x39 <= code <= 0x3F || 0x41 <= code <= 0x47 || 0x49 <= code <= 0x4F || code == 0x52 || 0x54 <= code <= 0x5C ||
    0x5E <= code <= 0x67 || 0x69 <= code <= 0x76 || 0x79 <= code <= 0x7A || 0x7C <= code <= 0x7E ||
    0x8B <= code <= 0x8D
  }

  /** The keyboard has such a key in this set. */
  predicate Possible(set': CodeSet, s: Stroke) {
    match s
    case Plainly(code, _) =>
      if set'.Set1? then InPlain1(code) else if set'.Set2? then InPlain2(code) else InPlain3(code)
    case Extendedly(code, _) => (set'.Set1? && InExtended1(code)) || (set'.Set2? && InExtended2(code))
    case PrintScreenStroke(_) => !set'.Set3?
    case PauseStroke => !set'.Set3?
  }

  /** The bytes a stroke sends. */
  function Encode(set': CodeSet, s: Stroke): seq<byte> {
    match s
    case Plainly(code, pressed) =>
      if pressed then [code] else if set'.Set1? then [(code + 0x80) % 256] else [0xF0, code]
    case Extendedly(code, pressed) =>
      if pressed then [0xE0, code] else if set'.Set1? then [0xE0, (code + 0x80) % 256] else [0xE0, 0xF0, code]
    case PrintScreenStroke(pressed) =>
      if set'.Set1? then if pressed then [0xE0, 0x2A, 0xE0, 0x37] else [0xE0, 0xB7, 0xE0, 0xAA]
      else if pressed then [0xE0, 0x12, 0xE0, 0x7C] else [0xE0, 0xF0, 0x7C, 0xE0, 0xF0, 0x12]
    case PauseStroke =>
      if set'.Set1? then [0xE1, 0x1D, 0x45, 0xE1, 0x9D, 0xC5]
      else [0xE1, 0x14, 0x77, 0xE1, 0xF0, 0x14, 0xF0, 0x77]
  }

  function Reported(s: Stroke): seq<Report> {
    match s
    case Plainly(code, pressed) => [Report(Mapped(Plain, code), pressed)]
    case Extendedly(code, pressed) => [Report(Mapped(Extended, code), pressed)]
    case PrintScreenStroke(pressed) => [Report(PrintScreenKey, pressed)]
    case PauseStroke => [Report(PauseKey, true), Report(PauseKey, false)]
  }

  // ----- the round trip

  /** A byte for which row `r` is the first to apply. */
  predicate DecidedBy(set': CodeSet, state: nat, b: byte, r: nat) {
    r < Rows(set') && Applies(Row(set', r), state, b) && forall i: nat :: i < r ==> !Applies(Row(set', i), state, b)
  }

  lemma {:induction false} ParseByte(set': CodeSet, state: nat, bytes: seq<byte>, r: nat)
    requires bytes != [] && DecidedBy(set', state, bytes[0], r)
    ensures var first := Perform(Row(set', r), bytes[0]);
            var rest := Parse(set', first.state, bytes[1..]);
            Parse(set', state, bytes) == Result(rest.state, first.reports + rest.reports)
  {
    FirstRowDecides(set', state, bytes[0], 0, r);
  }

  lemma {:induction false} ParseOne(set': CodeSet, state: nat, b: byte, r: nat)
    requires DecidedBy(set', state, b, r)
    ensures Parse(set', state, [b]) == Perform(Row(set', r), b)
  {
    ParseByte(set', state, [b], r);
    assert Perform(Row(set', r), b).reports + [] == Perform(Row(set', r), b).reports;
  }

  lemma {:induction false} ParseGoto(set': CodeSet, state: nat, b: byte, r: nat, rest: seq<byte>)
    requires DecidedBy(set', state, b, r) && Row(set', r).Goto?
    ensures Parse(set', state, [b] + rest) == Parse(set', Row(set', r).next, rest)
  {
    ParseByte(set', state, [b] + rest, r);
    assert ([b] + rest)[1..] == rest;
    var after := Parse(set', Row(set', r).next, rest);
    assert [] + after.reports == after.reports;
  }

  lemma {:induction false} PlainTrip1(code: byte, pressed: bool)
    requires InPlain1(code)
    ensures Parse(Set1, START, Encode(Set1, Plainly(code, pressed))) == Result(START, Reported(Plainly(code, pressed)))
  {
    assert code < 0x59;
    ParseOne(Set1, START, if pressed then code else code + 0x80, 14);
  }

  lemma PlainRows2(code: byte)
    requires InPlain2(code)
    ensures DecidedBy(Set2, START, code, 21) && DecidedBy(Set2, 0xF0, code, 20)
  {
    assert code < 0x90;
  }

  lemma ReleaseRows2()
    ensures DecidedBy(Set2, START, 0xF0, 19) && DecidedBy(Set2, START, 0xE0, 8) && DecidedBy(Set2, 0xE0, 0xF0, 12)
  {
  }

  lemma ExtendedRows2(code: byte)
    requires InExtended2(code)
    ensures DecidedBy(Set2, 0xE0, code, 18) && DecidedBy(Set2, 0xE0F0, code, 17)
  {
    assert code < 0x7E && code != 0x12 && code != 0x7C;
  }

  lemma ExtendedRows1(code: byte)
    requires InExtended1(code)
    ensures code < 0x80 && DecidedBy(Set1, 0xE0, code, 13) && DecidedBy(Set1, 0xE0, code + 0x80, 13)
  {
    assert code < 0x6E && code != 0x2A && code != 0x37;
  }

  lemma {:induction false} PlainTrip2(code: byte, pressed: bool)
    requires InPlain2(code)
    ensures Parse(Set2, START, Encode(Set2, Plainly(code, pressed))) == Result(START, Reported(Plainly(code, pressed)))
  {
    PlainRows2(code);
    ReleaseRows2();
    if pressed {
      ParseOne(Set2, START, code, 21);
    } else {
      ParseGoto(Set2, START, 0xF0, 19, [code]);
      ParseOne(Set2, 0xF0, code, 20);
      assert [0xF0, code] == [0xF0] + [code];
    }
  }

  lemma {:induction false} PlainTrip3(code: byte, pressed: bool)
    requires InPlain3(code)
    ensures Parse(Set3, START, Encode(Set3, Plainly(code, pressed))) == Result(START, Reported(Plainly(code, pressed)))
  {
    assert code < 0x90;
    if pressed {
      ParseOne(Set3, START, code, 2);
    } else {
      ParseGoto(Set3, START, 0xF0, 0, [code]);
      ParseOne(Set3, 0xF0, code, 1);
      assert [0xF0, code] == [0xF0] + [code];
    }
  }

  lemma {:induction false} EscapedByte1(b: byte)
    requires DecidedBy(Set1, 0xE0, b, 13)
    ensures Parse(Set1, START, [0xE0, b]) == Perform(Row(Set1, 13), b)
  {
    ParseGoto(Set1, START, 0xE0, 6, [b]);
    ParseOne(Set1, 0xE0, b, 13);
    assert [0xE0, b] == [0xE0] + [b];
  }

  lemma {:induction false} ExtendedTrip1(code: byte, pressed: bool)
    requires InExtended1(code)
    ensures Parse(Set1, START, Encode(Set1, Extendedly(code, pressed))) ==
            Result(START, Reported(Extendedly(code, pressed)))
  {
    ExtendedRows1(code);
    EscapedByte1(if pressed then code else code + 0x80);
  }

  lemma {:induction false} ExtendedPress2(code: byte)
    requires InExtended2(code)
    ensures Parse(Set2, START, [0xE0, code]) == Result(START, [Report(Mapped(Extended, code), true)])
  {
    ExtendedRows2(code);
    ReleaseRows2();
    ParseGoto(Set2, START, 0xE0, 8, [code]);
    ParseOne(Set2, 0xE0, code, 18);
    assert [0xE0, code] == [0xE0] + [code];
  }

  lemma {:induction false} ExtendedRelease2(code: byte)
    requires InExtended2(code)
    ensures Parse(Set2, START, [0xE0, 0xF0, code]) == Result(START, [Report(Mapped(Extended, code), false)])
  {
    ExtendedRows2(code);
    ReleaseRows2();
    ParseGoto(Set2, START, 0xE0, 8, [0xF0] + [code]);
    ParseGoto(Set2, 0xE0, 0xF0, 12, [code]);
    ParseOne(Set2, 0xE0F0, code, 17);
    assert [0xE0, 0xF0, code] == [0xE0] + ([0xF0] + [code]);
  }

  lemma {:induction false} PrintScreenPressEnd1()
    ensures Parse(Set1, 0xE02A, [0xE0, 0x37]) == Result(START, [Report(PrintScreenKey, true)])
  {
    ParseGoto(Set1, 0xE02A, 0xE0, 8, [0x37]);
    ParseOne(Set1, 0xE02AE0, 0x37, 9);
    assert [0xE0, 0x37] == [0xE0] + [0x37];
  }

  lemma {:induction false} PrintScreenPress1()
    ensures Parse(Set1, START, [0xE0, 0x2A, 0xE0, 0x37]) == Result(START, [Report(PrintScreenKey, true)])
  {
    ParseGoto(Set1, START, 0xE0, 6, [0x2A] + [0xE0, 0x37]);
    ParseGoto(Set1, 0xE0, 0x2A, 7, [0xE0, 0x37]);
    PrintScreenPressEnd1();
    assert [0xE0, 0x2A, 0xE0, 0x37] == [0xE0] + ([0x2A] + [0xE0, 0x37]);
  }

  lemma {:induction false} PrintScreenReleaseEnd1()
    ensures Parse(Set1, 0xE0B7, [0xE0, 0xAA]) == Result(START, [Report(PrintScreenKey, false)])
  {
    ParseGoto(Set1, 0xE0B7, 0xE0, 11, [0xAA]);
    ParseOne(Set1, 0xE0B7E0, 0xAA, 12);
    assert [0xE0, 0xAA] == [0xE0] + [0xAA];
  }

  lemma {:induction false} PrintScreenRelease1()
    ensures Parse(Set1, START, [0xE0, 0xB7, 0xE0, 0xAA]) == Result(START, [Report(PrintScreenKey, false)])
  {
    ParseGoto(Set1, START, 0xE0, 6, [0xB7] + [0xE0, 0xAA]);
    ParseGoto(Set1, 0xE0, 0xB7, 10, [0xE0, 0xAA]);
    PrintScreenReleaseEnd1();
    assert [0xE0, 0xB7, 0xE0, 0xAA] == [0xE0] + ([0xB7] + [0xE0, 0xAA]);
  }

  lemma {:induction false} PrintScreenPressEnd2()
    ensures Parse(Set2, 0xE012, [0xE0, 0x7C]) == Result(START, [Report(PrintScreenKey, true)])
  {
    ParseGoto(Set2, 0xE012, 0xE0, 10, [0x7C]);
    ParseOne(Set2, 0xE012E0, 0x7C, 11);
    assert [0xE0, 0x7C] == [0xE0] + [0x7C];
  }

  lemma {:induction false} PrintScreenPress2()
    ensures Parse(Set2, START, [0xE0, 0x12, 0xE0, 0x7C]) == Result(START, [Report(PrintScreenKey, true)])
  {
    ParseGoto(Set2, START, 0xE0, 8, [0x12] + [0xE0, 0x7C]);
    ParseGoto(Set2, 0xE0, 0x12, 9, [0xE0, 0x7C]);
    PrintScreenPressEnd2();
    assert [0xE0, 0x12, 0xE0, 0x7C] == [0xE0] + ([0x12] + [0xE0, 0x7C]);
  }

  lemma {:induction false} PrintScreenLast2()
    ensures Parse(Set2, 0xE0F07CE0, [0xF0, 0x12]) == Result(START, [Report(PrintScreenKey, false)])
  {
    ParseGoto(Set2, 0xE0F07CE0, 0xF0, 15, [0x12]);
    ParseOne(Set2, 0xE0F07CE1, 0x12, 16);
    assert [0xF0, 0x12] == [0xF0] + [0x12];
  }

  lemma {:induction false} PrintScreenReleaseEnd2()
    ensures Parse(Set2, 0xE0F0, [0x7C, 0xE0, 0xF0, 0x12]) == Result(START, [Report(PrintScreenKey, false)])
  {
    ParseGoto(Set2, 0xE0F0, 0x7C, 13, [0xE0] + [0xF0, 0x12]);
    ParseGoto(Set2, 0xE0F07C, 0xE0, 14, [0xF0, 0x12]);
    PrintScreenLast2();
    assert [0x7C, 0xE0, 0xF0, 0x12] == [0x7C] + ([0xE0] + [0xF0, 0x12]);
  }

  lemma {:induction false} PrintScreenRelease2()
    ensures Parse(Set2, START, [0xE0, 0xF0, 0x7C, 0xE0, 0xF0, 0x12]) == Result(START, [Report(PrintScreenKey, false)])
  {
    var rest := [0x7C, 0xE0, 0xF0, 0x12];
    ParseGoto(Set2, START, 0xE0, 8, [0xF0] + rest);
    ParseGoto(Set2, 0xE0, 0xF0, 12, rest);
    PrintScreenReleaseEnd2();
    assert [0xE0, 0xF0, 0x7C, 0xE0, 0xF0, 0x12] == [0xE0] + ([0xF0] + rest);
  }

  lemma {:induction false} PauseEnd1()
    ensures Parse(Set1, 0xE3, [0xE1, 0x9D, 0xC5]) == Result(START, Reported(PauseStroke))
  {
    ParseGoto(Set1, 0xE3, 0xE1, 3, [0x9D] + [0xC5]);
    ParseGoto(Set1, 0xE4, 0x9D, 4, [0xC5]);
    ParseOne(Set1, 0xE5, 0xC5, 5);
    assert [0xE1, 0x9D, 0xC5] == [0xE1] + ([0x9D] + [0xC5]);
  }

  lemma {:induction false} PauseTrip1()
    ensures Parse(Set1, START, Encode(Set1, PauseStroke)) == Result(START, Reported(PauseStroke))
  {
    var rest := [0xE1, 0x9D, 0xC5];
    ParseGoto(Set1, START, 0xE1, 0, [0x1D] + ([0x45] + rest));
    ParseGoto(Set1, 0xE1, 0x1D, 1, [0x45] + rest);
    ParseGoto(Set1, 0xE2, 0x45, 2, rest);
    PauseEnd1();
    assert [0xE1, 0x1D, 0x45, 0xE1, 0x9D, 0xC5] == [0xE1] + ([0x1D] + ([0x45] + rest));
  }

  lemma {:induction false} PauseLast2()
    ensures Parse(Set2, 0xE6, [0xF0, 0x77]) == Result(START, Reported(PauseStroke))
  {
    ParseGoto(Set2, 0xE6, 0xF0, 6, [0x77]);
    ParseOne(Set2, 0xE7, 0x77, 7);
    assert [0xF0, 0x77] == [0xF0] + [0x77];
  }

  lemma {:induction false} PauseEnd2()
    ensures Parse(Set2, 0xE4, [0xF0, 0x14, 0xF0, 0x77]) == Result(START, Reported(PauseStroke))
  {
    ParseGoto(Set2, 0xE4, 0xF0, 4, [0x14] + [0xF0, 0x77]);
    ParseGoto(Set2, 0xE5, 0x14, 5, [0xF0, 0x77]);
    PauseLast2();
    assert [0xF0, 0x14, 0xF0, 0x77] == [0xF0] + ([0x14] + [0xF0, 0x77]);
  }

  lemma {:induction false} PauseMiddle2()
    ensures Parse(Set2, 0xE2, [0x77, 0xE1, 0xF0, 0x14, 0xF0, 0x77]) == Result(START, Reported(PauseStroke))
  {
    var rest := [0xF0, 0x14, 0xF0, 0x77];
    ParseGoto(Set2, 0xE2, 0x77, 2, [0xE1] + rest);
    ParseGoto(Set2, 0xE3, 0xE1, 3, rest);
    PauseEnd2();
    assert [0x77, 0xE1, 0xF0, 0x14, 0xF0, 0x77] == [0x77] + ([0xE1] + rest);
  }

  lemma {:induction false} PauseTrip2()
    ensures Parse(Set2, START, Encode(Set2, PauseStroke)) == Result(START, Reported(PauseStroke))
  {
    var rest := [0x77, 0xE1, 0xF0, 0x14, 0xF0, 0x77];
    ParseGoto(Set2, START, 0xE1, 0, [0x14] + rest);
    ParseGoto(Set2, 0xE1, 0x14, 1, rest);
    PauseMiddle2();
    assert [0xE1, 0x14, 0x77, 0xE1, 0xF0, 0x14, 0xF0, 0x77] == [0xE1] + ([0x14] + rest);
  }

  lemma {:induction false} StrokeTrip(set': CodeSet, s: Stroke)
    requires Possible(set', s)
    ensures Parse(set', START, Encode(set', s)) == Result(START, Reported(s))
  {
    match s {
      case Plainly(code, pressed) =>
        match set' {
          case Set1 => PlainTrip1(code, pressed);
          case Set2 => PlainTrip2(code, pressed);
          case Set3 => PlainTrip3(code, pressed);
        }
      case Extendedly(code, pressed) =>
        if set'.Set1? { ExtendedTrip1(code, pressed); }
        else if pressed { ExtendedPress2(code); }
        else { ExtendedRelease2(code); }
      case PrintScreenStroke(pressed) =>
        if pressed {
          if set'.Set1? { PrintScreenPress1(); } else { PrintScreenPress2(); }
        } else {
          if set'.Set1? { PrintScreenRelease1(); } else { PrintScreenRelease2(); }
        }
      case PauseStroke => if set'.Set1? { PauseTrip1(); } else { PauseTrip2(); }
    }
  }

  function EncodeAll(set': CodeSet, strokes: seq<Stroke>): seq<byte> {
    if strokes == [] then [] else Encode(set', strokes[0]) + EncodeAll(set', strokes[1..])
  }

  function ReportedAll(strokes: seq<Stroke>): seq<Report> {
    if strokes == [] then [] else Reported(strokes[0]) + ReportedAll(strokes[1..])
  }

  predicate AllPossible(set': CodeSet, strokes: seq<Stroke>) {
    forall k :: 0 <= k < |strokes| ==> Possible(set', strokes[k])
  }

  /** What is typed is what is reported, and the parser is back in its start state. */
  lemma {:induction false} RoundTrip(set': CodeSet, strokes: seq<Stroke>)
    requires AllPossible(set', strokes)
    ensures Parse(set', START, EncodeAll(set', strokes)) == Result(START, ReportedAll(strokes))
  {
    if strokes != [] {
      StrokeTrip(set', strokes[0]);
      assert AllPossible(set', strokes[1..]);
      RoundTrip(set', strokes[1..]);
      ParseConcat(set', START, Encode(set', strokes[0]), EncodeAll(set', strokes[1..]));
    }
  }

  // ----- the bytes as they come in

  function Joined(buffers: seq<seq<byte>>): seq<byte> {
    if buffers == [] then [] else Joined(buffers[..|buffers| - 1]) + buffers[|buffers| - 1]
  }

  class Device {
    const codeSet: CodeSet
    var state: nat
    var reports: seq<Report>

    constructor (set': CodeSet)
      ensures codeSet == set' && state == START && reports == []
    {
      codeSet := set';
      state := START;
      reports := [];
    }

    method PutEvent(key: Key, pressed: bool)
      modifies this`reports
      ensures reports == old(reports) + [Report(key, pressed)]
    {
      reports := reports + [Report(key, pressed)];
    }

    /** Carries out a row that applies. */
    method Act(rule: Rule, b: byte)
      modifies this
      ensures var r := Perform(rule, b); state == r.state && reports == old(reports) + r.reports
    {
      match rule {
        case Goto(_, _, next) => state := next;
        case PrintScreen(_, _, pressed) =>
          PutEvent(PrintScreenKey, pressed);
          state := START;
        case Pause(_, _) =>
          PutEvent(PauseKey, true);
          PutEvent(PauseKey, false);
          state := START;
        case Convert(_, how, table) =>
          match how {
            case Pressed => PutEvent(Mapped(table, b), true);
            case Released => PutEvent(Mapped(table, b), false);
            case PressedOrReleased =>
              if b < 0x80 {
                PutEvent(Mapped(table, b), true);
              } else {
                PutEvent(Mapped(table, b - 0x80), false);
              }
          }
          state := START;
      }
    }

    method ReceiveByte(b: byte)
      modifies this
      ensures var r := ParseFrom(codeSet, old(state), b, 0); state == r.state && reports == old(reports) + r.reports
    {
      var k := 0;
      while true
        invariant 0 <= k < Rows(codeSet) && state == old(state) && reports == old(reports)
        invariant ParseFrom(codeSet, state, b, 0) == ParseFrom(codeSet, state, b, k)
        decreases Rows(codeSet) - k
      {
        if Applies(Row(codeSet, k), state, b) {
          Act(Row(codeSet, k), b);
          return;
        }
        k := k + 1;
        if k == Rows(codeSet) {
          state := START;
          return;
        }
      }
    }

    /** One receive buffer. */
    method Receive(buffer: seq<byte>)
      modifies this
      ensures var r := Parse(codeSet, old(state), buffer); state == r.state && reports == old(reports) + r.reports
    {
      assert buffer[..0] == [];
      for i := 0 to |buffer|
        invariant var r := Parse(codeSet, old(state), buffer[..i]);
                  state == r.state && reports == old(reports) + r.reports
      {
        assert buffer[..i + 1] == buffer[..i] + [buffer[i]];
        ParseConcat(codeSet, old(state), buffer[..i], [buffer[i]]);
        SingleByte(codeSet, state, buffer[i]);
        ReceiveByte(buffer[i]);
      }
      assert buffer[..|buffer|] == buffer;
    }

    /** However the bytes of a sequence of strokes are cut into buffers, exactly the strokes are reported. */
    method ReceiveAll(buffers: seq<seq<byte>>, ghost strokes: seq<Stroke>)
      requires state == START && AllPossible(codeSet, strokes) && Joined(buffers) == EncodeAll(codeSet, strokes)
      modifies this
      ensures state == START && reports == old(reports) + ReportedAll(strokes)
    {
      assert buffers[..0] == [];
      for i := 0 to |buffers|
        invariant var r := Parse(codeSet, START, Joined(buffers[..i]));
                  state == r.state && reports == old(reports) + r.reports
      {
        NextBuffer(codeSet, buffers, i);
        Receive(buffers[i]);
      }
      assert buffers[..|buffers|] == buffers;
      RoundTrip(codeSet, strokes);
    }
  }

  lemma NextBuffer(set': CodeSet, buffers: seq<seq<byte>>, i: nat)
    requires i < |buffers|
    ensures var first := Parse(set', START, Joined(buffers[..i]));
            var rest := Parse(set', first.state, buffers[i]);
            Parse(set', START, Joined(buffers[..i + 1])) == Result(rest.state, first.reports + rest.reports)
  {
    assert buffers[..i + 1][..i] == buffers[..i];
    ParseConcat(set', START, Joined(buffers[..i]), buffers[i]);
  }

  lemma SingleByte(set': CodeSet, state: nat, b: byte)
    ensures Parse(set', state, [b]) == ParseFrom(set', state, b, 0)
  {
    var r := ParseFrom(set', state, b, 0);
    assert r.reports + [] == r.reports;
  }
}
