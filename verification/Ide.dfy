/** One PIO read command: the waiting thread, the device and its interrupt, the handler thread, the timeout.
    The interrupt handler and the timeout run undisturbed on their processor; the handler thread may be
    interrupted between any two of its steps. The device raises the next interrupt only after the current
    block has been read, and a killed timeout never runs.
    Source: source/kernel/hardware/controllers/ide/ide.c:289-377, 460-490;
    source/kernel/hardware/devices/hard_disk/parallel_ata.c:312-327 */
module Ide {

  datatype Status = Nothing | DataReady | Fault | Timeout | Completed

  /** What the status register says at an interrupt. */
  datatype Signal = HasData | HasFault | IsReady

  /** The handler thread: at the head of its loop, or before the named action. */
  datatype Handler = AtLoop | Count | Compare | LastRead | SetCompleted | Unblock | ExpectIrq | StartTimer | Read

  /** `calls`, `expected` and `max` count runs of the sector callback; `raised` counts the device's interrupts,
      `buffer` lists the blocks read, by number, and `unblocks` counts wake-ups of the waiting thread. */
  datatype Command = Command(
    sectors: nat,
    calls: nat,
    expected: nat,
    max: nat,
    irqExpected: bool,
    timer: bool,
    status: Status,
    handler: Handler,
    raised: nat,
    pending: seq<Signal>,
    buffer: seq<nat>,
    unblocks: nat)

  datatype Step = DeviceRaises(signal: Signal) | Interrupt | HandlerStep | TimeoutFires

  /** A command that expects no callback still gets one interrupt. */
  function Irqs(sectors: nat): nat {
    if sectors == 0 then 1 else sectors
  }

  /** The command has been sent, the caller is blocked, its timeout is running. */
  function Sent(sectors: nat): Command {
    Command(sectors, 0, 0, sectors, true, true, Nothing, AtLoop, 0, [], [], 0)
  }

  predicate Enabled(c: Command, step: Step) {
    match step
    case DeviceRaises(_) => c.pending == [] && c.raised < Irqs(c.sectors) && |c.buffer| == c.raised
    case Interrupt => c.pending != []
    case HandlerStep => c.handler.AtLoop? ==> c.calls < c.expected
    case TimeoutFires => c.timer
  }

  function Interrupted(c: Command): Command
    requires c.pending != []
  {
    var acknowledged := c.(pending := []);
    if !c.irqExpected then acknowledged
    else
      var d :=
        match c.pending[0]
        case HasData => acknowledged.(status := DataReady)
        case HasFault => acknowledged.(status := Fault, calls := 0, expected := 0, max := 0)
        case IsReady => acknowledged.(status := Completed);
      d.(timer := false, irqExpected := false,
         expected := if d.expected < d.max then d.expected + 1 else d.expected,
         unblocks := if d.max == 0 then d.unblocks + 1 else d.unblocks)
  }

  /** The callback copies the block the device offers. */
  function BlockRead(c: Command): Command {
    c.(buffer := c.buffer + [if c.raised > 0 then c.raised - 1 else 0])
  }

  function Handled(c: Command): Command {
    match c.handler
    case AtLoop => c.(handler := Count)
    case Count => c.(calls := c.calls + 1, handler := Compare)
    case Compare => c.(handler := if c.calls == c.max then LastRead else ExpectIrq)
    case LastRead => BlockRead(c).(handler := SetCompleted)
    case SetCompleted => c.(status := Completed, handler := Unblock)
    case Unblock => c.(unblocks := c.unblocks + 1, handler := AtLoop)
    case ExpectIrq => c.(irqExpected := true, handler := StartTimer)
    case StartTimer => c.(timer := true, handler := Read)
    case Read => BlockRead(c).(handler := AtLoop)
  }

  function TimedOut(c: Command): Command {
    c.(timer := false, irqExpected := false, status := Timeout, unblocks := c.unblocks + 1)
  }

  function Apply(c: Command, step: Step): Command
    requires Enabled(c, step)
  {
    match step
    case DeviceRaises(signal) => c.(raised := c.raised + 1, pending := [signal])
    case Interrupt => Interrupted(c)
    case HandlerStep => Handled(c)
    case TimeoutFires => TimedOut(c)
  }

  // ----- the invariant

  /** The handler thread has a block to read: its interrupt was taken and nothing else is under way. */
  predicate Busy(c: Command, read: nat) {
    && !c.irqExpected && !c.timer && c.pending == [] && c.unblocks == 0
    && c.raised == c.expected && |c.buffer| == read
  }

  /** The handler thread has nothing to do: either an interrupt or the timeout is still to come, or the command
      is over. */
  predicate Waiting(c: Command) {
    && c.irqExpected == c.timer == (c.unblocks == 0)
    && |c.pending| <= 1
    && |c.buffer| + |c.pending| <= c.raised <= |c.buffer| + 1
    && (c.unblocks == 0 ==> c.calls == |c.buffer| && c.raised == |c.buffer| + |c.pending| && c.max == c.sectors)
    && (c.unblocks == 0 ==> c.calls < c.max || c.max == 0)
  }

  predicate Inv(c: Command) {
    && c.calls <= c.expected <= c.max <= c.sectors && c.expected <= c.calls + 1
    && c.unblocks <= 1
    && c.raised <= Irqs(c.sectors)
    && c.buffer == seq(|c.buffer|, i => i)
    && (c.unblocks == 0 ==> c.max == c.sectors)
    && (match c.handler
        case AtLoop => if c.calls < c.expected then Busy(c, c.calls) else Waiting(c)
        case Count => c.expected == c.calls + 1 && Busy(c, c.calls)
        case Compare => c.expected == c.calls > 0 && Busy(c, c.calls - 1)
        case LastRead => c.expected == c.calls == c.max > 0 && Busy(c, c.calls - 1)
        case SetCompleted => c.expected == c.calls == c.max > 0 && Busy(c, c.calls)
        case Unblock => c.expected == c.calls == c.max > 0 && Busy(c, c.calls) && c.status == Completed
        case ExpectIrq => 0 < c.expected == c.calls < c.max && Busy(c, c.calls - 1)
        case StartTimer =>
          0 < c.expected == c.calls < c.max && Busy(c.(irqExpected := false), c.calls - 1) && c.irqExpected
        case Read =>
          && 0 < c.expected == c.calls < c.max && c.pending == []
          && c.raised == c.expected && |c.buffer| == c.calls - 1
          && c.irqExpected == c.timer == (c.unblocks == 0))
    && ResultOk(c)
  }

  /** What the waiting thread finds when it goes on. */
  predicate ResultOk(c: Command) {
    c.unblocks == 1 ==>
      && (c.status == Completed && c.sectors > 0 ==> |c.buffer| == c.sectors == c.calls)
      && (c.status == DataReady ==> c.sectors == 0)
      && c.status != Nothing
  }

  lemma {:induction false} ReadKeepsOrder(c: Command)
    requires c.buffer == seq(|c.buffer|, i => i) && c.raised == |c.buffer| + 1
    ensures BlockRead(c).buffer == seq(|c.buffer| + 1, i => i)
  {
  }

  lemma {:induction false} InterruptKeepsInv(c: Command)
    requires Inv(c) && c.pending != []
    ensures Inv(Interrupted(c))
  {
  }

  lemma {:induction false} ReadKeepsInv(c: Command)
    requires Inv(c) && (c.handler.LastRead? || c.handler.Read?)
    ensures Inv(Handled(c))
  {
    ReadKeepsOrder(c);
  }

  lemma {:induction false} HandlerKeepsInv(c: Command)
    requires Inv(c) && Enabled(c, HandlerStep) && !c.handler.LastRead? && !c.handler.Read?
    ensures Inv(Handled(c))
  {
  }

  lemma {:induction false} TimeoutKeepsInv(c: Command)
    requires Inv(c) && c.timer
    ensures Inv(TimedOut(c))
  {
  }

  lemma {:induction false} StepKeepsInv(c: Command, step: Step)
    requires Inv(c) && Enabled(c, step)
    ensures Inv(Apply(c, step))
  {
    match step {
      case DeviceRaises(_) =>
      case Interrupt => InterruptKeepsInv(c);
      case HandlerStep =>
        if c.handler.LastRead? || c.handler.Read? { ReadKeepsInv(c); } else { HandlerKeepsInv(c); }
      case TimeoutFires => TimeoutKeepsInv(c);
    }
  }

  lemma {:induction false} SentIsOk(sectors: nat)
    ensures Inv(Sent(sectors))
  {
  }

  // ----- runs

  ghost predicate CanRun(c: Command, steps: seq<Step>)
    decreases |steps|
  {
    steps == [] || (Enabled(c, steps[0]) && CanRun(Apply(c, steps[0]), steps[1..]))
  }

  function Run(c: Command, steps: seq<Step>): Command
    requires CanRun(c, steps)
    decreases |steps|
  {
    if steps == [] then c else Run(Apply(c, steps[0]), steps[1..])
  }

  lemma {:induction false} RunKeepsInv(c: Command, steps: seq<Step>)
    requires Inv(c) && CanRun(c, steps)
    ensures Inv(Run(c, steps))
    decreases |steps|
  {
    if steps != [] {
      StepKeepsInv(c, steps[0]);
      RunKeepsInv(Apply(c, steps[0]), steps[1..]);
    }
  }

  /** Whatever the order of interrupts, handler-thread steps and timeouts: the three counters stay in order
      with a gap of at most one, the waiting thread is woken at most once, blocks arrive in order, and if
      the command then reports completion all of them have arrived. */
  lemma {:induction false} ReadIsSafe(sectors: nat, steps: seq<Step>)
    requires CanRun(Sent(sectors), steps)
    ensures var c := Run(Sent(sectors), steps);
            && c.calls <= c.expected <= c.max && c.expected - c.calls <= 1
            && c.unblocks <= 1
            && |c.buffer| <= Irqs(sectors)
            && (forall i :: 0 <= i < |c.buffer| ==> c.buffer[i] == i)
            && (c.unblocks == 1 && c.status == Completed && sectors > 0 ==> |c.buffer| == sectors)
  {
    SentIsOk(sectors);
    RunKeepsInv(Sent(sectors), steps);
    SectorsFixed(Sent(sectors), steps);
  }

  lemma {:induction false} SectorsFixed(c: Command, steps: seq<Step>)
    requires CanRun(c, steps)
    ensures Run(c, steps).sectors == c.sectors
    decreases |steps|
  {
    if steps != [] { SectorsFixed(Apply(c, steps[0]), steps[1..]); }
  }

  /** The result is final: after the wake-up nothing changes the status. */
  lemma {:induction false} ResultIsFinal(c: Command, steps: seq<Step>)
    requires Inv(c) && c.unblocks == 1 && CanRun(c, steps)
    ensures Run(c, steps).status == c.status && Run(c, steps).unblocks == 1
    decreases |steps|
  {
    if steps != [] {
      StepKeepsInv(c, steps[0]);
      ResultIsFinal(Apply(c, steps[0]), steps[1..]);
    }
  }

  /** A fault that is taken while the command waits for an interrupt ends it. */
  lemma {:induction false} FaultWakes(c: Command)
    requires Inv(c) && c.unblocks == 0 && c.pending == [HasFault] && c.irqExpected
    ensures Enabled(c, Interrupt) && Apply(c, Interrupt).unblocks == 1
  {
  }

  lemma {:induction false} WakingInterrupt(c: Command)
    requires Inv(c) && c.unblocks == 0 && c.pending != [] && Interrupted(c).unblocks == 1
    ensures Interrupted(c).status == Fault <==> c.pending == [HasFault]
    ensures Interrupted(c).status == Completed <==> c.pending == [IsReady]
  {
    assert |c.pending| == 1 && c.pending == [c.pending[0]];
  }

  lemma {:induction false} WakingHandler(c: Command)
    requires Inv(c) && c.unblocks == 0 && Enabled(c, HandlerStep) && Handled(c).unblocks == 1
    ensures Handled(c).status == Completed
  {
  }

  /** The step that wakes the waiting thread decides what the thread finds, whatever comes later. */
  lemma {:induction false} WakerDecides(c: Command, step: Step, later: seq<Step>)
    requires Inv(c) && c.unblocks == 0 && Enabled(c, step) && Apply(c, step).unblocks == 1
    requires CanRun(Apply(c, step), later)
    ensures !step.DeviceRaises?
    ensures step.TimeoutFires? ==> Run(Apply(c, step), later).status == Timeout
    ensures step.HandlerStep? ==> Run(Apply(c, step), later).status == Completed
    ensures step.Interrupt? ==> (Run(Apply(c, step), later).status == Fault <==> c.pending == [HasFault])
    ensures step.Interrupt? ==> (Run(Apply(c, step), later).status == Completed <==> c.pending == [IsReady])
  {
    var d := Apply(c, step);
    StepKeepsInv(c, step);
    ResultIsFinal(d, later);
    match step {
      case DeviceRaises(_) =>
      case Interrupt => WakingInterrupt(c);
      case HandlerStep => WakingHandler(c);
      case TimeoutFires =>
    }
  }

  // ----- the wake-up comes

  /** As long as the waiting thread sleeps, an interrupt, the handler thread or the timeout can go on: the wake-up
      does not depend on the device. */
  lemma {:induction false} NeverStuck(c: Command)
    requires Inv(c) && c.unblocks == 0
    ensures Enabled(c, Interrupt) || Enabled(c, HandlerStep) || Enabled(c, TimeoutFires)
  {
  }

  function Rank(c: Command): nat {
    match c.handler
    case AtLoop => if c.calls < c.expected then 8 else 0
    case Count => 7
    case Compare => 6
    case LastRead => 3
    case SetCompleted => 2
    case Unblock => 1
    case ExpectIrq => 5
    case StartTimer => 4
    case Read => 2
  }

  function Measure(c: Command): int {
    10 * (Irqs(c.sectors) - c.raised) + 9 * |c.pending| + Rank(c) + (if c.timer then 1 else 0)
  }

  lemma {:induction false} InterruptLowersMeasure(c: Command)
    requires Inv(c) && c.pending != []
    ensures Measure(Interrupted(c)) < Measure(c)
  {
  }

  lemma {:induction false} HandlerLowersMeasure(c: Command)
    requires Inv(c) && Enabled(c, HandlerStep)
    ensures Measure(Handled(c)) < Measure(c)
  {
  }

  lemma {:induction false} StepsLowerMeasure(c: Command, step: Step)
    requires Inv(c) && Enabled(c, step)
    ensures 0 <= Measure(Apply(c, step)) < Measure(c)
  {
    StepKeepsInv(c, step);
    MeasureIsNat(Apply(c, step));
    match step {
      case DeviceRaises(_) =>
      case Interrupt => InterruptLowersMeasure(c);
      case HandlerStep => HandlerLowersMeasure(c);
      case TimeoutFires =>
    }
  }

  lemma {:induction false} RunsEnd(c: Command, steps: seq<Step>)
    requires Inv(c) && CanRun(c, steps)
    ensures |steps| + Measure(Run(c, steps)) <= Measure(c)
    decreases |steps|
  {
    if steps != [] {
      StepsLowerMeasure(c, steps[0]);
      StepKeepsInv(c, steps[0]);
      RunsEnd(Apply(c, steps[0]), steps[1..]);
    }
  }

  /** Exactly once: every run of a command has at most 10 steps per interrupt and one more, and when nothing can
      happen any more the waiting thread has been woken exactly once. */
  lemma {:induction false} WokenExactlyOnce(sectors: nat, steps: seq<Step>)
    requires CanRun(Sent(sectors), steps)
    ensures |steps| <= 10 * Irqs(sectors) + 1
    ensures var c := Run(Sent(sectors), steps);
            (forall step :: !Enabled(c, step)) ==> c.unblocks == 1
  {
    SentIsOk(sectors);
    RunKeepsInv(Sent(sectors), steps);
    RunsEnd(Sent(sectors), steps);
    var c := Run(Sent(sectors), steps);
    if c.unblocks == 0 { NeverStuck(c); }
    MeasureIsNat(c);
  }

  lemma {:induction false} MeasureIsNat(c: Command)
    requires Inv(c)
    ensures Measure(c) >= 0
  {
  }
}
