/** The ring through which the kernel hands input events to a program: one producer, one consumer, no lock.
    Every field of a slot is written and read in a step of its own.
    Source: source/kernel/software/virtual_hardware/human_input.c:20-61, source/userspace_library/main.c:140-152 */
module InputRing {

  const SLOTS: nat := 128

  datatype Event = Event(kind: nat, argument1: int, argument2: int, argument3: int)

  /** `field` counts the fields already written. */
  datatype Producer = Waiting | Offered(event: Event) | Writing(event: Event, field: nat)

  /** `seen` holds the fields read so far, `field` says how many. */
  datatype Consumer = Resting | Reading(seen: Event, field: nat)

  /** `accepted` and `delivered` are the events that went in and came out; no step looks at them. */
  datatype Ring = Ring(
    slots: seq<Event>,
    producer: nat,
    consumer: nat,
    streaming: bool,
    source: Producer,
    sink: Consumer,
    accepted: seq<Event>,
    delivered: seq<Event>)

  datatype Step =
    | Doorbell(enable: bool) | Offer(event: Event) | CheckRoom | WriteField | Publish
    | CheckNews | ReadField | Advance

  const NO_EVENT := Event(0, 0, 0, 0)

  /** `to` with its `field`-th field taken from `from`. */
  function Copied(to: Event, from: Event, field: nat): Event {
    match field
    case 0 => to.(kind := from.kind)
    case 1 => to.(argument1 := from.argument1)
    case 2 => to.(argument2 := from.argument2)
    case _ => to.(argument3 := from.argument3)
  }

  /** The first `n` fields agree. */
  predicate Agree(a: Event, b: Event, n: nat) {
    && (n > 0 ==> a.kind == b.kind)
    && (n > 1 ==> a.argument1 == b.argument1)
    && (n > 2 ==> a.argument2 == b.argument2)
    && (n > 3 ==> a.argument3 == b.argument3)
  }

  function Next(i: nat): nat {
    (i + 1) % SLOTS
  }

  // ----- the invariant

  predicate SlotOk(r: Ring, i: nat)
    requires i < |r.accepted| && |r.slots| == SLOTS
  {
    r.slots[i % SLOTS] == r.accepted[i]
  }

  predicate Inv(r: Ring) {
    && |r.slots| == SLOTS
    && r.delivered <= r.accepted
    && |r.accepted| - |r.delivered| <= SLOTS - 1
    && r.producer == |r.accepted| % SLOTS
    && r.consumer == |r.delivered| % SLOTS
    && (forall i :: |r.delivered| <= i < |r.accepted| ==> SlotOk(r, i))
    && (r.source.Writing? ==> r.source.field <= 4 && |r.accepted| - |r.delivered| <= SLOTS - 2
                              && Agree(r.slots[r.producer], r.source.event, r.source.field))
    && (r.sink.Reading? ==> r.sink.field <= 4 && |r.delivered| < |r.accepted|
                            && Agree(r.sink.seen, r.accepted[|r.delivered|], r.sink.field))
  }

  // ----- the steps

  predicate Enabled(r: Ring, step: Step) {
    match step
    case Doorbell(_) => true
    case Offer(_) => r.source.Waiting?
    case CheckRoom => r.source.Offered?
    case WriteField => r.source.Writing? && r.source.field < 4
    case Publish => r.source.Writing? && r.source.field == 4
    case CheckNews => r.sink.Resting?
    case ReadField => r.sink.Reading? && r.sink.field < 4
    case Advance => r.sink.Reading? && r.sink.field == 4
  }

  function Apply(r: Ring, step: Step): Ring
    requires Inv(r) && Enabled(r, step)
  {
    match step
    case Doorbell(enable) => r.(streaming := enable)
    case Offer(event) => if r.streaming then r.(source := Offered(event)) else r
    case CheckRoom =>
      if r.consumer == Next(r.producer) then r.(source := Waiting)
      else r.(source := Writing(r.source.event, 0))
    case WriteField =>
      r.(slots := r.slots[r.producer := Copied(r.slots[r.producer], r.source.event, r.source.field)],
         source := Writing(r.source.event, r.source.field + 1))
    case Publish =>
      r.(producer := Next(r.producer), source := Waiting, accepted := r.accepted + [r.source.event])
    case CheckNews => if r.consumer == r.producer then r else r.(sink := Reading(NO_EVENT, 0))
    case ReadField =>
      r.(sink := Reading(Copied(r.sink.seen, r.slots[r.consumer], r.sink.field), r.sink.field + 1))
    case Advance =>
      r.(consumer := Next(r.consumer), sink := Resting, delivered := r.delivered + [r.sink.seen])
  }

  /** An empty ring; what its slots hold does not matter. */
  function Start(slots: seq<Event>): Ring
    requires |slots| == SLOTS
  {
    Ring(slots, 0, 0, false, Waiting, Resting, [], [])
  }

  // ----- every step keeps the invariant

  lemma NextSlot(i: nat)
    ensures Next(i % SLOTS) == (i + 1) % SLOTS
  {
  }

  lemma SlotsDiffer(i: nat, j: nat)
    requires i < j < i + SLOTS
    ensures i % SLOTS != j % SLOTS
  {
  }

  lemma {:induction false} WriteKeepsInv(r: Ring)
    requires Inv(r) && Enabled(r, WriteField)
    ensures Inv(Apply(r, WriteField))
  {
    var t := Apply(r, WriteField);
    forall i | |r.delivered| <= i < |r.accepted|
      ensures SlotOk(t, i)
    {
      assert SlotOk(r, i);
      SlotsDiffer(i, |r.accepted|);
    }
  }

  lemma {:induction false} PublishKeepsInv(r: Ring)
    requires Inv(r) && Enabled(r, Publish)
    ensures Inv(Apply(r, Publish))
  {
    var t := Apply(r, Publish);
    NextSlot(|r.accepted|);
    forall i | |r.delivered| <= i < |t.accepted|
      ensures SlotOk(t, i)
    {
      if i < |r.accepted| { assert SlotOk(r, i); }
    }
  }

  lemma {:induction false} ReadKeepsInv(r: Ring)
    requires Inv(r) && Enabled(r, ReadField)
    ensures Inv(Apply(r, ReadField))
  {
    var t := Apply(r, ReadField);
    assert SlotOk(r, |r.delivered|);
    assert forall i :: |r.delivered| <= i < |r.accepted| ==> SlotOk(t, i) == SlotOk(r, i);
  }

  lemma {:induction false} AdvanceKeepsInv(r: Ring)
    requires Inv(r) && Enabled(r, Advance)
    ensures Inv(Apply(r, Advance))
    ensures r.sink.seen == r.accepted[|r.delivered|]
  {
    var t := Apply(r, Advance);
    NextSlot(|r.delivered|);
    assert r.accepted[..|r.delivered| + 1] == r.accepted[..|r.delivered|] + [r.accepted[|r.delivered|]];
    forall i | |t.delivered| <= i < |r.accepted|
      ensures SlotOk(t, i)
    {
      assert SlotOk(r, i);
    }
  }

  lemma {:induction false} CheckKeepsInv(r: Ring, step: Step)
    requires Inv(r) && Enabled(r, step) && (step.Doorbell? || step.Offer? || step.CheckRoom? || step.CheckNews?)
    ensures Inv(Apply(r, step))
  {
    var t := Apply(r, step);
    assert forall i :: |r.delivered| <= i < |r.accepted| ==> SlotOk(t, i) == SlotOk(r, i);
    NextSlot(|r.accepted|);
  }

  lemma {:induction false} StepKeepsInv(r: Ring, step: Step)
    requires Inv(r) && Enabled(r, step)
    ensures Inv(Apply(r, step))
  {
    match step {
      case WriteField => WriteKeepsInv(r);
      case Publish => PublishKeepsInv(r);
      case ReadField => ReadKeepsInv(r);
      case Advance => AdvanceKeepsInv(r);
      case _ => CheckKeepsInv(r, step);
    }
  }

  // ----- the ring as a bounded queue

  /** What the ring holds. */
  function Queue(r: Ring): seq<Event>
    requires |r.delivered| <= |r.accepted|
  {
    r.accepted[|r.delivered|..]
  }

  /** What a step does to a queue: publishing puts an event in at the end, advancing takes the first one out,
      and nothing else shows. */
  lemma {:induction false} RefinesQueue(r: Ring, step: Step)
    requires Inv(r) && Enabled(r, step)
    ensures var t := Apply(r, step);
            && |t.delivered| <= |t.accepted|
            && (step.Publish? ==> Queue(t) == Queue(r) + [r.source.event] && t.delivered == r.delivered)
            && (step.Advance? ==>
                  Queue(r) != [] && Queue(t) == Queue(r)[1..] && t.delivered == r.delivered + [Queue(r)[0]])
            && (!step.Publish? && !step.Advance? ==> Queue(t) == Queue(r) && t.delivered == r.delivered)
            && |Queue(t)| <= SLOTS - 1
  {
    StepKeepsInv(r, step);
    if step.Advance? { AdvanceKeepsInv(r); }
  }

  /** An event offered while streaming is dropped exactly when, at the moment the producer reads `consumer`, 127
      slots are occupied. */
  lemma {:induction false} DroppedIffFull(r: Ring)
    requires Inv(r) && Enabled(r, CheckRoom)
    ensures Apply(r, CheckRoom).source.Waiting? <==> |Queue(r)| == SLOTS - 1
  {
    FullIff(|r.delivered|, |r.accepted|);
  }

  lemma FullIff(out: nat, in': nat)
    requires out <= in' < out + SLOTS
    ensures out % SLOTS == Next(in' % SLOTS) <==> in' - out == SLOTS - 1
  {
    NextSlot(in');
    if in' - out < SLOTS - 1 {
      SlotsDiffer(out, in' + 1);
    } else {
      assert in' + 1 == out + SLOTS;
    }
  }

  /** The consumer finds news exactly when the queue is not empty. */
  lemma {:induction false} NewsIffNotEmpty(r: Ring)
    requires Inv(r) && Enabled(r, CheckNews)
    ensures Apply(r, CheckNews).sink.Reading? <==> Queue(r) != []
  {
    if Queue(r) != [] { SlotsDiffer(|r.delivered|, |r.accepted|); }
  }

  /** The consumer never reads the slot the producer is writing. */
  lemma {:induction false} SidesStayApart(r: Ring)
    requires Inv(r) && r.source.Writing? && r.sink.Reading?
    ensures r.consumer != r.producer
  {
    SlotsDiffer(|r.delivered|, |r.accepted|);
  }

  // ----- runs

  ghost predicate CanRun(r: Ring, steps: seq<Step>)
    decreases |steps|
  {
    steps == [] || (Inv(r) && Enabled(r, steps[0]) && CanRun(Apply(r, steps[0]), steps[1..]))
  }

  function Run(r: Ring, steps: seq<Step>): Ring
    requires CanRun(r, steps)
    decreases |steps|
  {
    if steps == [] then r else Run(Apply(r, steps[0]), steps[1..])
  }

  lemma {:induction false} RunKeepsInv(r: Ring, steps: seq<Step>)
    requires Inv(r) && CanRun(r, steps)
    ensures Inv(Run(r, steps))
    decreases |steps|
  {
    if steps != [] {
      StepKeepsInv(r, steps[0]);
      RunKeepsInv(Apply(r, steps[0]), steps[1..]);
    }
  }

  /** The invariant inside `CanRun` makes the steps well defined and never excludes one: any run can be followed
      by any step that is enabled where it ends. */
  lemma {:induction false} RunExtends(s: Ring, steps: seq<Step>, step: Step)
    requires Inv(s) && CanRun(s, steps) && Inv(Run(s, steps)) && Enabled(Run(s, steps), step)
    ensures CanRun(s, steps + [step]) && Run(s, steps + [step]) == Apply(Run(s, steps), step)
    decreases |steps|
  {
    if steps == [] {
      assert ([] + [step])[1..] == [] && ([] + [step])[0] == step;
      assert CanRun(Apply(s, step), []);
    } else {
      StepKeepsInv(s, steps[0]);
      RunExtends(Apply(s, steps[0]), steps[1..], step);
      assert (steps + [step])[1..] == steps[1..] + [step];
    }
  }

  /** However the two sides interleave: what the consumer got is exactly what the producer published first, in
      order and untorn, and at most 127 events are waiting. */
  lemma {:induction false} ConsumerSeesAcceptedEvents(slots: seq<Event>, steps: seq<Step>)
    requires |slots| == SLOTS && CanRun(Start(slots), steps)
    ensures var r := Run(Start(slots), steps);
            r.delivered <= r.accepted && |r.accepted| - |r.delivered| <= 127
  {
    RunKeepsInv(Start(slots), steps);
  }

  // ----- what was offered

  /** The event the producer has in hand. */
  function InHand(source: Producer): seq<Event> {
    if source.Waiting? then [] else [source.event]
  }

  /** What goes in, told from the steps alone: `on` says whether streaming is on, `hand` holds the event in hand, and
      `held` counts the events in the ring. An event offered while streaming is off is not taken in hand, and one in
      hand is dropped if the ring is full when the producer looks. */
  function GoesIn(on: bool, hand: seq<Event>, held: int, steps: seq<Step>): seq<Event>
    decreases |steps|
  {
    if steps == [] then []
    else
      match steps[0]
      case Doorbell(enable) => GoesIn(enable, hand, held, steps[1..])
      case Offer(event) => GoesIn(on, if on then [event] else hand, held, steps[1..])
      case CheckRoom => GoesIn(on, if held == 127 then [] else hand, held, steps[1..])
      case Publish => hand + GoesIn(on, [], held + 1, steps[1..])
      case Advance => GoesIn(on, hand, held - 1, steps[1..])
      case _ => GoesIn(on, hand, held, steps[1..])
  }

  /** The arguments of the offers made while streaming was on. */
  function OfferedOn(on: bool, steps: seq<Step>): seq<Event>
    decreases |steps|
  {
    if steps == [] then []
    else
      match steps[0]
      case Doorbell(enable) => OfferedOn(enable, steps[1..])
      case Offer(event) => (if on then [event] else []) + OfferedOn(on, steps[1..])
      case _ => OfferedOn(on, steps[1..])
  }

  /** `a` is `b` with some elements left out. */
  predicate LeavesOut(a: seq<Event>, b: seq<Event>)
    decreases |b|
  {
    a == [] || (b != [] && ((a[0] == b[0] && LeavesOut(a[1..], b[1..])) || LeavesOut(a, b[1..])))
  }

  /** One step: what it puts in, and what it leaves in hand and in the ring. */
  lemma {:induction false} StepGoesIn(r: Ring, step: Step, rest: seq<Step>)
    requires Inv(r) && Enabled(r, step)
    ensures var t := Apply(r, step);
            && |t.delivered| <= |t.accepted|
            && r.accepted + GoesIn(r.streaming, InHand(r.source), |Queue(r)|, [step] + rest) ==
               t.accepted + GoesIn(t.streaming, InHand(t.source), |Queue(t)|, rest)
  {
    RefinesQueue(r, step);
    assert ([step] + rest)[1..] == rest;
    if step.CheckRoom? { DroppedIffFull(r); }
    if step.Publish? {
      var later := GoesIn(r.streaming, [], |Queue(r)| + 1, rest);
      assert r.accepted + ([r.source.event] + later) == (r.accepted + [r.source.event]) + later;
    }
  }

  /** Over every run, in any interleaving: the events that have gone in are, in order and as they were given, those
      offered while streaming was on and not dropped at a full ring. */
  lemma {:induction false} AcceptsWhatIsOffered(r: Ring, steps: seq<Step>)
    requires Inv(r) && CanRun(r, steps)
    ensures Run(r, steps).accepted == r.accepted + GoesIn(r.streaming, InHand(r.source), |Queue(r)|, steps)
    decreases |steps|
  {
    if steps != [] {
      StepKeepsInv(r, steps[0]);
      AcceptsWhatIsOffered(Apply(r, steps[0]), steps[1..]);
      StepGoesIn(r, steps[0], steps[1..]);
      assert steps == [steps[0]] + steps[1..];
    }
  }

  lemma {:induction false} SkipFirst(a: seq<Event>, x: Event, b: seq<Event>)
    requires LeavesOut(a, b)
    ensures LeavesOut(a, [x] + b) && LeavesOut([x] + a, [x] + b)
  {
    assert ([x] + b)[1..] == b && ([x] + a)[1..] == a;
  }

  /** Nothing goes in that was not in hand or offered. */
  lemma {:induction false} GoesInIsOffered(on: bool, hand: seq<Event>, held: int, steps: seq<Step>)
    requires |hand| <= 1
    ensures LeavesOut(GoesIn(on, hand, held, steps), hand + OfferedOn(on, steps))
    decreases |steps|
  {
    if steps != [] {
      var rest := steps[1..];
      match steps[0] {
        case Doorbell(enable) => GoesInIsOffered(enable, hand, held, rest);
        case Offer(event) =>
          if on {
            GoesInIsOffered(on, [event], held, rest);
            var later, in' := [event] + OfferedOn(on, rest), GoesIn(on, [event], held, rest);
            assert GoesIn(on, hand, held, steps) == in' && LeavesOut(in', later);
            if hand == [] { assert hand + later == later; } else { SkipFirst(in', hand[0], later); }
          } else {
            GoesInIsOffered(on, hand, held, rest);
            assert [] + OfferedOn(on, rest) == OfferedOn(on, rest);
          }
        case CheckRoom =>
          GoesInIsOffered(on, if held == 127 then [] else hand, held, rest);
          assert [] + OfferedOn(on, rest) == OfferedOn(on, rest);
          if held == 127 && hand != [] { SkipFirst(GoesIn(on, [], held, rest), hand[0], OfferedOn(on, rest)); }
        case Publish =>
          GoesInIsOffered(on, [], held + 1, rest);
          assert [] + OfferedOn(on, rest) == OfferedOn(on, rest);
          if hand != [] {
            SkipFirst(GoesIn(on, [], held + 1, rest), hand[0], OfferedOn(on, rest));
          } else {
            assert hand + GoesIn(on, [], held + 1, rest) == GoesIn(on, [], held + 1, rest);
          }
        case Advance => GoesInIsOffered(on, hand, held - 1, rest);
        case _ => GoesInIsOffered(on, hand, held, rest);
      }
    }
  }

  /** So what the consumer got, in any run, is the beginning of what was offered while streaming was on, some of it
      left out. */
  lemma {:induction false} ConsumerSeesOfferedEvents(slots: seq<Event>, steps: seq<Step>)
    requires |slots| == SLOTS && CanRun(Start(slots), steps)
    ensures var r := Run(Start(slots), steps);
            && r.delivered <= GoesIn(false, [], 0, steps)
            && LeavesOut(GoesIn(false, [], 0, steps), OfferedOn(false, steps))
  {
    ConsumerSeesAcceptedEvents(slots, steps);
    AcceptsWhatIsOffered(Start(slots), steps);
    GoesInIsOffered(false, [], 0, steps);
    assert [] + GoesIn(false, [], 0, steps) == GoesIn(false, [], 0, steps);
    assert [] + OfferedOn(false, steps) == OfferedOn(false, steps);
  }

  /** An offer changes nothing exactly when streaming is off. */
  lemma {:induction false} OfferIgnoredIff(r: Ring, event: Event)
    requires Inv(r) && Enabled(r, Offer(event))
    ensures Apply(r, Offer(event)) == r <==> !r.streaming
  {
  }

  // ----- one event on its way

  function Times(n: nat, step: Step, last: Step): seq<Step> {
    if n == 0 then [last] else [step] + Times(n - 1, step, last)
  }

  /** What the producer does for one event. */
  function Putting(event: Event): seq<Step> {
    [Offer(event)] + ([CheckRoom] + Times(4, WriteField, Publish))
  }

  /** What the consumer does for one. */
  function Taking(): seq<Step> {
    [CheckNews] + Times(4, ReadField, Advance)
  }

  predicate Hop(r: Ring, step: Step, t: Ring) {
    Inv(r) && Enabled(r, step) && Apply(r, step) == t
  }

  lemma {:induction false} RunStarts(r: Ring, step: Step, t: Ring, rest: seq<Step>)
    requires Hop(r, step, t) && CanRun(t, rest)
    ensures CanRun(r, [step] + rest) && Run(r, [step] + rest) == Run(t, rest)
  {
    assert ([step] + rest)[1..] == rest;
  }

  lemma {:induction false} WritesTheRest(r: Ring)
    requires Inv(r) && r.source.Writing?
    ensures r.source.field <= 4 && CanRun(r, Times(4 - r.source.field, WriteField, Publish))
    ensures var t := Run(r, Times(4 - r.source.field, WriteField, Publish));
            && t.accepted == r.accepted + [r.source.event] && t.source == Waiting
            && t.delivered == r.delivered && t.sink == r.sink && t.streaming == r.streaming
    decreases 4 - r.source.field
  {
    if r.source.field == 4 {
      StepKeepsInv(r, Publish);
      RunStarts(r, Publish, Apply(r, Publish), []);
      assert [Publish] + [] == [Publish];
    } else {
      StepKeepsInv(r, WriteField);
      var t := Apply(r, WriteField);
      WritesTheRest(t);
      RunStarts(r, WriteField, t, Times(4 - t.source.field, WriteField, Publish));
    }
  }

  lemma {:induction false} ReadsTheRest(r: Ring)
    requires Inv(r) && r.sink.Reading?
    ensures r.sink.field <= 4 && CanRun(r, Times(4 - r.sink.field, ReadField, Advance))
    ensures var t := Run(r, Times(4 - r.sink.field, ReadField, Advance));
            && t.delivered == r.delivered + [r.accepted[|r.delivered|]] && t.accepted == r.accepted
            && t.sink == Resting && t.source == r.source && t.streaming == r.streaming
    decreases 4 - r.sink.field
  {
    if r.sink.field == 4 {
      AdvanceKeepsInv(r);
      RunStarts(r, Advance, Apply(r, Advance), []);
      assert [Advance] + [] == [Advance];
    } else {
      StepKeepsInv(r, ReadField);
      var t := Apply(r, ReadField);
      ReadsTheRest(t);
      RunStarts(r, ReadField, t, Times(4 - t.sink.field, ReadField, Advance));
    }
  }

  lemma {:induction false} LooksForRoom(r: Ring)
    requires Inv(r) && r.source.Offered? && |Queue(r)| < 127
    ensures var t := r.(source := Writing(r.source.event, 0)); Hop(r, CheckRoom, t) && Inv(t)
  {
    DroppedIffFull(r);
    StepKeepsInv(r, CheckRoom);
  }

  lemma {:induction false} HasRoom(r: Ring, fields: nat)
    requires Inv(r) && r.source.Offered? && |Queue(r)| < 127 && fields == 4
    ensures CanRun(r, [CheckRoom] + Times(fields, WriteField, Publish))
    ensures var t := Run(r, [CheckRoom] + Times(fields, WriteField, Publish));
            && t.accepted == r.accepted + [r.source.event] && t.source == Waiting
            && t.delivered == r.delivered && t.sink == r.sink && t.streaming == r.streaming
  {
    LooksForRoom(r);
    var t := r.(source := Writing(r.source.event, 0));
    WritesTheRest(t);
    RunStarts(r, CheckRoom, t, Times(fields, WriteField, Publish));
  }

  /** An event offered while streaming is on and fewer than 127 slots are occupied goes in as it was given. */
  lemma {:induction false} PutsIt(r: Ring, event: Event)
    requires Inv(r) && r.source.Waiting? && r.streaming && |Queue(r)| < 127
    ensures CanRun(r, Putting(event))
    ensures var t := Run(r, Putting(event));
            && Inv(t) && t.accepted == r.accepted + [event] && t.source == Waiting
            && t.delivered == r.delivered && t.sink == r.sink && t.streaming
  {
    StepKeepsInv(r, Offer(event));
    var a, rest := Apply(r, Offer(event)), [CheckRoom] + Times(4, WriteField, Publish);
    HasRoom(a, 4);
    RunStarts(r, Offer(event), a, rest);
    assert Putting(event) == [Offer(event)] + rest;
    RunKeepsInv(r, Putting(event));
  }

  lemma {:induction false} FindsNews(r: Ring)
    requires Inv(r) && r.sink.Resting? && Queue(r) != []
    ensures var t := r.(sink := Reading(NO_EVENT, 0)); Hop(r, CheckNews, t) && Inv(t)
  {
    NewsIffNotEmpty(r);
    StepKeepsInv(r, CheckNews);
  }

  lemma {:induction false} TakesFields(r: Ring, fields: nat)
    requires Inv(r) && r.sink.Resting? && Queue(r) != [] && fields == 4
    ensures CanRun(r, [CheckNews] + Times(fields, ReadField, Advance))
    ensures var t := Run(r, [CheckNews] + Times(fields, ReadField, Advance));
            t.delivered == r.delivered + [Queue(r)[0]] && t.accepted == r.accepted && t.sink == Resting
  {
    FindsNews(r);
    var t := r.(sink := Reading(NO_EVENT, 0));
    ReadsTheRest(t);
    RunStarts(r, CheckNews, t, Times(fields, ReadField, Advance));
  }

  /** The consumer then takes the oldest event that is waiting. */
  lemma {:induction false} TakesOldest(r: Ring)
    requires Inv(r) && r.sink.Resting? && Queue(r) != []
    ensures CanRun(r, Taking())
    ensures var t := Run(r, Taking());
            Inv(t) && t.delivered == r.delivered + [Queue(r)[0]] && t.accepted == r.accepted && t.sink == Resting
  {
    TakesFields(r, 4);
    RunKeepsInv(r, Taking());
  }

  /** An event offered to an empty ring while streaming is on is what the consumer gets next. */
  lemma {:induction false} DeliveredUnchanged(r: Ring, event: Event)
    requires Inv(r) && r.source.Waiting? && r.sink.Resting? && r.streaming && Queue(r) == []
    ensures CanRun(r, Putting(event)) && CanRun(Run(r, Putting(event)), Taking())
    ensures Run(Run(r, Putting(event)), Taking()).delivered == r.delivered + [event]
  {
    PutsIt(r, event);
    var t := Run(r, Putting(event));
    assert r.accepted == r.delivered + Queue(r);
    assert Queue(t) == [event];
    TakesOldest(t);
  }
}
