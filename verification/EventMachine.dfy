// The event handler of section 7.3.8 as iolink_dl.c runs it: one step per call
// of iolink_dl_ev_h_sm.
module EventMachine {
  import opened Octets
  import opened DlTypes
  import opened IsduMachine

  datatype EvOut = EvOut(e: EventHandler, acts: seq<Act>)

  // Number of the low n bits that are set.
  function CountBits(status: Octet, n: nat): (c: nat)
    ensures c <= n
  {
    if n == 0 then 0 else CountBits(status, n - 1) + (if Bit(status, n - 1) then 1 else 0)
  }

  // The lowest set bit at or above `from`, or MAX_EVENTS.
  function NextBit(status: Octet, from: nat): (b: nat)
    ensures from <= MAX_EVENTS ==> from <= b <= MAX_EVENTS
    ensures b < MAX_EVENTS ==> Bit(status, b)
    ensures forall i :: from <= i < b && i < MAX_EVENTS ==> !Bit(status, i)
    decreases MAX_EVENTS - from
  {
    if from >= MAX_EVENTS then MAX_EVENTS
    else if Bit(status, from) then from
    else NextBit(status, from + 1)
  }

  function NoEvents(): (s: seq<EventEntry>)
    ensures |s| == MAX_EVENTS
  {
    seq(MAX_EVENTS, i => EventEntry(0, 0, 0))
  }

  function Entry(e: EventHandler, i: nat): EventEntry {
    if i < |e.events| then e.events[i] else EventEntry(0, 0, 0)
  }

  function SetEntry(e: EventHandler, v: EventEntry): EventHandler {
    if e.current < |e.events| then e.(events := e.events[e.current := v]) else e
  }

  // The indications for entries k, k+1, ... of a detailed status code.
  function DetailInds(e: EventHandler, k: nat): (a: seq<Act>)
    decreases e.entries - k
  {
    if k >= e.entries then []
    else
      var v := Entry(e, k);
      [EventInd(v.lsb + v.msb * 256, v.qualifier, e.entries - k - 1)] + DetailInds(e, k + 1)
  }

  // The five fixed events of a status code without details.
  function PlainCode(i: nat): nat {
    if i == 2 then 0x6320 else if i == 4 then 0xFF10 else 0xFF80
  }

  function PlainQualifier(i: nat): Octet {
    4 + 16 * (if i == 0 then 1 else if i == 1 then 2 else 3) + 64
  }

  function PlainInds(status: Octet, i: nat, left: nat): (a: seq<Act>)
    decreases 5 - i
  {
    if i >= 5 then []
    else if Bit(status, i) then
      [EventInd(PlainCode(i), PlainQualifier(i), if left > 0 then left - 1 else 0)]
      + PlainInds(status, i + 1, if left > 0 then left - 1 else 0)
    else PlainInds(status, i + 1, left)
  }

  predicate Detailed(status: Octet) { status >= 0x80 }

  // iolink_dl_ev_h_sm_signal_event3
  function Signal(e: EventHandler): (o: EvOut) {
    if Detailed(e.statusCode) then
      EvOut(e.(current := e.entries, confirmation := true, state := EvIdle1), DetailInds(e, 0))
    else
      var bits := CountBits(e.statusCode, 5);
      EvOut(e.(entries := if e.entries >= bits then e.entries - bits else 0, confirmation := true, state := EvIdle1),
            PlainInds(e.statusCode, 0, e.entries))
  }

  function ReadStatusCode(e: EventHandler, status: Octet): (o: EvOut) {
    if Detailed(status) then
      var first := NextBit(status, 0);
      var found := first < MAX_EVENTS;
      EvOut(e.(statusCode := status,
               entries := e.entries + CountBits(status, MAX_EVENTS),
               addr := if found then 1 + 3 * first else 0,
               cnt := if found then first else 0), [])
    else
      Signal(e.(statusCode := status, entries := e.entries + CountBits(status, 5)))
  }

  function ReadMemoryByte(e: EventHandler, b: Octet): (o: EvOut) {
    var was := Entry(e, e.current);
    if e.addr == 3 * e.cnt + 1 then
      EvOut(SetEntry(e, was.(qualifier := b)).(addr := e.addr + 1), [])
    else if e.addr == 3 * e.cnt + 2 then
      EvOut(SetEntry(e, was.(msb := b)).(addr := e.addr + 1), [])
    else if e.addr == 3 * e.cnt + 3 then
      var next := if e.cnt < MAX_EVENTS then NextBit(e.statusCode, e.cnt + 1) else e.cnt;
      var moved := e.cnt < MAX_EVENTS && (next < MAX_EVENTS || Bit(e.statusCode, MAX_EVENTS));
      var e1 := SetEntry(e, was.(lsb := b)).(
        current := e.current + 1,
        cnt := next,
        addr := if moved then 1 + 3 * next else e.addr);
      if next >= MAX_EVENTS then Signal(e1.(current := 0)) else EvOut(e1, [])
    else EvOut(e, [])
  }

  function Idle1(e: EventHandler, i: EvIn): (o: EvOut) {
    if !e.active then EvOut(e.(state := EvInactive0), [])
    else if i.trigger == MasterMessage then
      if e.confirmation then
        if i.comLost then EvOut(e.(state := EvInactive0), [])
        else
          // The octet written is the transmit buffer's first, which the request
          // itself has just set to its own header.
          EvOut(e.(confirmation := false),
                [OdRequest(true, Diagnosis, 0, Payload([MasterControl(true, Diagnosis, 0)], i.odLen))])
      else
        EvOut(e.(addr := 0, entries := 0, current := 0, events := NoEvents(), state := EvReadEvent2),
              [OdRequest(false, Diagnosis, 0, [])])
    else EvOut(e, [])
  }

  function ReadEvent2(e: EventHandler, i: EvIn): (o: EvOut) {
    if i.comLost then EvOut(e.(state := EvInactive0), [])
    else match i.trigger
      case MasterMessage => EvOut(e, [OdRequest(false, Diagnosis, e.addr, [])])
      case DeviceMessage =>
        if e.addr == 0 then ReadStatusCode(e, At(i.rx, 0)) else ReadMemoryByte(e, At(i.rx, 0))
      case TrigNone => EvOut(e, [])
  }

  // iolink_dl_ev_h_sm
  function Step(e: EventHandler, i: EvIn): (o: EvOut) {
    match e.state
    case EvInactive0 => EvOut(if e.active then e.(state := EvIdle1) else e, [])
    case EvIdle1 => Idle1(e, i)
    case EvReadEvent2 => ReadEvent2(e, i)
  }

  // Several steps, with the acts of all of them in order.
  function Run(e: EventHandler, ins: seq<EvIn>): (o: EvOut) {
    if ins == [] then EvOut(e, [])
    else
      var before := Run(e, ins[..|ins| - 1]);
      var last := Step(before.e, ins[|ins| - 1]);
      EvOut(last.e, before.acts + last.acts)
  }

  lemma {:induction false} RunNothing(e: EventHandler)
    ensures Run(e, []) == EvOut(e, [])
  {
  }

  lemma {:induction false} RunOne(e: EventHandler, i: EvIn)
    ensures Run(e, [i]) == Step(e, i)
  {
    hide Step;
    assert [i][..0] == [];
    assert [] + Step(e, i).acts == Step(e, i).acts;
  }

  lemma {:induction false} RunAppend(e: EventHandler, a: seq<EvIn>, b: seq<EvIn>)
    ensures var first := Run(e, a); var second := Run(first.e, b);
      Run(e, a + b) == EvOut(second.e, first.acts + second.acts)
  {
    hide Step;
    if b == [] {
      assert a + b == a;
    } else {
      var ab := a + b;
      assert ab[..|ab| - 1] == a + b[..|b| - 1];
      RunAppend(e, a, b[..|b| - 1]);
    }
  }

  // The handler's record but for the event flag, which is the OD handler's.
  function Core(e: EventHandler): EventHandler { e.(flag := false) }

  lemma {:induction false} DetailCore(e: EventHandler, k: nat)
    ensures DetailInds(Core(e), k) == DetailInds(e, k)
    decreases e.entries - k
  {
    if k < e.entries { DetailCore(e, k + 1); }
  }

  lemma SignalCore(e: EventHandler)
    ensures Signal(Core(e)) == EvOut(Core(Signal(e).e), Signal(e).acts)
  {
    hide CountBits, PlainInds, DetailInds;
    DetailCore(e, 0);
  }

  lemma StatusCore(e: EventHandler, b: Octet)
    ensures ReadStatusCode(Core(e), b) == EvOut(Core(ReadStatusCode(e, b).e), ReadStatusCode(e, b).acts)
  {
    hide Signal, Bit, NextBit, CountBits;
    SignalCore(e.(statusCode := b, entries := e.entries + CountBits(b, 5)));
  }

  lemma MemoryCore(e: EventHandler, b: Octet)
    ensures ReadMemoryByte(Core(e), b) == EvOut(Core(ReadMemoryByte(e, b).e), ReadMemoryByte(e, b).acts)
  {
    hide Signal, Bit, NextBit, CountBits;
    forall x
      ensures Signal(Core(x)) == EvOut(Core(Signal(x).e), Signal(x).acts)
    {
      SignalCore(x);
    }
  }

  // The handler does not look at the flag.
  lemma FlagIrrelevant(e: EventHandler, i: EvIn)
    ensures Step(Core(e), i) == EvOut(Core(Step(e, i).e), Step(e, i).acts)
  {
    hide ReadStatusCode, ReadMemoryByte, Payload;
    StatusCore(e, At(i.rx, 0));
    MemoryCore(e, At(i.rx, 0));
  }

  // All the handler ever does: diagnosis requests and event indications.
  predicate OwnAct(a: Act) { a.EventInd? || (a.OdRequest? && a.channel == Diagnosis) }

  predicate OwnActs(acts: seq<Act>) { forall k :: 0 <= k < |acts| ==> OwnAct(acts[k]) }

  predicate Indications(acts: seq<Act>) { forall k :: 0 <= k < |acts| ==> acts[k].EventInd? }

  lemma {:induction false} DetailActs(e: EventHandler, k: nat)
    ensures Indications(DetailInds(e, k))
    decreases e.entries - k
  {
    if k < e.entries { DetailActs(e, k + 1); }
  }

  lemma {:induction false} PlainActs(status: Octet, i: nat, left: nat)
    ensures Indications(PlainInds(status, i, left))
    decreases 5 - i
  {
    hide Bit;
    if i < 5 {
      PlainActs(status, i + 1, left);
      PlainActs(status, i + 1, if left > 0 then left - 1 else 0);
    }
  }

  lemma SignalActs(e: EventHandler)
    ensures Indications(Signal(e).acts) && Signal(e).e.flag == e.flag && Signal(e).e.active == e.active
  {
    hide CountBits;
    DetailActs(e, 0);
    PlainActs(e.statusCode, 0, e.entries);
  }

  // What the replies lead to.
  lemma ReadActs(e: EventHandler, b: Octet)
    ensures Indications(ReadStatusCode(e, b).acts) && Indications(ReadMemoryByte(e, b).acts)
  {
    hide Signal, Bit, NextBit, CountBits;
    forall x { SignalActs(x); }
  }

  lemma StepActs(e: EventHandler, i: EvIn)
    ensures OwnActs(Step(e, i).acts) && Step(e, i).e.flag == e.flag && Step(e, i).e.active == e.active
  {
    hide Signal, Bit, NextBit, CountBits;
    forall x { SignalActs(x); }
  }
}
