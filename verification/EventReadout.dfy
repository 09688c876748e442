// Reading a device's pending events: the addresses read, in order, and the
// indications raised.
module EventReadout {
  import opened Octets
  import opened DlTypes
  import opened IsduMachine
  import EM = EventMachine

  // A device answering diagnosis reads from its event memory: the status code
  // at address 0 and three octets for each of the six entries.
  type Memory = m: seq<Octet> | |m| == 19 witness Zeros(19)

  // One master request and the device's answer to it.
  function Pair(e: EventHandler, mem: Memory, odLen: nat): (o: EM.EvOut) {
    var m := EM.Step(e, EvIn(MasterMessage, odLen, false, []));
    var answer :=
      if m.acts != [] && m.acts[0].OdRequest? && m.acts[0].ctrl < 19 then [mem[m.acts[0].ctrl]] else [];
    var d := EM.Step(m.e, EvIn(DeviceMessage, odLen, false, answer));
    EM.EvOut(d.e, m.acts + d.acts)
  }

  function Pairs(e: EventHandler, mem: Memory, odLen: nat, k: nat): (o: EM.EvOut)
    decreases k
  {
    if k == 0 then EM.EvOut(e, [])
    else
      var first := Pair(e, mem, odLen);
      var rest := Pairs(first.e, mem, odLen, k - 1);
      EM.EvOut(rest.e, first.acts + rest.acts)
  }

  // The set bits of a status code from bit `from` up, in ascending order.
  function SetBits(status: Octet, from: nat): (bits: seq<nat>)
    ensures forall i :: 0 <= i < |bits| ==> from <= bits[i] < MAX_EVENTS && Bit(status, bits[i])
    ensures |bits| <= (if from < MAX_EVENTS then MAX_EVENTS - from else 0)
    decreases MAX_EVENTS - from
  {
    if from >= MAX_EVENTS then []
    else
      var rest := SetBits(status, from + 1);
      if Bit(status, from) then [from] + rest else rest
  }

  // It holds exactly the set bits...
  lemma {:induction false} SetBitsHolds(status: Octet, from: nat, b: nat)
    requires from <= b < MAX_EVENTS
    ensures b in SetBits(status, from) <==> Bit(status, b)
    decreases MAX_EVENTS - from
  {
    hide Bit;
    var rest := SetBits(status, from + 1);
    if b > from {
      SetBitsHolds(status, from + 1, b);
      assert b in [from] + rest <==> b in rest;
    } else {
      assert b in [from] + rest;
    }
  }

  // ... in ascending order.
  lemma {:induction false} SetBitsAscend(status: Octet, from: nat, i: nat, j: nat)
    requires i < j < |SetBits(status, from)|
    ensures SetBits(status, from)[i] < SetBits(status, from)[j]
    decreases MAX_EVENTS - from
  {
    hide Bit;
    if !Bit(status, from) {
      SetBitsAscend(status, from + 1, i, j);
    } else if i > 0 {
      SetBitsAscend(status, from + 1, i - 1, j - 1);
    }
  }

  lemma AllAscend(status: Octet)
    ensures var bits := SetBits(status, 0); forall i, j :: 0 <= i < j < |bits| ==> bits[i] < bits[j]
  {
    hide SetBits;
    forall i, j | 0 <= i < j < |SetBits(status, 0)|
      ensures SetBits(status, 0)[i] < SetBits(status, 0)[j]
    {
      SetBitsAscend(status, 0, i, j);
    }
  }

  function Read(addr: nat): Act { OdRequest(false, Diagnosis, addr, []) }

  // The reads for a list of entries: qualifier, then the code's two octets.
  function EntryReads(bits: seq<nat>): (a: seq<Act>) {
    if bits == [] then []
    else [Read(3 * bits[0] + 1), Read(3 * bits[0] + 2), Read(3 * bits[0] + 3)] + EntryReads(bits[1..])
  }

  // The indications for a list of entries, counting down to zero.
  function Indications(mem: Memory, bits: seq<nat>): (a: seq<Act>)
    requires forall i :: 0 <= i < |bits| ==> bits[i] < MAX_EVENTS
    ensures |a| == |bits|
  {
    if bits == [] then []
    else
      var b := bits[0];
      [EventInd(mem[3 * b + 3] + (mem[3 * b + 2] as int) * 256, mem[3 * b + 1], |bits| - 1)] + Indications(mem, bits[1..])
  }

  lemma {:induction false} NextIsHead(status: Octet, from: nat)
    requires from <= MAX_EVENTS
    ensures var bits := SetBits(status, from); var b := EM.NextBit(status, from);
      if bits == [] then b == MAX_EVENTS
      else b == bits[0] && bits[1..] == SetBits(status, b + 1)
    decreases MAX_EVENTS - from
  {
    hide Bit;
    if from < MAX_EVENTS && !Bit(status, from) {
      NextIsHead(status, from + 1);
    }
  }

  lemma {:induction false} CountIsLength(status: Octet, from: nat)
    requires from <= MAX_EVENTS
    ensures |SetBits(status, from)| == EM.CountBits(status, MAX_EVENTS) - EM.CountBits(status, from)
    decreases MAX_EVENTS - from
  {
    if from < MAX_EVENTS {
      CountIsLength(status, from + 1);
    }
  }

  function EntryOf(mem: Memory, b: nat): EventEntry
    requires b < MAX_EVENTS
  {
    EventEntry(mem[3 * b + 1], mem[3 * b + 2], mem[3 * b + 3])
  }

  // In the middle of the readout: `done` read so far, the entry at `cnt` next.
  ghost predicate Progress(e: EventHandler, mem: Memory, done: seq<nat>, todo: seq<nat>) {
    && e.state == EvReadEvent2 && e.active && e.statusCode == mem[0] && EM.Detailed(mem[0])
    && |e.events| == MAX_EVENTS && e.current == |done| && e.entries == |done| + |todo| <= MAX_EVENTS
    && (forall i :: 0 <= i < |done| ==> done[i] < MAX_EVENTS && e.events[i] == EntryOf(mem, done[i]))
    && todo != [] && e.cnt == todo[0] && todo == SetBits(mem[0], e.cnt)
  }

  ghost predicate Reading(e: EventHandler, mem: Memory, done: seq<nat>, todo: seq<nat>) {
    Progress(e, mem, done, todo) && e.addr == 3 * e.cnt + 1
  }

  // One octet short of a complete entry.
  ghost predicate LastOctetNext(e: EventHandler, mem: Memory, done: seq<nat>, todo: seq<nat>) {
    && Progress(e, mem, done, todo) && e.addr == 3 * e.cnt + 3
    && e.events[|done|].qualifier == mem[3 * e.cnt + 1] && e.events[|done|].msb == mem[3 * e.cnt + 2]
  }

  ghost predicate Signalled(e: EventHandler) {
    e.state == EvIdle1 && e.active && e.confirmation
  }

  lemma {:induction false} IndsOfEntries(e: EventHandler, mem: Memory, bits: seq<nat>, k: nat)
    requires |e.events| == MAX_EVENTS && e.entries == |bits| <= MAX_EVENTS && k <= |bits|
    requires forall i :: 0 <= i < |bits| ==> bits[i] < MAX_EVENTS && e.events[i] == EntryOf(mem, bits[i])
    ensures EM.DetailInds(e, k) == Indications(mem, bits[k..])
    decreases |bits| - k
  {
    if k < |bits| {
      assert bits[k..][1..] == bits[k + 1..];
      IndsOfEntries(e, mem, bits, k + 1);
    }
  }

  // A memory read gets the octet at the address it asks for.
  lemma PairReads(e: EventHandler, mem: Memory, odLen: nat)
    requires e.state == EvReadEvent2 && 1 <= e.addr < 19
    ensures var x := EM.ReadMemoryByte(e, mem[e.addr]);
      Pair(e, mem, odLen) == EM.EvOut(x.e, [Read(e.addr)] + x.acts)
  {
    hide EM.ReadMemoryByte;
  }

  // Qualifier and most significant octet of the entry at hand.
  lemma ReadTwoOctets(e: EventHandler, mem: Memory, odLen: nat, done: seq<nat>, todo: seq<nat>)
    requires Reading(e, mem, done, todo)
    ensures var o1 := Pair(e, mem, odLen); var o2 := Pair(o1.e, mem, odLen);
      && o1.acts == [Read(e.addr)] && o2.acts == [Read(e.addr + 1)]
      && o2.e.addr == e.addr + 2 && LastOctetNext(o2.e, mem, done, todo)
  {
    hide Bit, EM.NextBit, EM.Signal, SetBits, Pair;
    PairReads(e, mem, odLen);
    PairReads(Pair(e, mem, odLen).e, mem, odLen);
  }

  // The handler once the third octet of the entry at `cnt` is in.
  function EntryComplete(e: EventHandler, lsb: Octet, next: nat): EventHandler
    requires e.current < |e.events|
  {
    var moved := next < MAX_EVENTS || Bit(e.statusCode, MAX_EVENTS);
    e.(events := e.events[e.current := e.events[e.current].(lsb := lsb)],
       current := e.current + 1,
       cnt := next,
       addr := if moved then 1 + 3 * next else e.addr)
  }

  lemma ThirdOctet(e: EventHandler, lsb: Octet)
    requires e.current < |e.events| && e.cnt < MAX_EVENTS && e.addr == 3 * e.cnt + 3
    ensures var next := EM.NextBit(e.statusCode, e.cnt + 1); var e1 := EntryComplete(e, lsb, next);
      EM.ReadMemoryByte(e, lsb) == if next >= MAX_EVENTS then EM.Signal(e1.(current := 0)) else EM.EvOut(e1, [])
  {
    hide Bit, EM.NextBit, EM.Signal;
  }

  // The last octet of the last entry: signal them all.
  lemma {:induction false} ReadLastOctet(e: EventHandler, mem: Memory, odLen: nat, done: seq<nat>, todo: seq<nat>)
    requires LastOctetNext(e, mem, done, todo) && |todo| == 1
    ensures var o := Pair(e, mem, odLen);
      o.acts == [Read(e.addr)] + Indications(mem, done + todo) && Signalled(o.e)
  {
    hide Bit, SetBits, EM.NextBit, Indications, EM.DetailInds, Pair, EM.ReadMemoryByte;
    PairReads(e, mem, odLen);
    ThirdOctet(e, mem[e.addr]);
    NextIsHead(mem[0], e.cnt);
    NextIsHead(mem[0], e.cnt + 1);
    var e1 := EntryComplete(e, mem[e.addr], MAX_EVENTS).(current := 0);
    var all := done + todo;
    assert e1.events[|done|] == EntryOf(mem, e.cnt);
    assert forall i :: 0 <= i < |all| ==> all[i] < MAX_EVENTS && e1.events[i] == EntryOf(mem, all[i]);
    IndsOfEntries(e1, mem, all, 0);
    assert all[0..] == all;
  }

  // The last octet of an earlier entry: on to the next one.
  lemma ReadMoreEntries(e: EventHandler, mem: Memory, odLen: nat, done: seq<nat>, todo: seq<nat>)
    requires LastOctetNext(e, mem, done, todo) && |todo| > 1
    ensures var o := Pair(e, mem, odLen);
      o.acts == [Read(e.addr)] && Reading(o.e, mem, done + todo[..1], todo[1..])
  {
    hide Bit, SetBits, EM.NextBit, Pair, EM.ReadMemoryByte, EM.Signal;
    PairReads(e, mem, odLen);
    ThirdOctet(e, mem[e.addr]);
    NextIsHead(mem[0], e.cnt);
    NextIsHead(mem[0], e.cnt + 1);
    HeadStart(mem[0], e.cnt + 1);
    assert EntryComplete(e, mem[e.addr], todo[1]).events[|done|] == EntryOf(mem, e.cnt);
  }

  lemma {:induction false} PairsThree(e: EventHandler, mem: Memory, odLen: nat, k: nat)
    ensures var o1 := Pair(e, mem, odLen); var o2 := Pair(o1.e, mem, odLen); var o3 := Pair(o2.e, mem, odLen);
      var rest := Pairs(o3.e, mem, odLen, k);
      Pairs(e, mem, odLen, k + 3) == EM.EvOut(rest.e, o1.acts + o2.acts + o3.acts + rest.acts)
  {
    hide Pair;
    var o1 := Pair(e, mem, odLen);
    var o2 := Pair(o1.e, mem, odLen);
    assert Pairs(o1.e, mem, odLen, k + 2).acts == o2.acts + Pairs(o2.e, mem, odLen, k + 1).acts;
  }

  lemma {:induction false} NoPairs(e: EventHandler, mem: Memory, odLen: nat)
    ensures Pairs(e, mem, odLen, 0) == EM.EvOut(e, [])
  {
  }

  lemma {:induction false} ReadEntries(e: EventHandler, mem: Memory, odLen: nat, done: seq<nat>, todo: seq<nat>)
    requires Reading(e, mem, done, todo)
    ensures var o := Pairs(e, mem, odLen, 3 * |todo|);
      o.acts == EntryReads(todo) + Indications(mem, done + todo) && Signalled(o.e)
    decreases |todo|
  {
    hide Pair, Pairs, Bit, SetBits, Indications;
    var o1 := Pair(e, mem, odLen);
    var o2 := Pair(o1.e, mem, odLen);
    var o3 := Pair(o2.e, mem, odLen);
    ReadTwoOctets(e, mem, odLen, done, todo);
    PairsThree(e, mem, odLen, 3 * (|todo| - 1));
    if |todo| > 1 {
      ReadMoreEntries(o2.e, mem, odLen, done, todo);
      ReadEntries(o3.e, mem, odLen, done + todo[..1], todo[1..]);
      assert done + todo[..1] + todo[1..] == done + todo;
    } else {
      ReadLastOctet(o2.e, mem, odLen, done, todo);
      assert todo[1..] == [];
      NoPairs(o3.e, mem, odLen);
    }
  }

  lemma StatusCodeRead(e: EventHandler, mem: Memory, odLen: nat)
    requires e.state == EvIdle1 && e.active && !e.confirmation
    requires EM.Detailed(mem[0]) && SetBits(mem[0], 0) != []
    ensures var o := Pair(e, mem, odLen);
      o.acts == [Read(0)] && Reading(o.e, mem, [], SetBits(mem[0], 0))
  {
    hide Bit, SetBits, EM.NextBit, EM.Signal;
    NextIsHead(mem[0], 0);
    CountIsLength(mem[0], 0);
    var bits := SetBits(mem[0], 0);
    assert bits == SetBits(mem[0], bits[0]) by {
      HeadStart(mem[0], 0);
    }
  }

  lemma {:induction false} HeadStart(status: Octet, from: nat)
    requires from < MAX_EVENTS && SetBits(status, from) != []
    ensures SetBits(status, from) == SetBits(status, SetBits(status, from)[0])
    decreases MAX_EVENTS - from
  {
    if !Bit(status, from) {
      HeadStart(status, from + 1);
    }
  }

  // The readout: a detailed status code with n >= 1 of its six event bits set
  // is followed by exactly the reads of the n flagged entries, ascending, and
  // then n indications of those entries counting down to zero; after that the
  // handler owes the device a confirmation.
  lemma Readout(e: EventHandler, mem: Memory, odLen: nat)
    requires e.state == EvIdle1 && e.active && !e.confirmation
    requires EM.Detailed(mem[0]) && SetBits(mem[0], 0) != []
    ensures var bits := SetBits(mem[0], 0); var o := Pairs(e, mem, odLen, 1 + 3 * |bits|);
      && o.acts == [Read(0)] + EntryReads(bits) + Indications(mem, bits)
      && Signalled(o.e)
      && |bits| == EM.CountBits(mem[0], MAX_EVENTS) && forall i, j :: 0 <= i < j < |bits| ==> bits[i] < bits[j]
  {
    hide Pair, Bit, SetBits, Indications, EntryReads;
    AllAscend(mem[0]);
    var bits := SetBits(mem[0], 0);
    StatusCodeRead(e, mem, odLen);
    CountIsLength(mem[0], 0);
    ReadEntries(Pair(e, mem, odLen).e, mem, odLen, [], bits);
    assert [] + bits == bits;
  }

  // What the confirmation writes: the octet that happens to be the transmit
  // buffer's first, which is the request's own header.
  function Confirm(odLen: nat): Act { OdRequest(true, Diagnosis, 0, Payload([0x40], odLen)) }

  // The next master message confirms, and the one after starts afresh.
  lemma ConfirmationWritten(e: EventHandler, odLen: nat)
    requires Signalled(e)
    ensures EM.Step(e, EvIn(MasterMessage, odLen, false, [])) == EM.EvOut(e.(confirmation := false), [Confirm(odLen)])
  {
  }

  // ---- the same on whatever inputs the handler is given ----

  lemma {:induction false} PairsLast(e: EventHandler, mem: Memory, odLen: nat, k: nat)
    ensures var before := Pairs(e, mem, odLen, k); var last := Pair(before.e, mem, odLen);
      Pairs(e, mem, odLen, k + 1) == EM.EvOut(last.e, before.acts + last.acts)
    decreases k
  {
    hide Pair;
    var first := Pair(e, mem, odLen);
    if k == 0 {
      NoPairs(e, mem, odLen);
      NoPairs(first.e, mem, odLen);
      assert [] + first.acts == first.acts == first.acts + [];
    } else {
      PairsLast(first.e, mem, odLen, k - 1);
      var before := Pairs(first.e, mem, odLen, k - 1);
      var last := Pair(before.e, mem, odLen);
      assert first.acts + (before.acts + last.acts) == (first.acts + before.acts) + last.acts;
    }
  }

  // The address asked for is one the memory has.
  ghost predicate AddressOk(e: EventHandler) {
    e.state == EvReadEvent2 ==> e.addr == 0 || (e.cnt < MAX_EVENTS && 3 * e.cnt + 1 <= e.addr <= 3 * e.cnt + 3)
  }

  lemma ReadsOk(e: EventHandler, b: Octet)
    requires AddressOk(e) && e.state == EvReadEvent2
    ensures e.addr == 0 ==> AddressOk(EM.ReadStatusCode(e, b).e)
    ensures e.addr != 0 ==> AddressOk(EM.ReadMemoryByte(e, b).e)
  {
    hide Bit, EM.NextBit, EM.Signal, EM.CountBits;
    forall x
      ensures EM.Signal(x).e.state == EvIdle1
    {
      SignalIdle(x);
    }
    assert forall st: Octet, from: nat :: from <= MAX_EVENTS ==> EM.NextBit(st, from) <= MAX_EVENTS;
  }

  lemma SignalIdle(e: EventHandler)
    ensures EM.Signal(e).e.state == EvIdle1
  {
    hide EM.CountBits, EM.PlainInds, EM.DetailInds;
  }

  lemma StepOk(e: EventHandler, i: EvIn)
    requires AddressOk(e)
    ensures AddressOk(EM.Step(e, i).e)
  {
    hide EM.ReadStatusCode, EM.ReadMemoryByte, Payload, AddressOk;
    assert forall x: EventHandler :: x.state != EvReadEvent2 || x.addr == 0 ==> AddressOk(x) by { RestOk(); }
    if e.state == EvReadEvent2 { ReadsOk(e, At(i.rx, 0)); }
  }

  lemma RestOk()
    ensures forall x: EventHandler :: x.state != EvReadEvent2 || x.addr == 0 ==> AddressOk(x)
  {
  }

  // A reply carries the octet at the address the request before it asked for.
  ghost predicate Answers(asked: seq<Act>, d: EvIn, mem: Memory) {
    asked != [] && asked[0].OdRequest? && asked[0].ctrl < 19 ==> At(d.rx, 0) == mem[asked[0].ctrl]
  }

  ghost predicate FromMemory(e: EventHandler, ins: seq<EvIn>, mem: Memory) {
    forall k :: 0 <= 2 * k && 2 * k + 1 < |ins| ==> Answers(EM.Step(EM.Run(e, ins[..2 * k]).e, ins[2 * k]).acts, ins[2 * k + 1], mem)
  }

  ghost predicate Alternating(ins: seq<EvIn>, odLen: nat) {
    forall k :: 0 <= k < |ins| ==>
      ins[k].trigger == (if k % 2 == 0 then MasterMessage else DeviceMessage) && ins[k].odLen == odLen && !ins[k].comLost
  }

  // One such request and reply is a Pair.
  lemma PairIs(e: EventHandler, m: EvIn, d: EvIn, mem: Memory)
    requires AddressOk(e) && m.trigger == MasterMessage && d.trigger == DeviceMessage && !m.comLost && !d.comLost && d.odLen == m.odLen
    requires Answers(EM.Step(e, m).acts, d, mem)
    ensures var x := EM.Step(e, m); var y := EM.Step(x.e, d); Pair(e, mem, m.odLen) == EM.EvOut(y.e, x.acts + y.acts)
  {
    hide EM.ReadStatusCode, EM.ReadMemoryByte, Payload;
  }

  // Two inputs more.
  lemma RunTwo(e: EventHandler, ins: seq<EvIn>, j: nat)
    requires 2 * j + 2 <= |ins|
    ensures var before := EM.Run(e, ins[..2 * j]); var x := EM.Step(before.e, ins[2 * j]); var y := EM.Step(x.e, ins[2 * j + 1]);
      EM.Run(e, ins[..2 * (j + 1)]) == EM.EvOut(y.e, before.acts + (x.acts + y.acts))
  {
    hide EM.Step, EM.Run;
    var front, m, d := ins[..2 * j], ins[2 * j], ins[2 * j + 1];
    var before := EM.Run(e, front);
    assert ins[..2 * (j + 1)] == front + ([m] + [d]);
    EM.RunAppend(e, front, [m] + [d]);
    EM.RunAppend(before.e, [m], [d]);
    EM.RunOne(before.e, m);
    EM.RunOne(EM.Step(before.e, m).e, d);
  }

  lemma {:induction false} RunIsPairs(e: EventHandler, ins: seq<EvIn>, mem: Memory, odLen: nat, k: nat)
    requires AddressOk(e) && Alternating(ins, odLen) && FromMemory(e, ins, mem) && 2 * k <= |ins|
    ensures EM.Run(e, ins[..2 * k]) == Pairs(e, mem, odLen, k) && AddressOk(EM.Run(e, ins[..2 * k]).e)
  {
    hide EM.Step, EM.Run, Pair, Pairs, AddressOk, FromMemory, Alternating;
    if k == 0 {
      assert ins[..2 * k] == [];
      EM.RunNothing(e);
      NoPairs(e, mem, odLen);
    } else {
      var j := k - 1;
      RunIsPairs(e, ins, mem, odLen, j);
      RunTwo(e, ins, j);
      var before := EM.Run(e, ins[..2 * j]);
      AtPair(e, ins, mem, odLen, j);
      PairIs(before.e, ins[2 * j], ins[2 * j + 1], mem);
      StepOk(before.e, ins[2 * j]);
      StepOk(EM.Step(before.e, ins[2 * j]).e, ins[2 * j + 1]);
      PairsLast(e, mem, odLen, j);
    }
  }

  // The j-th pair of inputs.
  lemma AtPair(e: EventHandler, ins: seq<EvIn>, mem: Memory, odLen: nat, j: nat)
    requires Alternating(ins, odLen) && FromMemory(e, ins, mem) && 2 * j + 2 <= |ins|
    ensures var m, d := ins[2 * j], ins[2 * j + 1];
      && m.trigger == MasterMessage && d.trigger == DeviceMessage && !m.comLost && !d.comLost && m.odLen == d.odLen == odLen
      && Answers(EM.Step(EM.Run(e, ins[..2 * j]).e, m).acts, d, mem)
  {
    hide EM.Step, EM.Run, Answers;
    assert 0 <= 2 * j && 2 * j + 1 < |ins|;
  }

  // Everything a readout does, confirmation included.
  function WholeReadout(mem: Memory, odLen: nat): (acts: seq<Act>) {
    var bits := SetBits(mem[0], 0);
    [Read(0)] + EntryReads(bits) + Indications(mem, bits) + [Confirm(odLen)]
  }

  // Request and reply for the status code and each octet, and the confirmation.
  function TriggersFor(mem: Memory): nat { 2 * (1 + 3 * |SetBits(mem[0], 0)|) + 1 }

  lemma {:induction false} ReadoutRun(e: EventHandler, ins: seq<EvIn>, mem: Memory, odLen: nat)
    requires e.state == EvIdle1 && e.active && !e.confirmation && EM.Detailed(mem[0]) && SetBits(mem[0], 0) != []
    requires Alternating(ins, odLen) && FromMemory(e, ins, mem) && |ins| == TriggersFor(mem)
    ensures EM.Run(e, ins).acts == WholeReadout(mem, odLen)
    ensures var x := EM.Run(e, ins).e; x.state == EvIdle1 && x.active && !x.confirmation
  {
    hide EM.Step, EM.Run, Pairs, SetBits, Indications, EntryReads, FromMemory, EM.Detailed, Confirm;
    var k := 1 + 3 * |SetBits(mem[0], 0)|;
    RunIsPairs(e, ins, mem, odLen, k);
    Readout(e, mem, odLen);
    var o := EM.Run(e, ins[..2 * k]);
    assert ins == ins[..2 * k] + [ins[2 * k]];
    EM.RunAppend(e, ins[..2 * k], [ins[2 * k]]);
    EM.RunOne(o.e, ins[2 * k]);
    ConfirmationWritten(o.e, odLen);
    MasterIs(o.e, ins[2 * k]);
  }

  // A master message's handling does not look at what was received.
  lemma MasterIs(e: EventHandler, m: EvIn)
    requires m.trigger == MasterMessage && !m.comLost
    ensures EM.Step(e, m) == EM.Step(e, EvIn(MasterMessage, m.odLen, false, []))
  {
    hide EM.ReadStatusCode, EM.ReadMemoryByte, Payload;
  }
}
