// Who filled which message and who was given which reply, as the log tells it.
module OdMarks {
  import opened Octets
  import opened DlTypes

  predicate IsMark(a: Act) { a.IsduTrig? || a.EventTrig? || a.CmdTrig? || a.FlagInd? }

  // What the OD handler passed on, and what each reply said of events, in order.
  function Marks(log: seq<Act>): (m: seq<Act>) {
    if log == [] then []
    else
      var a := log[|log| - 1];
      Marks(log[..|log| - 1]) + (if IsMark(a) then [a] else [])
  }

  // A master trigger: the handler may fill the next message.
  predicate Asks(a: Act) {
    match a
    case IsduTrig(i) => i.trigger == MasterMessage
    case EventTrig(i) => i.trigger == MasterMessage
    case CmdTrig => true
    case _ => false
  }

  // A device trigger: the handler is given the reply.
  predicate Answers(a: Act) {
    match a
    case IsduTrig(i) => i.trigger == DeviceMessage
    case EventTrig(i) => i.trigger == DeviceMessage
    case _ => false
  }

  predicate SameHandler(a: Act, b: Act) { (a.IsduTrig? && b.IsduTrig?) || (a.EventTrig? && b.EventTrig?) }

  // Who filled the message that is out and has not been given its reply. An
  // event request is dropped when the reply says that the events are gone.
  function Open(m: seq<Act>): Option<Act> {
    if m == [] then None
    else
      var a := m[|m| - 1]; var before := Open(m[..|m| - 1]);
      if a.FlagInd? then (if !a.flag && before.Some? && before.value.EventTrig? then None else before)
      else if Asks(a) then Some(a)
      else None
  }

  // Mark a may follow the marks m.
  predicate Fits(m: seq<Act>, a: Act) {
    if a.FlagInd? then true
    else if Asks(a) then Open(m) == None || Open(m) == Some(CmdTrig)
    else Answers(a) && Open(m).Some? && SameHandler(Open(m).value, a)
  }

  // Every reply goes to whoever filled the message before it, and nobody fills
  // the next one while the ISDU or the event handler still waits for its reply.
  predicate Paired(m: seq<Act>) {
    m == [] || (Paired(m[..|m| - 1]) && Fits(m[..|m| - 1], m[|m| - 1]))
  }

  lemma PairedNext(m: seq<Act>, a: Act)
    ensures Paired(m + [a]) <==> Paired(m) && Fits(m, a)
    ensures Open(m + [a]) ==
      if a.FlagInd? then (if !a.flag && Open(m).Some? && Open(m).value.EventTrig? then None else Open(m))
      else if Asks(a) then Some(a)
      else None
  {
    assert (m + [a])[..|m|] == m;
  }

  lemma {:induction false} PairedFront(m: seq<Act>, k: nat)
    requires Paired(m) && k <= |m|
    ensures Paired(m[..k])
  {
    if k < |m| {
      PairedFront(m[..|m| - 1], k);
      assert m[..|m| - 1][..k] == m[..k];
    } else {
      assert m[..k] == m;
    }
  }

  // ---- what each handler sees and does ----

  function Inputs(log: seq<Act>): (ins: seq<IsduIn>) {
    if log == [] then []
    else
      var a := log[|log| - 1];
      Inputs(log[..|log| - 1]) + (if a.IsduTrig? then [a.input] else [])
  }

  function EvInputs(log: seq<Act>): (ins: seq<EvIn>) {
    if log == [] then []
    else
      var a := log[|log| - 1];
      EvInputs(log[..|log| - 1]) + (if a.EventTrig? then [a.einput] else [])
  }

  predicate OnChannel(a: Act) { a.IsduCnf? || (a.OdRequest? && a.channel == Isdu) }

  // What the ISDU handler does on its channel, and its confirmations.
  function Traffic(log: seq<Act>): (t: seq<Act>) {
    if log == [] then []
    else
      var a := log[|log| - 1];
      Traffic(log[..|log| - 1]) + (if OnChannel(a) then [a] else [])
  }

  predicate OnDiagnosis(a: Act) { a.EventInd? || (a.OdRequest? && a.channel == Diagnosis) }

  // What the event handler does on its channel, and its indications.
  function EvTraffic(log: seq<Act>): (t: seq<Act>) {
    if log == [] then []
    else
      var a := log[|log| - 1];
      EvTraffic(log[..|log| - 1]) + (if OnDiagnosis(a) then [a] else [])
  }

  lemma {:induction false} Joined(a: seq<Act>, b: seq<Act>)
    ensures Marks(a + b) == Marks(a) + Marks(b)
    ensures Inputs(a + b) == Inputs(a) + Inputs(b) && EvInputs(a + b) == EvInputs(a) + EvInputs(b)
  {
    if b == [] {
      assert a + b == a;
    } else {
      var ab := a + b;
      assert ab[..|ab| - 1] == a + b[..|b| - 1];
      Joined(a, b[..|b| - 1]);
    }
  }

  lemma {:induction false} JoinedTraffic(a: seq<Act>, b: seq<Act>)
    ensures Traffic(a + b) == Traffic(a) + Traffic(b) && EvTraffic(a + b) == EvTraffic(a) + EvTraffic(b)
  {
    if b == [] {
      assert a + b == a;
    } else {
      var ab := a + b;
      assert ab[..|ab| - 1] == a + b[..|b| - 1];
      JoinedTraffic(a, b[..|b| - 1]);
    }
  }

  lemma {:induction false} NoMarks(acts: seq<Act>)
    requires forall k :: 0 <= k < |acts| ==> !IsMark(acts[k])
    ensures Marks(acts) == [] && Inputs(acts) == [] && EvInputs(acts) == []
  {
    if acts != [] { NoMarks(acts[..|acts| - 1]); }
  }

  lemma {:induction false} NoTraffic(acts: seq<Act>)
    requires forall k :: 0 <= k < |acts| ==> !OnChannel(acts[k])
    ensures Traffic(acts) == []
  {
    if acts != [] { NoTraffic(acts[..|acts| - 1]); }
  }

  lemma {:induction false} NoEvTraffic(acts: seq<Act>)
    requires forall k :: 0 <= k < |acts| ==> !OnDiagnosis(acts[k])
    ensures EvTraffic(acts) == []
  {
    if acts != [] { NoEvTraffic(acts[..|acts| - 1]); }
  }

  lemma {:induction false} AllTraffic(acts: seq<Act>)
    requires forall k :: 0 <= k < |acts| ==> OnChannel(acts[k])
    ensures Traffic(acts) == acts
  {
    if acts != [] { AllTraffic(acts[..|acts| - 1]); }
  }

  lemma {:induction false} AllEvTraffic(acts: seq<Act>)
    requires forall k :: 0 <= k < |acts| ==> OnDiagnosis(acts[k])
    ensures EvTraffic(acts) == acts
  {
    if acts != [] { AllEvTraffic(acts[..|acts| - 1]); }
  }

  // One act alone.
  lemma Alone(a: Act)
    ensures Marks([a]) == (if IsMark(a) then [a] else [])
    ensures Inputs([a]) == (if a.IsduTrig? then [a.input] else []) && EvInputs([a]) == (if a.EventTrig? then [a.einput] else [])
    ensures Traffic([a]) == (if OnChannel(a) then [a] else []) && EvTraffic([a]) == (if OnDiagnosis(a) then [a] else [])
  {
    assert [a][..0] == [];
  }

  lemma {:induction false} InputsOfMarks(log: seq<Act>)
    ensures Inputs(Marks(log)) == Inputs(log) && EvInputs(Marks(log)) == EvInputs(log)
  {
    if log != [] {
      var front, a := log[..|log| - 1], log[|log| - 1];
      InputsOfMarks(front);
      if IsMark(a) {
        Joined(Marks(front), [a]);
        Alone(a);
      } else {
        assert Marks(log) == Marks(front);
      }
    }
  }

  // ---- alternation ----

  function Turn(k: nat): Trigger { if k % 2 == 0 then MasterMessage else DeviceMessage }

  predicate IsduOpen(m: seq<Act>) { Open(m).Some? && Open(m).value.IsduTrig? }
  predicate EventOpen(m: seq<Act>) { Open(m).Some? && Open(m).value.EventTrig? }

  // Paired marks alternate for the ISDU handler: master, device, master, ...
  lemma {:induction false} PairedAlternates(m: seq<Act>)
    requires Paired(m)
    ensures forall k :: 0 <= k < |Inputs(m)| ==> Inputs(m)[k].trigger == Turn(k)
    ensures IsduOpen(m) <==> |Inputs(m)| % 2 == 1
  {
    if m != [] {
      PairedAlternates(m[..|m| - 1]);
    }
  }

  // Every reply so far has reported pending events.
  ghost predicate Held(m: seq<Act>) { forall k :: 0 <= k < |m| ==> m[k] != FlagInd(false) }

  // And so for the event handler, as long as the event flag is held.
  lemma {:induction false} EventsAlternate(before: seq<Act>, m: seq<Act>)
    requires Paired(before + m) && Held(m)
    ensures var p := if EventOpen(before) then 1 else 0;
      && (forall k :: 0 <= k < |EvInputs(m)| ==> EvInputs(m)[k].trigger == Turn(k + p))
      && (EventOpen(before + m) <==> (|EvInputs(m)| + p) % 2 == 1)
  {
    if m == [] {
      assert before + m == before;
    } else {
      var front, a := m[..|m| - 1], m[|m| - 1];
      assert before + m == (before + front) + [a];
      PairedNext(before + front, a);
      assert Held(front) && m[|m| - 1] != FlagInd(false);
      EventsAlternate(before, front);
    }
  }
}
