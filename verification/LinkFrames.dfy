// What one call of each handler leaves alone, and exactly what it adds to the
// log.
module LinkFrames {
  import opened DlTypes
  import opened LinkLayer
  import IM = IsduMachine
  import EM = EventMachine

  lemma RequestFrame(s: Dl, a: Act)
    requires a.OdRequest?
    ensures var t := Request(s, a); t == s.(tx := t.tx, od := s.od.(txLen := t.od.txLen, rxLen := t.od.rxLen))
  {
  }

  // Performing acts changes the transmit buffer, the OD lengths and the log,
  // and nothing else.
  lemma {:induction false} PerformFrame(s: Dl, acts: seq<Act>)
    ensures var t := Perform(s, acts);
      t == s.(tx := t.tx, od := s.od.(txLen := t.od.txLen, rxLen := t.od.rxLen), log := s.log + acts)
    decreases |acts|
  {
    hide Request;
    if acts == [] {
      assert s.log + acts == s.log;
    } else {
      var a := acts[0];
      if a.OdRequest? { RequestFrame(s, a); }
      var u := Log(if a.OdRequest? then Request(s, a) else s, [a]);
      PerformFrame(u, acts[1..]);
      assert s.log + [a] + acts[1..] == s.log + acts;
    }
  }

  // The ISDU handler touches its own record and the pending command.
  lemma IsduCallFrame(s: Dl)
    ensures var t := IsduCall(s); var o := IM.Step(IM.Ctx(s.isdu, s.mh.rw), IsduInput(s));
      && t == s.(isdu := o.c.h, mh := s.mh.(rw := o.c.rw), tx := t.tx,
                 od := s.od.(txLen := t.od.txLen, rxLen := t.od.rxLen), log := s.log + o.acts)
  {
    hide IM.Step;
    var o := IM.Step(IM.Ctx(s.isdu, s.mh.rw), IsduInput(s));
    PerformFrame(s.(isdu := o.c.h, mh := s.mh.(rw := o.c.rw)), o.acts);
  }

  // The event handler touches its own record only.
  lemma EvCallFrame(s: Dl)
    ensures var t := EvCall(s); var o := EM.Step(s.ev, EventInput(s));
      t == s.(ev := o.e, tx := t.tx, od := s.od.(txLen := t.od.txLen, rxLen := t.od.rxLen), log := s.log + o.acts)
  {
    hide EM.Step;
    var o := EM.Step(s.ev, EventInput(s));
    PerformFrame(s.(ev := o.e), o.acts);
  }

  function CommandActs(s: Dl): seq<Act> {
    if s.cmd.state == CmdMasterCommand2
    then [OdRequest(true, Page, 0, IM.Payload([s.cmd.masterCommand], s.mh.odLen))] else []
  }

  // So does the command handler.
  lemma CmdCallFrame(s: Dl)
    ensures var t := CmdCall(s);
      && t == s.(cmd := t.cmd, tx := t.tx, od := s.od.(txLen := t.od.txLen, rxLen := t.od.rxLen), log := s.log + CommandActs(s))
      && t.cmd.active == s.cmd.active
  {
    hide IM.Payload, Perform;
    PerformFrame(s, CommandActs(s));
    assert s.log + [] == s.log;
  }

  // Reporting a master command confirms it at most once.
  lemma ReportFrame(s: Dl, status: Status)
    ensures var t := ReportMasterCommand(s, status);
      && t == s.(cmd := s.cmd.(masterCommand := MASTERCMD_NONE), log := t.log)
      && t.log in {s.log, s.log + [DevicemodeCnf(status, s.cmd.masterCommand)]}
  {
  }

  // What a turn of the OD handler leaves as it was.
  ghost predicate SameSession(s: Dl, t: Dl) {
    && t.mode == s.mode && t.link == s.link && t.rx == s.rx && t.pd == s.pd
    && t.mh == s.mh.(rw := t.mh.rw) && t.mh.rw in {s.mh.rw, RwNone}
    && t.od.active == s.od.active && t.ev.flag == s.ev.flag
  }

  lemma PassedOnFrame(s: Dl)
    ensures SameSession(s, ToIsdu(s)) && SameSession(s, ToEvents(s)) && SameSession(s, ToCommand(s))
  {
    hide IM.Step, EM.Step, IsduCall, EvCall, CmdCall, IsduInput, EventInput;
    var a := Log(s, [IsduTrig(IsduInput(s))]);
    IsduCallFrame(a);
    IM.StepActs(IM.Ctx(a.isdu, a.mh.rw), IsduInput(a));
    var b := Log(s, [EventTrig(EventInput(s))]);
    EvCallFrame(b);
    EM.StepActs(b.ev, EventInput(b));
    CmdCallFrame(Log(s, [CmdTrig]));
  }

  lemma OdCallFrame(s: Dl)
    ensures SameSession(s, OdCall(s))
  {
    hide ToIsdu, ToEvents, ToCommand, ReportMasterCommand;
    PassedOnFrame(s);
    ReportFrame(SetTrigger(s, TrigNone), NoError);
  }

  lemma TriggerFrame(s: Dl, t: Trigger)
    ensures SameSession(s, TriggerOd(s, t))
  {
    hide OdCall;
    OdCallFrame(SetTrigger(s, t));
  }

  // What an OD request makes of the next message: its own control octet, the
  // M-sequence type, the process data untouched and, for a write, exactly its
  // payload behind them; for a read, no payload and a reply of the OD length.
  lemma MessageCarriesRequest(s: Dl, a: Act)
    requires a.OdRequest? && a.ctrl <= 31 && LengthArg(a, s.mh.odLen) <= 32 && (a.write ==> |a.payload| == s.mh.odLen)
    requires s.od.outOffset == 2 + s.pd.txLen && |s.tx| == BUFFER_SIZE && s.od.outOffset + s.mh.odLen <= BUFFER_SIZE
    ensures var t := Request(s, a); var m := Message(t);
      && m == [MasterControl(a.write, a.channel, a.ctrl), s.typeOctet] + s.tx[2..2 + s.pd.txLen] + (if a.write then a.payload else [])
      && t.od.rxLen == (if a.write then 0 else s.mh.odLen)
  {
    var m := Message(Request(s, a));
    var want := [MasterControl(a.write, a.channel, a.ctrl), s.typeOctet] + s.tx[2..2 + s.pd.txLen] + (if a.write then a.payload else []);
    assert |m| == |want|;
    assert forall i :: 0 <= i < |m| ==> m[i] == want[i];
  }
}
