// iolink_dl.c as it works: one object whose handlers update its fields, its
// ISDU buffer and its transmit buffer in place. Every method is proved against
// the function of LinkLayer of the same handler, so that what is proved about
// those holds of this object.
module DataLink {
  import opened Octets
  import opened DlTypes
  import opened LinkLayer
  import IsduCoding
  import IM = IsduMachine
  import EM = EventMachine
  import Watchdog
  import IsduAccounting
  import OdMarks
  import OdInterleaving
  import SharedChannel
  import LinkUp
  import SessionMessages

  class Link {
    var mode: ModeHandler
    var mh: MessageHandler
    var pd: PdLengths
    var od: OdHandler
    var cmd: CommandHandler
    var ev: EventHandler
    var link: LinkFlags
    var typeOctet: Octet
    var isduState: IsduState
    var isduActive: bool
    var isduTotalLen: Octet
    var isduCurrentSeg: Octet
    var isduTotalSeg: Octet
    var isduTimer: nat
    var isduDirRead: bool
    const isduData: array<Octet>
    const tx: array<Octet>
    var rx: seq<Octet>
    ghost var log: seq<Act>

    ghost predicate Valid() {
      isduData.Length == IsduCoding.ISDU_MAX_SIZE && tx.Length == BUFFER_SIZE && isduData != tx
    }

    ghost function IsduRecord(): IsduHandler
      reads this, isduData
    {
      IsduHandler(isduState, isduActive, isduTotalLen, isduCurrentSeg, isduTotalSeg, isduData[..], isduTimer, isduDirRead)
    }

    // The state LinkLayer speaks of.
    ghost function Abs(): Dl
      reads this, isduData, tx
    {
      Dl(mode, mh, pd, od, cmd, IsduRecord(), ev, link, typeOctet, tx[..], rx, log)
    }

    constructor ()
      ensures Valid() && fresh(isduData) && fresh(tx)
      ensures mode.state == ModeIdle0 && log == []
      ensures Watchdog.Bounded(Abs()) && IsduAccounting.Inv(Abs()) && LinkUp.Unplugged(Abs())
      ensures !ev.flag && ev.state == EvInactive0 && !ev.confirmation && od.addr == 0
    {
      mode := ModeHandler(ModeIdle0, DlInactive, false);
      mh := MessageHandler(MhInactive0, MhCmdInactive, RwNone, 0, 0, 0, 0, 0);
      pd := PdLengths(0, 0);
      od := OdHandler(OdInactive0, false, TrigNone, 0, 0, 0, 0, 2);
      cmd := CommandHandler(CmdInactive0, false, CodeNone, MASTERCMD_NONE);
      ev := EventHandler(EvInactive0, false, false, false, 0, 0, 0, 0, 0, EM.NoEvents());
      link := LinkFlags(false, false, false, false, false, false, 0, true, 0);
      typeOctet := 0;
      isduState, isduActive, isduTotalLen, isduCurrentSeg, isduTotalSeg := IsduInactive0, false, 0, 0, 0;
      isduTimer, isduDirRead := 0, false;
      isduData := new Octet[IsduCoding.ISDU_MAX_SIZE](_ => 0);
      tx := new Octet[BUFFER_SIZE](_ => 0);
      rx := [];
      log := [];
    }

    // A copy into a buffer, as far as the buffer goes.
    static method CopyInto(a: array<Octet>, off: nat, src: seq<Octet>)
      modifies a
      ensures a[..] == Blit(old(a[..]), off, src)
    {
      var i := 0;
      while i < |src| && off + i < a.Length
        invariant 0 <= i <= |src|
        invariant a[..] == Blit(old(a[..]), off, src[..i])
      {
        a[off + i] := src[i];
        i := i + 1;
      }
    }

    // OD_req
    method OdReq(write: bool, channel: Channel, ctrl: nat, payload: seq<Octet>)
      requires Valid()
      modifies this`od, this`log, tx
      ensures Abs() == Act1(old(Abs()), OdRequest(write, channel, ctrl, payload))
    {
      ghost var was := Abs();
      var length := if channel == Isdu && ctrl !in {FLOWCTRL_IDLE, FLOWCTRL_ABORT} then mh.odLen else if write then 1 else 0;
      if length <= 32 && ctrl <= 31 {
        tx[0] := MasterControl(write, channel, ctrl);
        tx[1] := typeOctet;
        assert tx[..] == Blit(was.tx, 0, [MasterControl(write, channel, ctrl), typeOctet]);
        if write {
          od := od.(txLen := mh.odLen, rxLen := 0);
          CopyInto(tx, od.outOffset, payload);
        } else {
          od := od.(txLen := 0, rxLen := mh.odLen);
        }
      }
      log := log + [OdRequest(write, channel, ctrl, payload)];
    }

    // ---- ISDU handler ----

    // Why the transfer ended in an error.
    method Cause() returns (status: Status)
      requires Valid()
      ensures status == IM.ErrorCause(IsduContext(Abs()), IsduInput(Abs()))
    {
      hide IM.ValidHeader, IM.TimerElapsed;
      if IM.TimerElapsed(isduTimer, link.now) {
        status := IsduTimeout;
      } else if mode.comLost {
        status := NoComm;
      } else if mh.rw == RwIsduAbort {
        status := IsduAborted;
      } else if !IM.ValidHeader(isduData[..], isduDirRead) {
        status := IllegalService;
      } else {
        status := Invalid;
      }
    }

    // iolink_dl_isdu_h_sm_isdu_error4
    method IsduError4Step()
      requires Valid()
      modifies this`isduState, this`isduTotalSeg, this`mh, this`od, this`log, tx
      ensures Abs() == IsduAfter(old(Abs()), IM.Error4(IsduContext(old(Abs())), IsduInput(old(Abs()))))
    {
      hide IM.ErrorCause, Act1;
      IsduAfterFew(Abs(), IM.Error4(IsduContext(Abs()), IsduInput(Abs())));
      hide IsduAfter;
      if !isduActive {
        isduState := IsduInactive0;
        log := log + [IsduDropped];
      } else {
        var status := Cause();
        OdReq(false, Isdu, FLOWCTRL_ABORT, []);
        EndTransfer([], if status == IllegalService then IM.ServiceOf(isduData[..]) else IsduCoding.NO_SERVICE, status);
      }
    }

    // The confirmation, and back to rest.
    method EndTransfer(data: seq<Octet>, service: nat, status: Status)
      modifies this`isduState, this`isduTotalSeg, this`mh, this`log
      ensures Abs() == Log(old(Abs()), [IsduCnf(data, service, status)]).(
                         isdu := old(IsduRecord()).(totalSeg := 0, state := IsduIdle1), mh := old(mh).(rw := RwNone))
    {
      log := log + [IsduCnf(data, service, status)];
      isduTotalSeg := 0;
      mh := mh.(rw := RwNone);
      isduState := IsduIdle1;
    }

    // iolink_dl_isdu_h_sm_enter_isduerror4
    method EnterIsduError4()
      requires Valid()
      modifies this`isduState, this`isduTotalSeg, this`mh, this`od, this`log, tx
      ensures Abs() == IsduAfter(old(Abs()), IM.EnterError4(IsduContext(old(Abs())), IsduInput(old(Abs()))))
    {
      hide IM.Error4, Perform;
      IsduAfterFew(Abs(), IM.EnterError4(IsduContext(Abs()), IsduInput(Abs())));
      if !isduActive {
        isduTotalSeg := 0;
        log := log + [IsduCnf([], 0, NoComm)];
        isduState := IsduInactive0;
      } else if od.trigger == MasterMessage {
        IsduError4Step();
      } else {
        isduState := IsduError4;
      }
    }

    // iolink_dl_isdu_h_sm_reception_complete
    method ReceptionComplete()
      requires Valid()
      modifies this`isduState, this`isduCurrentSeg, this`isduTotalSeg, this`mh, this`log
      ensures Abs() == IsduAfter(old(Abs()), IM.ReceptionComplete(IsduContext(old(Abs()))))
    {
      hide IM.TotalLen, IM.LenOf, IM.ServiceOf, IM.ReceptionComplete, XorAll, Slice, IsduAfter;
      CompletionIs(Abs());
      var total: nat := IM.TotalLen(isduData[..]);
      var service := IM.ServiceOf(isduData[..]);
      isduCurrentSeg := 0;
      var data, status := [], Invalid;
      if total != 0 {
        var offset: nat := if IM.LenOf(isduData[..]) == 1 then 2 else 1;
        var checksum := CalcChkPdu(isduData, isduTotalLen);
        data, status := Slice(isduData[..], offset, (total - offset - 1) % 256), if checksum == 0 then NoError else ChecksumError;
      }
      EndTransfer(data, service, status);
    }

    // The request of the idle handler, by the command pending.
    method NextRequest()
      requires Valid() && isduActive && od.trigger == MasterMessage
      modifies this`isduState, this`isduCurrentSeg, this`od, this`log, tx
      ensures Abs() == IsduAfter(old(Abs()), IM.Idle1(IsduContext(old(Abs())), IsduInput(old(Abs()))))
    {
      hide Act1, Slice;
      IsduAfterFew(Abs(), IM.Idle1(IsduContext(Abs()), IsduInput(Abs())));
      hide IsduAfter;
      match mh.rw {
        case RwIsduTransport =>
          OdReq(true, Isdu, FLOWCTRL_START, Slice(isduData[..], 0, mh.odLen));
          isduCurrentSeg := 1;
          isduState := IsduRequest2;
        case RwReadParam => OdReq(false, Page, od.addr, []);
        case RwWriteParam => OdReq(true, Page, od.addr, IM.Payload([od.value], mh.odLen));
        case _ => OdReq(false, Isdu, FLOWCTRL_IDLE, []);
      }
    }

    // iolink_dl_isdu_h_sm_idle1
    method IsduIdle1Step()
      requires Valid()
      modifies this`isduState, this`isduCurrentSeg, this`isduTotalSeg, this`mh, this`od, this`log, tx
      ensures Abs() == IsduAfter(old(Abs()), IM.Idle1(IsduContext(old(Abs())), IsduInput(old(Abs()))))
    {
      hide Act1, Slice;
      IsduAfterFew(Abs(), IM.Idle1(IsduContext(Abs()), IsduInput(Abs())));
      hide IsduAfter;
      if !isduActive {
        if isduTotalSeg != 0 {
          log := log + [IsduCnf([], 0, NoComm)];
          isduTotalSeg := 0;
        }
        isduState := IsduInactive0;
      } else if od.trigger == MasterMessage {
        NextRequest();
      } else if od.trigger == DeviceMessage && mh.rw in {RwReadParam, RwWriteParam} {
        log := log + [if mh.rw == RwReadParam then ReadParamCnf(IM.At(rx, 0), NoError) else WriteParamCnf(NoError)];
        mh := mh.(rw := RwNone);
      }
    }

    // iolink_dl_isdu_h_sm_isdu_request2
    method IsduRequest2Step()
      requires Valid()
      modifies this`isduState, this`isduCurrentSeg, this`isduTotalSeg, this`isduTimer, this`mh, this`od, this`log, tx
      ensures Abs() == IsduAfter(old(Abs()), IM.Request2(IsduContext(old(Abs())), IsduInput(old(Abs()))))
    {
      hide Perform, Blit, Slice, IM.EnterError4, Act1;
      IsduAfterFew(Abs(), IM.Request2(IsduContext(Abs()), IsduInput(Abs())));
      if mh.rw == RwIsduAbort || mode.comLost {
        EnterIsduError4();
      } else if od.trigger == MasterMessage {
        OdReq(true, Isdu, isduCurrentSeg % 16, Slice(isduData[..], mh.odLen * isduCurrentSeg, mh.odLen));
        isduCurrentSeg := (isduCurrentSeg + 1) % 256;
      } else if od.trigger == DeviceMessage && isduCurrentSeg >= isduTotalSeg {
        isduTimer := IM.TimerStart(link.now);
        isduCurrentSeg := 0;
        isduState := IsduWait3;
      }
    }

    // The length of the reply, from its header in the buffer.
    method NoteTotal()
      requires Valid()
      modifies this`isduTotalLen, this`isduTotalSeg
      ensures Abs() == old(Abs()).(isdu := IM.ReadTotal(old(IsduRecord()), mh.odLen))
    {
      hide IM.TotalLen, IM.TotalSegments;
      isduTotalLen := IM.TotalLen(isduData[..]);
      isduTotalSeg := IM.TotalSegments(isduTotalLen, mh.odLen);
    }

    // The first segment of a reply is in the buffer.
    method FirstSegment()
      requires Valid()
      modifies this`isduState, this`isduTotalLen, this`isduCurrentSeg, this`isduTotalSeg, this`isduTimer,
        this`mh, this`od, this`log, tx
      ensures Abs() == IsduAfter(old(Abs()), IM.FirstReply(IsduContext(old(Abs())), IsduInput(old(Abs()))))
    {
      hide IM.EnterError4, IM.ReceptionComplete, IM.ValidHeader, IM.ReadTotal, Perform, Act1;
      ghost var was, o := Abs(), IM.FirstReply(IsduContext(Abs()), IsduInput(Abs()));
      IsduAfterFew(was, o);
      hide IsduAfter;
      if isduData[0] == 1 {
        return; // device busy
      }
      isduTimer := 0;
      if isduData[0] == 0 || !IM.ValidHeader(isduData[..], isduDirRead) {
        IsduAfterSame(was, IsduContext(Abs()), o);
        EnterIsduError4();
      } else {
        NoteTotal();
        isduCurrentSeg := 1;
        IsduAfterSame(was, IsduContext(Abs()), o);
        if isduCurrentSeg >= isduTotalSeg {
          ReceptionComplete();
        } else {
          isduState := IsduResponse5;
        }
      }
    }

    // iolink_dl_isdu_h_sm_isdu_wait3
    method IsduWait3Step()
      requires Valid()
      modifies this, isduData, tx
      ensures Abs() == IsduAfter(old(Abs()), IM.Wait3(IsduContext(old(Abs())), IsduInput(old(Abs()))))
    {
      hide Perform, Blit, Slice, IM.EnterError4, IM.FirstReply, IM.TimerElapsed, Act1;
      IsduAfterFew(Abs(), IM.Wait3(IsduContext(Abs()), IsduInput(Abs())));
      if mh.rw == RwIsduAbort {
        isduTimer := 0;
        EnterIsduError4();
      } else if IM.TimerElapsed(isduTimer, link.now) || mode.comLost {
        EnterIsduError4();
      } else if od.trigger == MasterMessage {
        OdReq(false, Isdu, FLOWCTRL_START, []);
      } else if od.trigger == DeviceMessage {
        CopyInto(isduData, isduCurrentSeg * mh.odLen, Slice(rx, 0, mh.odLen));
        FirstSegment();
      }
    }

    // iolink_dl_isdu_h_sm_isdu_response5
    method IsduResponse5Step()
      requires Valid()
      modifies this, isduData, tx
      ensures Abs() == IsduAfter(old(Abs()), IM.Response5(IsduContext(old(Abs())), IsduInput(old(Abs()))))
    {
      hide Perform, Blit, Slice, IM.EnterError4, IM.ReceptionComplete, IM.ReadTotal, Act1;
      ghost var was, o := Abs(), IM.Response5(IsduContext(Abs()), IsduInput(Abs()));
      IsduAfterFew(was, o);
      hide IsduAfter;
      if mh.rw == RwIsduAbort || mode.comLost {
        EnterIsduError4();
      } else if od.trigger == MasterMessage {
        OdReq(false, Isdu, isduCurrentSeg % 16, []);
      } else if od.trigger == DeviceMessage {
        NoteTotal();
        CopyInto(isduData, isduCurrentSeg * mh.odLen, Slice(rx, 0, mh.odLen));
        isduCurrentSeg := (isduCurrentSeg + 1) % 256;
        IsduAfterSame(was, IsduContext(Abs()), o);
        if isduCurrentSeg >= isduTotalSeg {
          ReceptionComplete();
        }
      }
    }

    // iolink_dl_isdu_h_sm
    method IsduHSm()
      requires Valid()
      modifies this, isduData, tx
      ensures Abs() == IsduCall(old(Abs()))
    {
      hide Perform, IM.Idle1, IM.Request2, IM.Wait3, IM.Error4, IM.Response5;
      IsduAfterFew(Abs(), IM.Inactive0(IsduContext(Abs())));
      match isduState {
        case IsduInactive0 =>
          if isduActive {
            isduTotalSeg, isduCurrentSeg := 0, 0;
            isduState := IsduIdle1;
          }
        case IsduIdle1 => IsduIdle1Step();
        case IsduRequest2 => IsduRequest2Step();
        case IsduWait3 => IsduWait3Step();
        case IsduError4 => IsduError4Step();
        case IsduResponse5 => IsduResponse5Step();
      }
    }

    // ---- event handler ----

    // The entries of a detailed status code, counting down.
    method SignalEntries()
      modifies this`ev, this`log
      ensures ev == old(ev).(current := old(ev).entries) && log == old(log) + EM.DetailInds(old(ev), 0)
    {
      hide EM.Entry;
      var current := 0;
      while current < ev.entries
        invariant current <= ev.entries && ev == old(ev)
        invariant log + EM.DetailInds(ev, current) == old(log) + EM.DetailInds(ev, 0)
      {
        var v := EM.Entry(ev, current);
        log := log + [EventInd(v.lsb + v.msb * 256, v.qualifier, ev.entries - current - 1)];
        current := current + 1;
      }
      ev := ev.(current := current);
    }

    // The fixed events of a status code without details.
    method SignalPlain()
      modifies this`ev, this`log
      ensures ev == old(ev).(entries := ev.entries)
      ensures var bits := EM.CountBits(ev.statusCode, 5);
        ev.entries == if old(ev).entries >= bits then old(ev).entries - bits else 0
      ensures log == old(log) + EM.PlainInds(old(ev).statusCode, 0, old(ev).entries)
    {
      hide Bit, EM.PlainInds, EM.PlainCode, EM.PlainQualifier;
      var i, left := 0, ev.entries;
      while i < MAX_EVENTS - 1
        invariant i <= 5 && ev == old(ev)
        invariant var bits := EM.CountBits(ev.statusCode, i); left == if ev.entries >= bits then ev.entries - bits else 0
        invariant log + EM.PlainInds(ev.statusCode, i, left) == old(log) + EM.PlainInds(ev.statusCode, 0, ev.entries)
      {
        PlainStep(ev.statusCode, i, left);
        if Bit(ev.statusCode, i) {
          left := if left > 0 then left - 1 else 0;
          log := log + [EventInd(EM.PlainCode(i), EM.PlainQualifier(i), left)];
        }
        i := i + 1;
      }
      PlainStep(ev.statusCode, i, left);
      ev := ev.(entries := left);
    }

    // iolink_dl_ev_h_sm_signal_event3
    method SignalEvents()
      modifies this`ev, this`log
      ensures ev == EM.Signal(old(ev)).e && log == old(log) + EM.Signal(old(ev)).acts
    {
      hide EM.DetailInds, EM.PlainInds, EM.CountBits;
      if EM.Detailed(ev.statusCode) {
        SignalEntries();
      } else {
        SignalPlain();
      }
      ev := ev.(confirmation := true, state := EvIdle1);
    }

    // The loop over a detailed status code: how many entries, and the first.
    static method ScanStatus(status: Octet) returns (count: nat, first: nat)
      ensures count == EM.CountBits(status, MAX_EVENTS)
      ensures first <= MAX_EVENTS && (first < MAX_EVENTS ==> Bit(status, first)) && forall i :: 0 <= i < first ==> !Bit(status, i)
    {
      hide Bit;
      var i := 0;
      count, first := 0, MAX_EVENTS;
      while i < MAX_EVENTS
        invariant i <= MAX_EVENTS && count == EM.CountBits(status, i)
        invariant if first < MAX_EVENTS then first < i && Bit(status, first) else first == MAX_EVENTS
        invariant forall j :: 0 <= j < i && j < first ==> !Bit(status, j)
      {
        if Bit(status, i) {
          count := count + 1;
          if first == MAX_EVENTS {
            first := i;
          }
        }
        i := i + 1;
      }
    }

    static method CountLow(status: Octet, n: nat) returns (count: nat)
      ensures count == EM.CountBits(status, n)
    {
      hide Bit;
      count := 0;
      for i := 0 to n
        invariant count == EM.CountBits(status, i)
      {
        if Bit(status, i) {
          count := count + 1;
        }
      }
    }

    // The first set bit after `from`; bit MAX_EVENTS still stops the search.
    static method NextEntry(status: Octet, from: nat) returns (next: nat, found: bool)
      ensures from >= MAX_EVENTS ==> next == from && !found
      ensures from < MAX_EVENTS ==> from < next <= MAX_EVENTS && (forall i :: from < i < next ==> !Bit(status, i))
      ensures from < MAX_EVENTS && found ==> Bit(status, next)
      ensures from < MAX_EVENTS && !found ==> next == MAX_EVENTS && !Bit(status, next)
    {
      hide Bit;
      next, found := from, false;
      while next < MAX_EVENTS
        invariant from <= next && (if from < MAX_EVENTS then next <= MAX_EVENTS else next == from)
        invariant !found && (forall i :: from < i <= next ==> !Bit(status, i))
      {
        next := next + 1;
        if Bit(status, next) {
          found := true;
          break;
        }
      }
    }

    // iolink_dl_ev_h_sm_read_event2_for_device_status_code
    method ReadStatusCode()
      modifies this`ev, this`log
      ensures var o := EM.ReadStatusCode(old(ev), IM.At(rx, 0)); ev == o.e && log == old(log) + o.acts
    {
      hide Bit, EM.Signal, EM.CountBits;
      var status := IM.At(rx, 0);
      assert log + [] == log;
      ev := ev.(statusCode := status);
      if EM.Detailed(status) {
        var count, first := ScanStatus(status);
        NextIs(status, 0, first);
        ev := ev.(entries := ev.entries + count,
                  addr := if first < MAX_EVENTS then 1 + first * 3 else 0,
                  cnt := if first < MAX_EVENTS then first else 0);
      } else {
        var count := CountLow(status, MAX_EVENTS - 1);
        ev := ev.(entries := ev.entries + count);
        SignalEvents();
      }
    }

    // iolink_dl_ev_h_sm_read_event2_for_device_event_memory_byte
    method ReadMemoryByte()
      modifies this`ev, this`log
      ensures var o := EM.ReadMemoryByte(old(ev), IM.At(rx, 0)); ev == o.e && log == old(log) + o.acts
    {
      hide Bit, EM.Signal, EM.NextBit;
      var b := IM.At(rx, 0);
      var was := EM.Entry(ev, ev.current);
      if ev.addr == 3 * ev.cnt + 1 {
        ev := EM.SetEntry(ev, was.(qualifier := b)).(addr := ev.addr + 1);
      } else if ev.addr == 3 * ev.cnt + 2 {
        ev := EM.SetEntry(ev, was.(msb := b)).(addr := ev.addr + 1);
      } else if ev.addr == 3 * ev.cnt + 3 {
        var next, found := NextEntry(ev.statusCode, ev.cnt);
        if ev.cnt < MAX_EVENTS {
          NextIs(ev.statusCode, ev.cnt + 1, next);
        }
        ev := EM.SetEntry(ev, was.(lsb := b)).(current := ev.current + 1, cnt := next, addr := if found then 1 + next * 3 else ev.addr);
        if ev.cnt >= MAX_EVENTS {
          ev := ev.(current := 0);
          SignalEvents();
        }
      }
    }

    // iolink_dl_ev_h_sm_idle1
    method EvIdle1Step()
      requires Valid()
      modifies this`ev, this`od, this`log, tx
      ensures Abs() == EvAfter(old(Abs()), EM.Idle1(old(ev), EventInput(old(Abs()))))
    {
      hide Act1, IM.Payload;
      ghost var o := EM.Idle1(ev, EventInput(Abs()));
      PerformFew(Abs().(ev := o.e), o.acts);
      hide Perform;
      if o.acts != [] { ActAfter(Abs(), o.e, o.acts[0]); }
      if !ev.active {
        ev := ev.(state := EvInactive0);
      } else if od.trigger == MasterMessage {
        if ev.confirmation {
          if mode.comLost {
            ev := ev.(state := EvInactive0);
          } else {
            OdReq(true, Diagnosis, 0, IM.Payload([MasterControl(true, Diagnosis, 0)], mh.odLen));
            ev := ev.(confirmation := false);
          }
        } else {
          ev := ev.(addr := 0, entries := 0, current := 0, events := EM.NoEvents());
          ActAfter(old(Abs()), ev, OdRequest(false, Diagnosis, 0, []));
          OdReq(false, Diagnosis, 0, []);
          ev := ev.(state := EvReadEvent2);
        }
      }
    }

    // iolink_dl_ev_h_sm_read_event2
    method EvReadEvent2Step()
      requires Valid()
      modifies this`ev, this`od, this`log, tx
      ensures Abs() == EvAfter(old(Abs()), EM.ReadEvent2(old(ev), EventInput(old(Abs()))))
    {
      hide EM.ReadStatusCode, EM.ReadMemoryByte, Act1;
      ghost var o := EM.ReadEvent2(ev, EventInput(Abs()));
      PerformFew(Abs().(ev := o.e), o.acts);
      EM.ReadActs(ev, IM.At(rx, 0));
      if EM.Indications(o.acts) {
        PerformIndications(Abs().(ev := o.e), o.acts);
      }
      hide Perform;
      if mode.comLost {
        ev := ev.(state := EvInactive0);
      } else if od.trigger == MasterMessage {
        OdReq(false, Diagnosis, ev.addr, []);
      } else if od.trigger == DeviceMessage {
        if ev.addr == 0 {
          ReadStatusCode();
        } else {
          ReadMemoryByte();
        }
      }
    }

    // iolink_dl_ev_h_sm
    method EvHSm()
      requires Valid()
      modifies this`ev, this`od, this`log, tx
      ensures Abs() == EvCall(old(Abs()))
    {
      hide EM.Idle1, EM.ReadEvent2;
      match ev.state {
        case EvInactive0 =>
          if ev.active {
            ev := ev.(state := EvIdle1);
          }
        case EvIdle1 => EvIdle1Step();
        case EvReadEvent2 => EvReadEvent2Step();
      }
    }

    // ---- command handler ----

    // iolink_dl_cmd_h_sm
    method CmdHSm()
      requires Valid()
      modifies this`cmd, this`od, this`log, tx
      ensures Abs() == CmdCall(old(Abs()))
    {
      hide Blit, IM.Payload;
      match cmd.state {
        case CmdInactive0 =>
          if cmd.active {
            cmd := cmd.(state := CmdIdle1);
          }
        case CmdIdle1 =>
          if !cmd.active {
            cmd := cmd.(state := CmdInactive0);
          } else {
            match cmd.code {
              case CodePdOutValid => cmd := cmd.(masterCommand := MASTERCMD_PD_OUT_OP, state := CmdMasterCommand2);
              case CodePdOutInvalid => cmd := cmd.(masterCommand := MASTERCMD_OPERATE, state := CmdMasterCommand2);
              case CodeDeviceMode => cmd := cmd.(state := CmdMasterCommand2);
              case _ =>
            }
          }
        case CmdMasterCommand2 =>
          PerformFew(Abs(), [OdRequest(true, Page, 0, IM.Payload([cmd.masterCommand], mh.odLen))]);
          OdReq(true, Page, 0, IM.Payload([cmd.masterCommand], mh.odLen));
          cmd := cmd.(code := CodeNone, state := CmdIdle1);
      }
    }

    // write_master_command
    method WriteMasterCommand(status: Status)
      modifies this`cmd, this`log
      ensures Abs() == ReportMasterCommand(old(Abs()), status)
    {
      var c := cmd.masterCommand;
      cmd := cmd.(masterCommand := MASTERCMD_NONE);
      if c in {MASTERCMD_OPERATE, MASTERCMD_PREOP, MASTERCMD_FALLBACK} {
        log := log + [DevicemodeCnf(status, c)];
      }
    }

    // ---- on-request data handler ----

    // iolink_dl_od_h_sm; the marks in the log note who is called with what.
    method OdHSm()
      requires Valid()
      modifies this, isduData, tx
      ensures Abs() == OdCall(old(Abs()))
    {
      hide IsduCall, EvCall, CmdCall, ReportMasterCommand;
      match od.state {
        case OdInactive0 =>
          if od.active {
            od := od.(state := OdIsdu1);
          }
        case OdIsdu1 =>
          if !od.active {
            od := od.(state := OdInactive0);
          } else if cmd.code != CodeNone && od.trigger == MasterMessage {
            log := log + [CmdTrig];
            CmdHSm();
            od := od.(state := OdCommand2);
          } else if ev.flag {
            log := log + [IsduTrig(IsduInput(Abs()))];
            IsduHSm();
            od := od.(state := OdEvent3);
          } else if od.trigger != TrigNone {
            log := log + [IsduTrig(IsduInput(Abs()))];
            IsduHSm();
            od := od.(trigger := TrigNone);
          }
        case OdCommand2 =>
          if !od.active {
            cmd := cmd.(state := CmdInactive0);
          } else if od.trigger != TrigNone {
            od := od.(trigger := TrigNone);
            if cmd.code == CodeNone {
              WriteMasterCommand(NoError);
              od := od.(state := if ev.flag then OdEvent3 else OdIsdu1);
            }
          }
        case OdEvent3 =>
          if !od.active {
            od := od.(state := OdInactive0);
          } else if cmd.code != CodeNone && od.trigger == MasterMessage {
            log := log + [CmdTrig];
            CmdHSm();
            od := od.(state := OdCommand2);
          } else if !ev.flag {
            od := od.(state := OdIsdu1);
          } else if od.trigger != TrigNone {
            log := log + [EventTrig(EventInput(Abs()))];
            EvHSm();
            od := od.(trigger := TrigNone);
          }
      }
    }

    method OdTrigger(t: Trigger)
      requires Valid()
      modifies this, isduData, tx
      ensures Abs() == TriggerOd(old(Abs()), t)
    {
      hide OdCall;
      od := od.(trigger := t);
      OdHSm();
    }

    // ---- message handler ----

    method StartTimer()
      modifies this`link
      ensures Abs() == ArmTimer(old(Abs()))
    {
      link := link.(cycleTimer := true, elapsed := false);
    }

    // set_mseq_change
    method SetMseqChange()
      requires Valid()
      modifies this`pd, this`od, tx
      ensures Abs() == MseqChange(old(Abs()))
    {
      pd := PdLengths(mh.pdRxLen, mh.pdTxLen);
      od := od.(outOffset := 2 + mh.pdTxLen);
      forall i | 0 <= i < tx.Length {
        tx[i] := 0;
      }
      assert tx[..] == Zeros(BUFFER_SIZE);
    }

    // iolink_dl_mh_handle_com_lost
    method HandleComLost()
      modifies this`mode, this`mh, this`link, this`log
      ensures Abs() == LoseLink(old(Abs()))
    {
      link := link.(cycleTimer := false);
      mode := mode.(comLost := true);
      mh := mh.(rw := RwNone);
      link := link.(elapsed := false, rxTimeout := false, rxError := false, txError := false);
      mh := mh.(retry := 0);
      log := log + [RetryCleared, ComLost];
      mh := mh.(state := MhInactive0);
    }

    // iolink_dl_message_h_sm_startup2
    method MhStartup2Step()
      requires Valid()
      modifies this, tx
      ensures Abs() == Startup2(old(Abs()))
    {
      hide MseqChange, AcyclicMessage;
      match mh.cmd {
        case MhCmdPreoperate =>
          SetMseqChange();
          mh := mh.(state := MhPreoperate6);
        case MhCmdOperate =>
          StartTimer();
          SetMseqChange();
          mh := mh.(state := MhOperate12);
        case _ =>
          if mh.rw in {RwRead, RwWrite} {
            mh := mh.(retry := 0);
            log := log + [RetryCleared];
            log := log + [Transfer(AcyclicMessage(Abs()))];
            link := link.(dataReady := false);
            mh := mh.(state := MhResponse3);
          }
      }
    }

    // The answer to a page access.
    method AnswerPage(value: Octet, status: Status)
      modifies this`mh, this`log
      ensures Abs() == PageAnswer(old(Abs()), value, status)
    {
      match mh.rw {
        case RwRead =>
          mh := mh.(rw := RwNone);
          log := log + [PageReadCnf(value, status)];
        case RwWrite =>
          mh := mh.(rw := RwNone);
          log := log + [PageWriteCnf(status)];
        case _ =>
      }
    }

    // iolink_dl_message_h_sm_await_reply4
    method MhAwReply4Step()
      modifies this`mh, this`link, this`log
      ensures Abs() == AwReply4(old(Abs()))
    {
      hide PageAnswer;
      if link.dataReady {
        mh := mh.(state := MhStartup2);
        AnswerPage(IM.At(rx, 0), NoError);
      } else if Faulty() {
        StartTimer();
        mh := mh.(state := MhErrorHandling5);
      }
    }

    // iolink_dl_message_h_sm_error_handling5
    method MhErrorHandling5Step()
      modifies this`mode, this`mh, this`link, this`log
      ensures Abs() == ErrorHandling5(old(Abs()))
    {
      hide PageAnswer;
      if mh.retry >= 2 {
        link := link.(cycleTimer := false);
        mode := mode.(comLost := true);
        log := log + [ComLost];
        mh := mh.(state := MhInactive0);
        AnswerPage(0, NoComm);
      } else if link.elapsed && link.cycleTimer {
        mh := mh.(retry := mh.retry + 1, state := MhAwReply4);
        log := log + [Resend];
      }
    }

    // iolink_dl_message_h_sm_preoperate6
    method MhPreoperate6Step()
      requires Valid()
      modifies this, tx
      ensures Abs() == Preoperate6(old(Abs()))
    {
      hide MseqChange, AcyclicMessage;
      if mh.cmd == MhCmdOperate {
        StartTimer();
        SetMseqChange();
        mh := mh.(state := MhOperate12);
      } else if mh.cmd == MhCmdStartup {
        SetMseqChange();
        mh := mh.(state := MhStartup2);
      } else if mh.cmd == MhCmdInactive {
        log := log + [Transfer(AcyclicMessage(Abs()))];
        mode := mode.(comLost := true);
        mh := mh.(state := MhInactive0);
      } else if mh.rw in {RwReadParam, RwWriteParam, RwIsduTransport} || cmd.masterCommand == MASTERCMD_OPERATE || ev.flag {
        StartAcyclic();
      }
    }

    method StartAcyclic()
      modifies this`mh, this`od, this`link, this`log
      ensures Abs() == ArmTimer(Mh(SetTrigger(ClearRetry(old(Abs())), MasterMessage), MhGetOd7))
    {
      log := log + [RetryCleared];
      od := od.(trigger := MasterMessage);
      mh := mh.(retry := 0, state := MhGetOd7);
      StartTimer();
    }

    // iolink_dl_message_h_sm_get_od7
    method MhGetOd7Step()
      requires Valid()
      modifies this, isduData, tx
      ensures Abs() == GetOd7(old(Abs()))
    {
      hide OdCall, AcyclicMessage;
      OdHSm();
      mh := mh.(retry := 0);
      log := log + [RetryCleared];
      log := log + [Transfer(AcyclicMessage(Abs()))];
      link := link.(dataReady := false);
      mh := mh.(state := MhResponse8);
    }

    predicate Faulty()
      reads this
    {
      link.rxTimeout || link.rxError || link.txError
    }

    // EventFlag_ind
    method EventFlagInd()
      modifies this`ev, this`log
      ensures Abs() == NoteFlag(old(Abs()))
    {
      ev := ev.(flag := mh.cks >= 0x80);
      log := log + [FlagInd(ev.flag)];
    }

    // iolink_dl_message_h_sm_await_reply9
    method MhAwReply9Step()
      requires Valid()
      modifies this, isduData, tx
      ensures Abs() == AwReply9(old(Abs()))
    {
      hide TriggerOd, NoteFlag;
      if link.dataReady {
        EventFlagInd();
        OdTrigger(DeviceMessage);
        if isduState == IsduIdle1 {
          if mh.cmd == MhCmdOperate {
            StartTimer();
            mh := mh.(state := MhAwReply16);
          } else if !ev.flag {
            mh := mh.(state := MhPreoperate6);
          }
        } else {
          StartTimer();
          od := od.(trigger := MasterMessage);
          mh := mh.(state := MhGetOd7);
        }
      } else if Faulty() {
        StartTimer();
        mh := mh.(state := MhErrorHandling10);
      }
    }

    // iolink_dl_message_h_sm_error_handling10
    method MhErrorHandling10Step()
      requires Valid()
      modifies this
      ensures Abs() == ErrorHandling10(old(Abs()))
    {
      hide ReportMasterCommand, LoseLink;
      if mh.retry >= 2 {
        WriteMasterCommand(NoComm);
        match mh.rw {
          case RwRead => log := log + [PageReadCnf(0, NoComm)];
          case RwWrite => log := log + [PageWriteCnf(NoComm)];
          case RwReadParam => log := log + [ReadParamCnf(0, NoComm)];
          case RwWriteParam => log := log + [WriteParamCnf(NoComm)];
          case _ =>
        }
        HandleComLost();
      } else if link.elapsed && link.cycleTimer {
        mh := mh.(retry := mh.retry + 1, state := MhAwReply9);
        log := log + [Resend];
      }
    }

    // get_pd13 and get_od14
    method SendFirst()
      requires Valid()
      modifies this, isduData, tx
      ensures Abs() == FirstMessage(old(Abs()))
    {
      hide TriggerOd, Message;
      OdTrigger(MasterMessage);
      mh := mh.(retry := 0);
      log := log + [RetryCleared];
      log := log + [Transfer(Message(Abs()))];
      link := link.(dataReady := false);
      StartTimer();
      mh := mh.(state := MhResponse15);
    }

    // iolink_dl_message_h_sm_operate12
    method MhOperate12Step()
      requires Valid()
      modifies this, isduData, tx
      ensures Abs() == Operate12(old(Abs()))
    {
      hide FirstMessage, MseqChange;
      if mh.cmd == MhCmdStartup {
        SetMseqChange();
        mh := mh.(state := MhStartup2);
      } else if mh.cmd == MhCmdInactive {
        mode := mode.(comLost := true);
        mh := mh.(state := MhInactive0);
      } else {
        SendFirst();
      }
    }

    // The check octet of the reply.
    method NoteCheck()
      modifies this`mh, this`ev, this`log
      ensures Abs() == NoteReply(old(Abs()))
    {
      hide NoteFlag;
      mh := mh.(cks := IM.At(rx, od.rxLen + pd.rxLen));
      EventFlagInd();
      log := log + [ControlInd(mh.cks % 0x80 < 0x40)];
    }

    method DownloadNext()
      modifies this`mh, this`link, this`log
      ensures Abs() == SendNext(old(Abs()))
    {
      hide Message;
      log := log + [Download(Message(Abs()))];
      StartTimer();
      mh := mh.(state := MhAwReply16);
      link := link.(dataReady := false);
    }

    // The reply is in: pass it on and make the next message.
    method NextCycle()
      requires Valid()
      modifies this, isduData, tx
      ensures Abs() == Exchange(old(Abs()))
    {
      hide TriggerOd, NoteReply, SendNext;
      NoteCheck();
      OdTrigger(DeviceMessage);
      OdTrigger(MasterMessage);
      DownloadNext();
    }

    // A parameter write, sent at once.
    method SendParam()
      requires Valid()
      modifies this, isduData, tx
      ensures Abs() == WriteParam(old(Abs()))
    {
      hide TriggerOd, Message;
      OdTrigger(MasterMessage);
      mh := mh.(retry := 0);
      log := log + [RetryCleared];
      log := log + [Download(Message(Abs()))];
      link := link.(dataReady := false);
      mh := mh.(state := MhAwReply9);
    }

    method SendAgain()
      modifies this`mh, this`link, this`log
      ensures Abs() == Retry(old(Abs()))
    {
      ResetErrors();
      mh := mh.(retry := mh.retry + 1);
      log := log + [Resend];
      StartTimer();
      mh := mh.(state := MhAwReply16);
    }

    // iolink_dl_message_h_sm_await_reply16
    method MhAwReply16Step()
      requires Valid()
      modifies this, isduData, tx
      ensures Abs() == AwReply16(old(Abs()))
    {
      hide WriteParam, Retry, MseqChange, Exchange, LoseLink;
      if mh.cmd == MhCmdStartup {
        SetMseqChange();
        mh := mh.(state := MhStartup2);
      } else if mh.cmd == MhCmdInactive {
        mode := mode.(comLost := true);
        mh := mh.(state := MhInactive0);
      } else if mh.rw == RwWriteParam {
        SendParam();
      } else if link.dataReady {
        NextCycle();
      } else if Faulty() {
        if mh.retry >= 3 {
          HandleComLost();
        } else {
          SendAgain();
        }
      } else if link.elapsed {
        HandleComLost();
      }
    }

    // iolink_dl_message_h_sm
    method MessageHSm()
      requires Valid()
      modifies this, isduData, tx
      ensures Abs() == MhCall(old(Abs()))
    {
      hide Startup2, AwReply4, ErrorHandling5, Preoperate6, GetOd7, AwReply9, ErrorHandling10, Operate12, AwReply16;
      match mh.state {
        case MhInactive0 =>
        case MhStartup2 => MhStartup2Step();
        case MhResponse3 =>
          mh := mh.(state := MhAwReply4);
          MhAwReply4Step();
        case MhAwReply4 => MhAwReply4Step();
        case MhErrorHandling5 => MhErrorHandling5Step();
        case MhPreoperate6 => MhPreoperate6Step();
        case MhGetOd7 => MhGetOd7Step();
        case MhResponse8 => MhAwReply9Step();
        case MhAwReply9 => MhAwReply9Step();
        case MhErrorHandling10 => MhErrorHandling10Step();
        case MhOperate12 => MhOperate12Step();
        case MhResponse15 =>
          mh := mh.(state := MhAwReply16);
          MhAwReply16Step();
        case MhAwReply16 => MhAwReply16Step();
      }
    }

    // ---- mode handler ----

    // OH_Conf, IH_Conf and EH_Conf in turn
    method SetHandlersActive(active: bool)
      requires Valid()
      modifies this, isduData, tx
      ensures Abs() == ConfHandlers(old(Abs()), active)
    {
      hide OdCall, IsduCall, EvCall;
      od := od.(active := active);
      OdHSm();
      isduActive := active;
      IsduHSm();
      ev := ev.(active := active);
      EvHSm();
    }

    // CH_Conf
    method CommandConf(active: bool)
      requires Valid()
      modifies this`cmd, this`od, this`log, tx
      ensures Abs() == ConfCmd(old(Abs()), active)
    {
      hide CmdCall;
      cmd := cmd.(active := active);
      CmdHSm();
    }

    // MH_Conf
    method MessageConf(c: MhCmd)
      requires Valid()
      modifies this, isduData, tx
      ensures Abs() == ConfMh(old(Abs()), c)
    {
      hide MhCall;
      mh := mh.(cmd := c);
      MessageHSm();
    }

    method EnterMode(st: ModeState, m: MhMode)
      modifies this`mode, this`log
      ensures Abs() == Mode(old(Abs()), st, m)
    {
      mode := mode.(state := st);
      log := log + [ModeInd(m)];
    }

    method ModeGotoOperate()
      requires Valid()
      modifies this, isduData, tx
      ensures Abs() == GotoOperate(old(Abs()))
    {
      hide ConfMh, Mode;
      MessageConf(MhCmdOperate);
      EnterMode(ModeOperate4, MhModeOperate);
    }

    method ModeGotoIdle(m: MhMode)
      requires Valid()
      modifies this, isduData, tx
      ensures Abs() == GotoIdle(old(Abs()), m)
    {
      hide ConfHandlers, ConfCmd, ConfMh, Mode;
      SetHandlersActive(false);
      CommandConf(false);
      MessageConf(MhCmdInactive);
      mode := mode.(comLost := false);
      EnterMode(ModeIdle0, m);
    }

    method ModeGotoStartup()
      requires Valid()
      modifies this, isduData, tx
      ensures Abs() == GotoStartup(old(Abs()))
    {
      hide ConfHandlers, ConfMh, Mode;
      SetHandlersActive(false);
      MessageConf(MhCmdStartup);
      EnterMode(ModeStartup2, MhModeStartup);
    }

    // iolink_dl_mode_h_sm
    method ModeHSm(sdci: bool)
      requires Valid()
      modifies this, isduData, tx
      ensures Abs() == ModeCall(old(Abs()), sdci)
    {
      hide ConfHandlers, ConfCmd, ConfMh, Mode, GotoOperate, GotoIdle, GotoStartup;
      match mode.state {
        case ModeIdle0 =>
          if mode.dlMode == DlStartup && sdci {
            mode := mode.(state := ModeEstCom1);
          }
        case ModeEstCom1 =>
        case ModeStartup2 =>
          if mode.dlMode == DlPreoperate {
            SetHandlersActive(true);
            MessageConf(MhCmdPreoperate);
            EnterMode(ModePreoperate3, MhModePreoperate);
          } else if mode.dlMode == DlOperate {
            SetHandlersActive(true);
            ModeGotoOperate();
          } else if mode.dlMode == DlInactive {
            ModeGotoIdle(MhModeInactive);
          } else if mode.comLost {
            ModeGotoIdle(MhModeComLost);
          }
        case ModePreoperate3 =>
          if mode.dlMode == DlStartup {
            CommandConf(false);
            ModeGotoStartup();
          } else if mode.dlMode == DlInactive {
            MessageConf(MhCmdOperate);
          } else if mode.comLost {
            ModeGotoIdle(MhModeComLost);
          } else if mode.dlMode == DlOperate {
            ModeGotoOperate();
          }
        case ModeOperate4 =>
          if mode.dlMode == DlStartup {
            ModeGotoStartup();
          } else if mode.dlMode == DlInactive || mode.comLost {
            ModeGotoIdle(if mode.dlMode == DlInactive then MhModeInactive else MhModeComLost);
          }
      }
    }

    // ---- services ----

    // One more piece of the request at its place in the cleared buffer.
    method Put(ghost done: seq<Octet>, off: nat, src: seq<Octet>)
      requires off == |done| && off + |src| <= isduData.Length
      requires isduData[..] == done + Zeros(isduData.Length - off)
      modifies isduData
      ensures isduData[..] == (done + src) + Zeros(isduData.Length - off - |src|)
    {
      CopyInto(isduData, off, src);
    }

    // Service, length and, if it does not fit there, the extended length.
    method FillHeader(r: IsduCoding.Request) returns (offset: nat, total: Octet)
      requires Valid() && IsduCoding.Encodable(r)
      modifies isduData
      ensures total == |IsduCoding.EncodeRequest(r)|
      ensures var body := IsduCoding.Address(r) + r.data; var front := IsduCoding.Front(IsduCoding.Service(r), body);
        && |front| == offset + |body| && isduData[..] == front[..offset] + Zeros(isduData.Length - offset)
    {
      hide XorAll;
      var service, overhead := if r.read then 8 else 0, 3;
      if r.index < 256 {
        if r.subindex == 0 {
          service := service + 1;
        } else {
          service, overhead := service + 2, 4;
        }
      } else {
        service, overhead := service + 3, 5;
      }
      forall i | 0 <= i < isduData.Length {
        isduData[i] := 0;
      }
      assert isduData[..] == [] + Zeros(isduData.Length);
      if |r.data| <= 15 - overhead {
        Put([], 0, [service * 16 + |r.data| + overhead]);
        offset := 1;
      } else {
        overhead := overhead + 1;
        Put([], 0, [service * 16 + 1, |r.data| + overhead]);
        offset := 2;
      }
      total := |r.data| + overhead;
    }

    // Index and subindex.
    method FillAddress(r: IsduCoding.Request, ghost done: seq<Octet>, start: nat) returns (offset: nat)
      requires r.index < 0x10000 && start == |done| && start + 3 <= isduData.Length
      requires isduData[..] == done + Zeros(isduData.Length - start)
      modifies isduData
      ensures offset == start + |IsduCoding.Address(r)|
      ensures isduData[..] == (done + IsduCoding.Address(r)) + Zeros(isduData.Length - offset)
    {
      offset := start;
      if r.index > 255 {
        Put(done, offset, [r.index / 256, r.index % 256, r.subindex]);
        offset := offset + 3;
      } else if r.subindex > 0 {
        Put(done, offset, [r.index, r.subindex]);
        offset := offset + 2;
      } else {
        Put(done, offset, [r.index]);
        offset := offset + 1;
      }
    }

    // The whole request in the buffer: header, address, data and checksum.
    method FillRequest(r: IsduCoding.Request) returns (total: Octet)
      requires Valid() && IsduCoding.Encodable(r)
      modifies isduData
      ensures var e := IsduCoding.EncodeRequest(r);
        total == |e| && isduData[..] == e + Zeros(isduData.Length - |e|)
    {
      hide XorAll, IsduCoding.Address, IsduCoding.Service, Slice;
      ghost var a := IsduCoding.Address(r);
      ghost var front := IsduCoding.Front(IsduCoding.Service(r), a + r.data);
      var offset;
      offset, total := FillHeader(r);
      ghost var header := front[..offset];
      offset := FillAddress(r, header, offset);
      Put(header + a, offset, r.data);
      offset := offset + |r.data|;
      assert front == header + a + r.data;
      var checksum := CalcChkPdu(isduData, offset);
      WholeSlice(front, isduData.Length - offset);
      Put(front, offset, [checksum]);
    }

    method AcceptIsdu(r: IsduCoding.Request)
      requires Valid() && WellFormedEvent(IsduService(r)) && isduState == IsduIdle1
      requires r.index >= 2 && mode.state !in {ModeIdle0, ModeEstCom1}
      modifies this, isduData
      ensures Abs() == IsduReq(old(Abs()), r)
    {
      hide IsduCoding.EncodeRequest, IM.TotalSegments;
      var total := FillRequest(r);
      StartTransfer(total, r.read);
      mh := mh.(rw := RwIsduTransport);
      log := log + [IsduAccepted];
    }

    method StartTransfer(total: Octet, read: bool)
      modifies this`isduTotalLen, this`isduDirRead, this`isduTotalSeg, this`isduCurrentSeg
      ensures IsduRecord() == old(IsduRecord()).(dirRead := read, totalLen := total,
                                                 totalSeg := IM.TotalSegments(total, mh.odLen), currentSeg := 0)
    {
      isduTotalLen := total;
      isduDirRead := read;
      isduTotalSeg := IM.TotalSegments(total, mh.odLen);
      isduCurrentSeg := 0;
    }

    // DL_ISDUTransport_req
    method IsduTransportReq(r: IsduCoding.Request)
      requires Valid() && WellFormedEvent(IsduService(r))
      modifies this, isduData
      ensures Abs() == IsduReq(old(Abs()), r)
    {
      hide IsduCoding.EncodeRequest, IM.TotalSegments;
      if mode.state in {ModeIdle0, ModeEstCom1} {
        log := log + [IsduRejected(NoComm)];
      } else if r.index < 2 {
        log := log + [IsduRejected(ValueOutOfRange)];
      } else if isduState != IsduIdle1 {
        log := log + [IsduRejected(StateConflict)];
      } else {
        AcceptIsdu(r);
      }
    }

    // DL_Read_req and DL_Write_req
    method ReadWriteReq(write: bool, addr: nat, value: Octet)
      requires Valid()
      modifies this`link, this`od, this`mh, this`log, tx
      ensures Abs() == PageReq(old(Abs()), write, addr, value)
    {
      if mh.state != MhStartup2 {
        log := log + [if write then PageWriteCnf(StateConflict) else PageReadCnf(0, StateConflict)];
      } else if addr > 15 {
        log := log + [if write then PageWriteCnf(ValueOutOfRange) else PageReadCnf(0, ValueOutOfRange)];
      } else if !write && addr == MIN_CYCL && link.firstRead {
        log := log + [PageReadCnf(link.cycByte, NoError)];
        link := link.(firstRead := false);
      } else {
        CopyInto(tx, 0, [MasterControl(write, Page, addr), 0] + (if write then [value] else []));
        od := od.(rxLen := if write then 0 else 1, txLen := if write then 1 else 0);
        mh := mh.(rw := if write then RwWrite else RwRead);
        log := log + [PageAccepted];
      }
    }

    // DL_ReadParam_req and DL_WriteParam_req
    method ReadWriteParamReq(write: bool, addr: nat, value: Octet)
      modifies this
      ensures Abs() == ParamReq(old(Abs()), write, addr, value)
    {
      mh := mh.(rw := if write then RwWriteParam else RwReadParam);
      if mh.state !in {MhPreoperate6, MhAwReply16} {
        log := log + [if write then WriteParamCnf(StateConflict) else ReadParamCnf(0, StateConflict)];
      } else if addr > 31 {
        log := log + [if write then WriteParamCnf(ValueOutOfRange) else ReadParamCnf(0, ValueOutOfRange)];
      } else {
        od := od.(addr := addr);
        if write {
          od := od.(value := value);
        }
      }
    }

    // DL_Control_req
    method ControlRequest(code: ControlCode)
      requires Valid()
      modifies this`cmd, this`od, this`log, tx
      ensures Abs() == ControlReq(old(Abs()), code)
    {
      hide CmdCall;
      if code !in {CodeNone, CodeDeviceMode} {
        cmd := cmd.(code := code);
        CmdHSm();
      }
    }

    // DL_Write_Devicemode_req
    method WriteDevicemodeReq(m: DlMode)
      requires Valid()
      modifies this`cmd, this`od, this`log, tx
      ensures Abs() == DevicemodeReq(old(Abs()), m)
    {
      hide CmdCall;
      if mode.state == ModeStartup2 {
        log := log + [DevicemodeCnf(StateConflict, MASTERCMD_NONE)];
      } else {
        match m {
          case DlInactive => cmd := cmd.(masterCommand := MASTERCMD_FALLBACK);
          case DlStartup => cmd := cmd.(masterCommand := MASTERCMD_STARTUP);
          case DlPreoperate => cmd := cmd.(masterCommand := MASTERCMD_PREOP);
          case DlOperate => cmd := cmd.(masterCommand := MASTERCMD_OPERATE);
        }
        cmd := cmd.(code := CodeDeviceMode);
        CmdHSm();
        if mode.state == ModePreoperate3 && m == DlInactive {
          log := log + [DevicemodeCnf(NoError, MASTERCMD_FALLBACK)];
        }
      }
    }

    // DL_SetMode_req
    method SetMode(m: DlMode, mseq: Octet, cycByte: Octet, pdRx: nat, pdTx: nat, odLen: nat)
      modifies this
      ensures Abs() == SetModeReq(old(Abs()), m, mseq, cycByte, pdRx, pdTx, odLen)
    {
      mode := mode.(dlMode := m);
      var high: nat := mseq / 16;
      typeOctet := high * 64 % 256;
      link := link.(cycByte := cycByte);
      if m != DlInactive {
        mh := mh.(pdRxLen := pdRx, pdTxLen := pdTx, odLen := odLen);
      }
    }

    // ---- the link thread ----

    method Receive(frame: seq<Octet>)
      requires Valid()
      modifies this, isduData, tx
      ensures Abs() == OnReceived(old(Abs()), frame)
    {
      hide MhCall;
      rx := frame;
      link := link.(dataReady := true);
      MessageHSm();
      link := link.(dataReady := false);
    }

    method SetErrors(rxTimeout: bool, rxError: bool, txError: bool)
      modifies this`link
      ensures Abs() == NoteErrors(old(Abs()), rxTimeout, rxError, txError)
    {
      link := link.(rxTimeout := link.rxTimeout || rxTimeout,
                    rxError := link.rxError || rxError,
                    txError := link.txError || txError);
    }

    method ResetErrors()
      modifies this`link
      ensures Abs() == ClearErrors(old(Abs()))
    {
      link := link.(rxTimeout := false, rxError := false, txError := false);
    }

    // iolink_dl_handle_error
    method HandleError(rxTimeout: bool, rxError: bool, txError: bool)
      requires Valid()
      modifies this, isduData, tx
      ensures Abs() == OnLineErrors(old(Abs()), rxTimeout, rxError, txError)
    {
      hide MhCall, NoteErrors, ClearErrors;
      SetErrors(rxTimeout, rxError, txError);
      if Faulty() {
        MessageHSm();
        ResetErrors();
      }
    }

    // iolink_dl_handle_timer_timeout
    method HandleTimeout()
      requires Valid()
      modifies this, isduData, tx
      ensures Abs() == OnTimer(old(Abs()))
    {
      hide MhCall;
      if link.cycleTimer {
        link := link.(elapsed := true);
        MessageHSm();
        link := link.(elapsed := false);
      }
      link := link.(cycleTimer := false);
    }

    // iolink_dl_wurq_recv
    method HandleWakeUp(found: bool, cycle: Octet)
      requires Valid()
      modifies this, tx
      ensures Abs() == OnWakeUp(old(Abs()), found, cycle)
    {
      hide ConfCmd, Mode;
      if !found {
        mode := mode.(comLost := false);
        EnterMode(ModeIdle0, MhModeInactive);
      } else {
        link := link.(cycByte := cycle);
        mh := mh.(state := MhStartup2);
        log := log + [PageReadCnf(cycle, NoError)];
        CommandConf(true);
        EnterMode(ModeStartup2, MhModeStartup);
      }
    }

    // One turn of dl_main, or one service call.
    method Handle(e: Event)
      requires Valid() && WellFormedEvent(e)
      modifies this, isduData, tx
      ensures Abs() == Dispatch(old(Abs()), e)
    {
      hide MhCall, ModeCall, IsduReq, ParamReq, ControlReq, DevicemodeReq, SetModeReq, PageReq,
        OnReceived, OnLineErrors, OnTimer, OnWakeUp;
      match e {
        case Received(frame) => Receive(frame);
        case ReceiveFailed =>
          link := link.(rxError := true);
          MessageHSm();
          link := link.(rxError := false);
        case LineErrors(rxTimeout, rxError, txError) => HandleError(rxTimeout, rxError, txError);
        case TimerExpired => HandleTimeout();
        case ModeEvent(sdci) => ModeHSm(sdci);
        case MessageEvent => MessageHSm();
        case WakeUp(found, cycle) => HandleWakeUp(found, cycle);
        case ClockTick(now) => link := link.(now := now);
        case IsduService(r) => IsduTransportReq(r);
        case PageService(write, addr, value) => ReadWriteReq(write, addr, value);
        case ParamService(write, addr, value) => ReadWriteParamReq(write, addr, value);
        case ControlService(code) => ControlRequest(code);
        case DevicemodeService(m) => WriteDevicemodeReq(m);
        case SetModeService(m, mseq, cycByte, pdRx, pdTx, odLen) => SetMode(m, mseq, cycByte, pdRx, pdTx, odLen);
      }
    }

    // Any series of turns and calls. The retry bound holds throughout. So do the
    // books of accepted requests, and the handlers are on in OPERATE, while the
    // layers above keep to what IsduAccounting allows. In a session requests and
    // replies stay paired, the ISDU and event handlers go where their own
    // triggers lead them, the messages carry the requests one for one, and the
    // link is lost exactly by four errors or by silence.
    method Serve(es: seq<Event>)
      requires Valid() && forall e :: e in es ==> WellFormedEvent(e)
      modifies this, isduData, tx
      ensures Abs() == Run(old(Abs()), es)
      ensures Watchdog.Bounded(old(Abs())) ==> Watchdog.Bounded(Abs())
      ensures IsduAccounting.Inv(old(Abs())) && IsduAccounting.AllowedRun(old(Abs()), es) ==>
        && IsduAccounting.Inv(Abs()) && (LinkUp.Switched(old(Abs())) ==> LinkUp.Switched(Abs()))
      ensures forall b :: OdInterleaving.Session(old(Abs()), b) && (forall e :: e in es ==> Regular(e)) ==>
        OdInterleaving.Session(Abs(), b) && OdMarks.Paired(OdMarks.Marks(OdInterleaving.Said(Abs(), b)))
      ensures forall b :: OdInterleaving.Session(old(Abs()), b) && !old(mode).comLost && (forall e :: e in es ==> Cyclic(e)) ==>
        mode.comLost || OdInterleaving.Follows(old(Abs()), Abs())
      ensures forall b, r, octets, n :: SharedChannel.TransferDue(old(Abs()), es, b, r, octets, n) ==>
        SharedChannel.TransferDone(old(Abs()), Abs(), r, octets, n)
      ensures forall b, mem :: SharedChannel.ReadoutDue(old(Abs()), es, b, mem) ==> SharedChannel.ReadoutDone(old(Abs()), Abs(), mem)
      ensures Watchdog.AwaitingReply(old(Abs())) && old(mh).retry <= 3 && (forall e :: e in es ==> Regular(e)) ==>
        (Watchdog.Lost(Abs()) <==> old(mh).retry + Watchdog.Errors(es) >= 4 || Watchdog.Expires(old(link).cycleTimer, es))
      ensures SessionMessages.Between(old(Abs())) && Watchdog.AwaitingReply(old(Abs())) && old(mh).retry <= 3
              && (forall e :: e in es ==> Regular(e)) && SessionMessages.MindfulRun(old(Abs()), es) ==>
        Watchdog.Lost(Abs()) || SessionMessages.Told(old(Abs()), Abs())
    {
      hide Dispatch, Watchdog.Bounded, IsduAccounting.Inv, IsduAccounting.AllowedRun, OdInterleaving.Session, OdInterleaving.Follows,
        OdMarks.Paired, OdMarks.Marks, Regular, Cyclic, Watchdog.AwaitingReply, Watchdog.Expires, LinkUp.Switched;
      ghost var start := Abs();
      assert es[..0] == [];
      for i := 0 to |es|
        invariant Abs() == Run(start, es[..i])
      {
        assert es[..i + 1][..i] == es[..i];
        Handle(es[i]);
      }
      assert es[..|es|] == es;
      Served(start, es);
    }
  }

  // What a run of the model, and so of the object, comes to.
  lemma Served(s: Dl, es: seq<Event>)
    requires forall e :: e in es ==> WellFormedEvent(e)
    ensures var t := Run(s, es);
      && (Watchdog.Bounded(s) ==> Watchdog.Bounded(t))
      && (IsduAccounting.Inv(s) && IsduAccounting.AllowedRun(s, es) ==>
            IsduAccounting.Inv(t) && (LinkUp.Switched(s) ==> LinkUp.Switched(t)))
      && (Watchdog.AwaitingReply(s) && s.mh.retry <= 3 && (forall e :: e in es ==> Regular(e)) ==>
            (Watchdog.Lost(t) <==> s.mh.retry + Watchdog.Errors(es) >= 4 || Watchdog.Expires(s.link.cycleTimer, es)))
    ensures SessionMessages.Between(s) && Watchdog.AwaitingReply(s) && s.mh.retry <= 3
            && (forall e :: e in es ==> Regular(e)) && SessionMessages.MindfulRun(s, es) ==>
      Watchdog.Lost(Run(s, es)) || SessionMessages.Told(s, Run(s, es))
    ensures forall b :: OdInterleaving.Session(s, b) && (forall e :: e in es ==> Regular(e)) ==>
      OdInterleaving.Session(Run(s, es), b) && OdMarks.Paired(OdMarks.Marks(OdInterleaving.Said(Run(s, es), b)))
    ensures forall b :: OdInterleaving.Session(s, b) && !s.mode.comLost && (forall e :: e in es ==> Cyclic(e)) ==>
      Run(s, es).mode.comLost || OdInterleaving.Follows(s, Run(s, es))
    ensures forall b, r, octets, n :: SharedChannel.TransferDue(s, es, b, r, octets, n) ==>
      SharedChannel.TransferDone(s, Run(s, es), r, octets, n)
    ensures forall b, mem :: SharedChannel.ReadoutDue(s, es, b, mem) ==> SharedChannel.ReadoutDone(s, Run(s, es), mem)
  {
    hide SharedChannel.ReadoutDue, SharedChannel.ReadoutDone, SharedChannel.TransferDone;
    forall b, r, octets, n | SharedChannel.TransferDue(s, es, b, r, octets, n)
      ensures SharedChannel.TransferDone(s, Run(s, es), r, octets, n)
    {
      SharedChannel.TransferOnSharedChannel(s, es, b, r, octets, n);
    }
    hide SharedChannel.TransferDue;
    forall b, mem | SharedChannel.ReadoutDue(s, es, b, mem)
      ensures SharedChannel.ReadoutDone(s, Run(s, es), mem)
    {
      SharedChannel.ReadoutOnSharedChannel(s, es, b, mem);
    }
    hide Run, Watchdog.Bounded, IsduAccounting.Inv, IsduAccounting.AllowedRun, OdInterleaving.Session, OdInterleaving.Follows,
      OdMarks.Paired, OdMarks.Marks, Regular, Cyclic, Watchdog.AwaitingReply, Watchdog.Expires, Watchdog.Errors, LinkUp.Switched;
    hide SessionMessages.Between, SessionMessages.Told, SessionMessages.MindfulRun;
    if SessionMessages.Between(s) && Watchdog.AwaitingReply(s) && s.mh.retry <= 3
      && (forall e :: e in es ==> Regular(e)) && SessionMessages.MindfulRun(s, es) {
      SessionMessages.OneForOne(s, es);
    }
    if Watchdog.Bounded(s) { Watchdog.RunBounded(s, es); }
    if IsduAccounting.Inv(s) && IsduAccounting.AllowedRun(s, es) {
      IsduAccounting.RunKeepsBooks(s, es);
      if LinkUp.Switched(s) { LinkUp.RunSwitched(s, es); }
    }
    if Watchdog.AwaitingReply(s) && s.mh.retry <= 3 && (forall e :: e in es ==> Regular(e)) { Watchdog.LostExactly(s, es); }
    forall b | OdInterleaving.Session(s, b) && (forall e :: e in es ==> Regular(e))
      ensures OdInterleaving.Session(Run(s, es), b) && OdMarks.Paired(OdMarks.Marks(OdInterleaving.Said(Run(s, es), b)))
    {
      OdInterleaving.SessionKept(s, es, b);
      OdInterleaving.TriggersAlternate(s, es, b);
    }
    forall b | OdInterleaving.Session(s, b) && !s.mode.comLost && (forall e :: e in es ==> Cyclic(e))
      ensures Run(s, es).mode.comLost || OdInterleaving.Follows(s, Run(s, es))
    {
      OdInterleaving.SessionContinues(s, es, b);
    }
  }

  lemma WholeSlice(s: seq<Octet>, n: nat)
    ensures Slice(s + Zeros(n), 0, |s|) == s
  {
  }

  // One round of the loop over the fixed events.
  lemma PlainStep(status: Octet, i: nat, left: nat)
    ensures i >= 5 ==> EM.PlainInds(status, i, left) == []
    ensures i < 5 && Bit(status, i) ==>
      var less := if left > 0 then left - 1 else 0;
      EM.PlainInds(status, i, left) == [EventInd(EM.PlainCode(i), EM.PlainQualifier(i), less)] + EM.PlainInds(status, i + 1, less)
    ensures i < 5 && !Bit(status, i) ==> EM.PlainInds(status, i, left) == EM.PlainInds(status, i + 1, left)
  {
    hide Bit, EM.PlainCode, EM.PlainQualifier;
  }

  // A first set bit, or none below MAX_EVENTS, is what NextBit finds.
  lemma {:induction false} NextIs(status: Octet, from: nat, b: nat)
    requires from <= b <= MAX_EVENTS && (b < MAX_EVENTS ==> Bit(status, b)) && forall i :: from <= i < b ==> !Bit(status, i)
    ensures EM.NextBit(status, from) == b
  {
    hide Bit;
  }

  function Act1(s: Dl, a: Act): Dl { Log(if a.OdRequest? then Request(s, a) else s, [a]) }

  // The few acts of one call, in order, whenever the records are updated.
  lemma {:induction false} PerformFew(s: Dl, acts: seq<Act>)
    ensures |acts| == 0 ==> Perform(s, acts) == s
    ensures |acts| == 1 ==> Perform(s, acts) == Act1(s, acts[0])
    ensures |acts| == 2 ==> Perform(s, acts) == Act1(Act1(s, acts[0]), acts[1])
    decreases |acts|
  {
    hide Request;
    if |acts| == 2 {
      PerformFew(Act1(s, acts[0]), acts[1..]);
    }
  }

  // An act does not look at the event handler's record.
  lemma ActAfter(s: Dl, e: EventHandler, a: Act)
    ensures Act1(s.(ev := e), a) == Act1(s, a).(ev := e)
  {
    hide Blit;
  }

  lemma {:induction false} PerformIndications(s: Dl, acts: seq<Act>)
    requires EM.Indications(acts)
    ensures Perform(s, acts) == Log(s, acts)
    decreases |acts|
  {
    if acts == [] {
      assert s.log + [] == s.log;
    } else {
      assert acts[..1] == [acts[0]];
      PerformIndications(Log(s, acts[..1]), acts[1..]);
      assert s.log + acts[..1] + acts[1..] == s.log + acts;
    }
  }

  // The handler's record is replaced whole, so earlier changes to it do not matter.
  lemma IsduAfterSame(s: Dl, c: IM.Ctx, o: IM.Out)
    ensures IsduAfter(s.(isdu := c.h, mh := s.mh.(rw := c.rw)), o) == IsduAfter(s, o)
  {
  }

  lemma CompletionIs(s: Dl)
    ensures var d, total := s.isdu.data, IM.TotalLen(s.isdu.data);
      var offset: nat := if IM.LenOf(d) == 1 then 2 else 1;
      var data := if total == 0 then [] else Slice(d, offset, (total - offset - 1) % 256);
      var status := if total == 0 then Invalid else if XorAll(Slice(d, 0, s.isdu.totalLen)) == 0 then NoError else ChecksumError;
      IsduAfter(s, IM.ReceptionComplete(IsduContext(s)))
      == Log(s, [IsduCnf(data, IM.ServiceOf(d), status)]).(isdu := s.isdu.(currentSeg := 0, totalSeg := 0, state := IsduIdle1), mh := s.mh.(rw := RwNone))
  {
    hide IM.TotalLen, IM.LenOf, IM.ServiceOf, XorAll, Slice, Act1;
    IsduAfterFew(s, IM.ReceptionComplete(IsduContext(s)));
  }

  lemma IsduAfterFew(s: Dl, o: IM.Out)
    ensures var r := IsduAfter(s, o); var t := s.(isdu := o.c.h, mh := s.mh.(rw := o.c.rw));
      && (|o.acts| == 0 ==> r == t)
      && (|o.acts| == 1 && o.acts[0].OdRequest? ==> r == Act1(s, o.acts[0]).(isdu := o.c.h, mh := t.mh))
      && (|o.acts| == 1 && !o.acts[0].OdRequest? ==> r == Log(t, o.acts))
      && (|o.acts| == 2 && !o.acts[1].OdRequest? ==>
            r == Log(Act1(s, o.acts[0]), o.acts[1..]).(isdu := o.c.h, mh := t.mh))
  {
    hide Blit;
    PerformFew(s.(isdu := o.c.h, mh := s.mh.(rw := o.c.rw)), o.acts);
  }
}
