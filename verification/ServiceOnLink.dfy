// A read or write from the application's call to its answer, over runs of the
// link.
module ServiceOnLink {
  import opened Octets
  import opened DlTypes
  import opened AlMachine
  import opened AlAnswers
  import opened AlServices
  import IsduCoding
  import IsduTransfer
  import IM = IsduMachine
  import LL = LinkLayer
  import OI = OdInterleaving
  import OM = OdMarks
  import SC = SharedChannel
  import SharedChannelRuns

  // The request as it goes down to the data link layer.
  function Down(r: AlRequest): IsduCoding.Request {
    IsduCoding.Request(r.ReadReq?, r.index, r.subindex, if r.ReadReq? then [] else r.data)
  }

  // What the data link layer confirms.
  function Cnfs(log: seq<Act>): (c: seq<Act>) {
    if log == [] then []
    else Cnfs(log[..|log| - 1]) + (if log[|log| - 1].IsduCnf? then [log[|log| - 1]] else [])
  }

  lemma {:induction false} CnfsNext(log: seq<Act>, a: Act)
    ensures Cnfs(log + [a]) == Cnfs(log) + (if a.IsduCnf? then [a] else [])
  {
    assert (log + [a])[..|log|] == log;
  }

  lemma {:induction false} CnfsOfTraffic(log: seq<Act>)
    ensures Cnfs(OM.Traffic(log)) == Cnfs(log)
  {
    if log != [] {
      var front, a := log[..|log| - 1], log[|log| - 1];
      CnfsOfTraffic(front);
      CnfsNext(front, a);
      CnfsNext(OM.Traffic(front), a);
      assert OM.Traffic(log) == OM.Traffic(front) + (if OM.OnChannel(a) then [a] else []);
      if !OM.OnChannel(a) { assert OM.Traffic(front) + [] == OM.Traffic(front); }
    }
  }

  lemma {:induction false} CnfsJoined(log: seq<Act>, requests: seq<Act>)
    requires forall i :: 0 <= i < |requests| ==> requests[i].OdRequest?
    ensures Cnfs(log + requests) == Cnfs(log)
    decreases |requests|
  {
    if requests == [] {
      assert log + requests == log;
    } else {
      var front := requests[..|requests| - 1];
      CnfsJoined(log, front);
      CnfsNext(log + front, requests[|requests| - 1]);
      assert log + requests == log + front + [requests[|requests| - 1]];
    }
  }

  // A conversation holds exactly one confirmation.
  lemma {:induction false} OneConfirmation(data: seq<Octet>, r: IsduCoding.Request, octets: seq<Octet>, odLen: nat, b: nat, k: nat)
    requires IsduCoding.Encodable(r) && odLen >= 1 && IsduCoding.AnnouncedLength(octets) == Some(|octets|)
    ensures Cnfs(SC.Spoken(data, r, octets, odLen, b) + SC.Idles(k)) == [IsduTransfer.Confirmation(octets)]
  {
    hide IsduCoding.EncodeRequest, CeilDiv, IsduTransfer.Writes, IsduTransfer.Reads, IsduCoding.AnnouncedLength, SC.Idles, Cnfs,
      IsduTransfer.Confirmation;
    var n, m := CeilDiv(|IsduCoding.EncodeRequest(r)|, odLen), CeilDiv(|octets|, odLen);
    var sent, asked, c := IsduTransfer.Writes(data, odLen, n), IsduTransfer.Reads(b, m), IsduTransfer.Confirmation(octets);
    forall i | 0 <= i < n { IsWrite(data, odLen, n, i); }
    forall i | 0 <= i < b + m { IsRead(b, m, i); }
    forall i | 0 <= i < k { IsIdle(k, i); }
    CnfsNone();
    CnfsJoined([], sent + asked);
    assert [] + (sent + asked) == sent + asked;
    CnfsNext(sent + asked, c);
    assert c.IsduCnf? by { IsCnf(octets); }
    CnfsJoined(sent + asked + [c], SC.Idles(k));
    assert SC.Spoken(data, r, octets, odLen, b) + SC.Idles(k) == sent + asked + [c] + SC.Idles(k);
  }

  lemma CnfsNone()
    ensures Cnfs([]) == []
  {
  }

  lemma IsCnf(octets: seq<Octet>)
    requires IsduCoding.AnnouncedLength(octets) == Some(|octets|)
    ensures IsduTransfer.Confirmation(octets).IsduCnf?
  {
    hide IsduCoding.AnnouncedLength;
  }

  lemma {:induction false} IsWrite(data: seq<Octet>, odLen: nat, k: nat, i: nat)
    requires i < k
    ensures IsduTransfer.Writes(data, odLen, k)[i].OdRequest?
  {
    if i < k - 1 { IsWrite(data, odLen, k - 1, i); }
  }

  lemma {:induction false} IsRead(b: nat, k: nat, i: nat)
    requires i < b + k
    ensures IsduTransfer.Reads(b, k)[i].OdRequest?
    decreases b + k
  {
    if i < b + k - 1 {
      if k == 0 { IsRead(b - 1, 0, i); } else { IsRead(b, k - 1, i); }
    }
  }

  lemma {:induction false} IsIdle(k: nat, i: nat)
    requires i < k
    ensures SC.Idles(k)[i].OdRequest?
  {
    if i < k - 1 { IsIdle(k - 1, i); }
  }

  // Reads and sent end to end. The request goes down once and unchanged; on a
  // run of the link that serves it, commands and event readouts cutting in, the
  // link confirms once; and with that confirmation the caller, and nobody else,
  // is answered with the data and error code of the device's response.
  lemma {:induction false} ServiceReachesDevice(a: Al, r: AlRequest, early: seq<Input>, late: seq<Input>,
                                                s: LL.Dl, es: seq<LL.Event>, base: nat, octets: seq<Octet>, b: nat)
    requires Resting(a) && r.index >= 2 && (r.WriteReq? ==> |r.data| <= 255) && Requests(early) && Requests(late)
    requires LL.WellFormedEvent(LL.IsduService(Down(r)))
    requires SC.TransferDue(LL.Dispatch(s, LL.IsduService(Down(r))), es, base, Down(r), octets, b)
    ensures var t := LL.Dispatch(s, LL.IsduService(Down(r))); var cs := Cnfs(OI.New(t, LL.Run(t, es)));
      && |cs| == 1 && cs[0].IsduCnf?
      && var p := IsduCoding.ParseResponse(octets);
         var u := Run(a, Serving(r, early, Some(cs[0].data), late, cs[0].qualifier, cs[0].status));
         && u.od == OnReqIdle
         && u.log == a.log + [DlIsduTransport(Down(r))] + Rejections(early) + Rejections(late)
            + [if r.ReadReq? then ReadDone(CallbackOf(r), if p.intact then p.data else [], ErrorFor(p))
               else WriteDone(CallbackOf(r), ErrorFor(p))]
  {
    hide Run, LL.Run, LL.Dispatch, OI.New, OM.Traffic, Cnfs, SC.Spoken, SC.Idles, IsduTransfer.Confirmation, Rejections,
      IsduCoding.EncodeRequest, OI.Session, SC.Needed, SC.Served, IsduCoding.WellFormedResponse, IsduTransfer.AtRest;
    var t := LL.Dispatch(s, LL.IsduService(Down(r)));
    var q := Down(r);
    SC.TransferOnSharedChannel(t, es, base, q, octets, b);
    SC.WellFormedIs(octets, q.read);
    var said := OI.New(t, LL.Run(t, es));
    var rest := |OM.Inputs(said)| - SC.Owed(t) - SC.Needed(q, octets, t.mh.odLen, b);
    CnfsOfTraffic(said);
    OneConfirmation(t.isdu.data, q, octets, t.mh.odLen, b, (rest + 1) / 2);
    IsCnf(octets);
    ServiceAnswered(a, r, early, late, octets);
  }

  // From any calm session with nothing to be transferred the request is accepted,
  // and there is a run of the link that serves it.
  lemma {:induction false} ServicePossible(r: AlRequest, s: LL.Dl, base: nat, octets: seq<Octet>, b: nat)
    requires r.index >= 2 && LL.WellFormedEvent(LL.IsduService(Down(r)))
    requires SharedChannelRuns.Calm(s, base) && s.link.now > 0 && s.isdu.state == IsduIdle1 && s.mode.state !in {ModeIdle0, ModeEstCom1}
    requires IsduCoding.WellFormedResponse(octets, r.ReadReq?) && |octets| <= IsduCoding.ISDU_MAX_SIZE
    requires IsduTransfer.Readable(octets, s.mh.odLen, IM.At(IsduCoding.EncodeRequest(Down(r)), 1))
    ensures exists es: seq<LL.Event> :: SC.TransferDue(LL.Dispatch(s, LL.IsduService(Down(r))), es, base, Down(r), octets, b)
  {
    hide OM.Marks, OM.Paired, OI.Said, IsduCoding.EncodeRequest, IM.TotalSegments, Zeros, SC.TransferDue, IsduCoding.WellFormedResponse,
      OI.Session;
    OI.RegularKeeps(s, LL.IsduService(Down(r)), base);
    var t := LL.Dispatch(s, LL.IsduService(Down(r)));
    SharedChannelRuns.TransferPossible(t, base, Down(r), octets, b);
  }
}
