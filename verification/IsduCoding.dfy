// ISDU coding of IO-Link Interface and System Specification v1.1.3, Annex A.5.
//
// EncodeRequest says which octets DL_ISDUTransport_req leaves in the ISDU
// buffer; DecodeRequest and ParseResponse are the other end of the wire,
// written from the standard's tables and not from the encoder.
module IsduCoding {
  import opened Octets

  const ISDU_MAX_SIZE: nat := 241 // capacity of the ISDU buffer

  datatype Request = Request(read: bool, index: nat, subindex: Octet, data: seq<Octet>)

  // What the services accept: 16 bit index, and data that fits the buffer.
  predicate Encodable(r: Request) {
    && 2 <= r.index < 0x10000
    && |Address(r)| + |r.data| + 3 <= ISDU_MAX_SIZE
  }

  // Index and subindex octets, and the service nibble that announces them.
  function Address(r: Request): (a: seq<Octet>)
    requires r.index < 0x10000
  {
    if r.index > 255 then [r.index / 256, r.index % 256, r.subindex]
    else if r.subindex > 0 then [r.index, r.subindex]
    else [r.index]
  }

  function Service(r: Request): (s: nat)
    ensures 1 <= s <= 11
  {
    (if r.read then 8 else 0) +
    (if r.index > 255 then 3 else if r.subindex > 0 then 2 else 1)
  }

  function Header(service: nat, length: nat): (h: Octet)
    requires service < 16 && length < 16
    ensures h / 16 == service && h % 16 == length
  {
    service * 16 + length
  }

  // An ISDU around a body. Up to 15 octets in all the length sits in the first
  // octet; a longer ISDU announces 1 and carries an extended length. The last
  // octet is the checksum.
  function Front(service: nat, body: seq<Octet>): (f: seq<Octet>)
    requires 1 <= service < 16 && |body| <= 252
    ensures |f| == |body| + (if |body| <= 13 then 1 else 2)
  {
    if |body| <= 13 then [Header(service, 2 + |body|)] + body
    else [Header(service, 1), |body| + 3] + body
  }

  function Frame(service: nat, body: seq<Octet>): (o: seq<Octet>)
    requires 1 <= service < 16 && |body| <= 252
    ensures |o| == |body| + (if |body| <= 13 then 2 else 3)
  {
    Front(service, body) + [XorAll(Front(service, body))]
  }

  function EncodeRequest(r: Request): (o: seq<Octet>)
    requires Encodable(r)
  {
    Frame(Service(r), Address(r) + r.data)
  }

  // ---- Annex A.5, the receiving side ----

  // Total length announced by the first two octets, if they are legal.
  function AnnouncedLength(o: seq<Octet>): (n: Option<nat>)
    ensures n.Some? ==> 2 <= n.value <= 255 && n.value != 16
  {
    if |o| < 2 then None
    else if o[0] % 16 == 1 then (if o[1] >= 17 then Some(o[1]) else None)
    else if o[0] % 16 >= 2 then Some(o[0] % 16)
    else None
  }

  function DecodeRequest(o: seq<Octet>): (r: Option<Request>) {
    match AnnouncedLength(o)
    case None => None
    case Some(total) =>
      var h := if o[0] % 16 == 1 then 2 else 1; // octets before the index
      var service := o[0] / 16;
      var kind := service % 8;
      var addr := if kind == 1 then 1 else if kind == 2 then 2 else 3;
      if kind !in {1, 2, 3} || total > |o| || total < h + addr + 1 || XorAll(o[..total]) != 0 then None
      else
        var data := o[h + addr..total - 1];
        var read := service >= 8;
        if kind == 1 then Some(Request(read, o[h], 0, data))
        else if kind == 2 then Some(Request(read, o[h], o[h + 1], data))
        else Some(Request(read, (o[h] as int) * 256 + o[h + 1], o[h + 2], data))
  }

  // A frame announces its own length (never 16 in the extended form), sums to
  // zero and gives back its service and body, whatever follows it.
  lemma FrameReads(service: nat, body: seq<Octet>, padding: seq<Octet>)
    requires 1 <= service < 16 && |body| <= 252
    ensures var f := Frame(service, body); var o := f + padding;
      && AnnouncedLength(o) == Some(|f|)
      && o[..|f|] == f && XorAll(f) == 0
      && o[0] / 16 == service
      && (o[0] % 16 == 1 <==> |f| >= 17)
      && o[if o[0] % 16 == 1 then 2 else 1..|f| - 1] == body
  {
    ChecksumCancels(Front(service, body));
    var f := Frame(service, body);
    var o := f + padding;
    assert o[..|f|] == f;
    assert o[0] == Front(service, body)[0];
    if |body| <= 13 {
      assert o[0] == Header(service, 2 + |body|);
      assert o[1..|f| - 1] == body;
    } else {
      assert o[0] == Header(service, 1) && o[1] == |body| + 3;
      assert o[2..|f| - 1] == body;
    }
  }

  // Requests survive the wire: whatever follows the announced octets, the
  // receiver recovers direction, index, subindex and data.
  lemma RequestRoundTrip(r: Request, padding: seq<Octet>)
    requires Encodable(r)
    ensures XorAll(EncodeRequest(r)) == 0
    ensures DecodeRequest(EncodeRequest(r) + padding) == Some(r)
  {
    hide XorAll, Frame;
    var a := Address(r);
    var f := EncodeRequest(r);
    FrameReads(Service(r), a + r.data, padding);
    BodyReads(r, f + padding, |f|);
  }

  // Reading index, subindex and data back out of the body.
  lemma BodyReads(r: Request, o: seq<Octet>, total: nat)
    requires 2 <= r.index < 0x10000
    requires AnnouncedLength(o) == Some(total) && total <= |o| && XorAll(o[..total]) == 0
    requires o[0] / 16 == Service(r)
    requires o[if o[0] % 16 == 1 then 2 else 1..total - 1] == Address(r) + r.data
    ensures DecodeRequest(o) == Some(r)
  {
    hide XorAll;
    var a := Address(r);
    var h := if o[0] % 16 == 1 then 2 else 1;
    SplitBody(o, h, total - 1, a, r.data);
    ServiceReads(r);
  }

  lemma ServiceReads(r: Request)
    ensures Service(r) % 8 == (if r.index > 255 then 3 else if r.subindex > 0 then 2 else 1)
    ensures Service(r) >= 8 <==> r.read
  {
  }

  lemma SplitBody(o: seq<Octet>, lo: nat, hi: nat, a: seq<Octet>, d: seq<Octet>)
    requires lo <= hi <= |o| && o[lo..hi] == a + d
    ensures hi == lo + |a| + |d| && o[lo + |a|..hi] == d
    ensures forall i :: 0 <= i < |a| ==> o[lo + i] == a[i]
  {
    var body := o[lo..hi];
    assert |body| == |a| + |d|;
    assert o[lo + |a|..hi] == body[|a|..];
    forall i | 0 <= i < |a|
      ensures o[lo + i] == a[i]
    {
      assert body[i] == o[lo + i];
    }
  }

  // ---- responses ----

  datatype Response = Response(service: nat, data: seq<Octet>, intact: bool)

  const NO_SERVICE := 0
  const WRITE_NEG := 4
  const WRITE_POS := 5
  const READ_NEG := 12
  const READ_POS := 13

  // The service nibbles a device may answer a read or a write with.
  predicate Answers(service: nat, read: bool) {
    if read then service in {READ_NEG, READ_POS} else service in {WRITE_NEG, WRITE_POS}
  }

  // A complete response: octets whose own header announces their number.
  ghost predicate WellFormedResponse(o: seq<Octet>, read: bool) {
    && AnnouncedLength(o) == Some(|o|)
    && Answers(o[0] / 16, read)
  }

  function ParseResponse(o: seq<Octet>): (r: Response)
    requires AnnouncedLength(o) == Some(|o|)
  {
    var h := if o[0] % 16 == 1 then 2 else 1;
    Response(o[0] / 16, o[h..|o| - 1], XorAll(o) == 0)
  }

  // Whatever a device answers within the length limits is well formed, and
  // parses back to its service and data with the checksum intact.
  lemma ResponseRoundTrip(service: nat, data: seq<Octet>, read: bool)
    requires Answers(service, read) && |data| <= 252
    ensures WellFormedResponse(Frame(service, data), read)
    ensures ParseResponse(Frame(service, data)) == Response(service, data, true)
  {
    FrameReads(service, data, []);
    assert Frame(service, data) + [] == Frame(service, data);
  }
}
