// Octets as bounded integers, the CHKPDU exclusive-or, and bounded copies
// between buffers. Shared by every module of the data link layer.
module Octets {

  type Octet = x: int | 0 <= x < 256

  datatype Option<+T> = None | Some(value: T)

  // Exclusive-or of the low `bits` bits, from the low end up.
  function XorBits(a: nat, b: nat, bits: nat): (r: nat)
    ensures r < Pow2(bits)
  {
    if bits == 0 then 0
    else (a + b) % 2 + 2 * XorBits(a / 2, b / 2, bits - 1)
  }

  function Xor(a: Octet, b: Octet): (r: Octet) {
    assert Pow2(8) == 256 by { assert Pow2(4) == 16; }
    XorBits(a, b, 8)
  }

  lemma {:induction false} XorBitsFacts(a: nat, bits: nat)
    requires a < Pow2(bits)
    ensures XorBits(a, a, bits) == 0
    ensures XorBits(0, a, bits) == a
  {
    if bits > 0 {
      XorBitsFacts(a / 2, bits - 1);
    }
  }

  lemma XorFacts(a: Octet)
    ensures Xor(a, a) == 0
    ensures Xor(0, a) == a
  {
    assert Pow2(8) == 256 by { assert Pow2(4) == 16; }
    XorBitsFacts(a, 8);
  }

  // The running exclusive-or, left to right, as the source's loop computes it.
  function XorAll(s: seq<Octet>): (r: Octet) {
    if s == [] then 0 else Xor(XorAll(s[..|s| - 1]), s[|s| - 1])
  }

  // Appending the checksum of a message makes the whole message sum to zero.
  lemma {:induction false} ChecksumCancels(s: seq<Octet>)
    ensures XorAll(s + [XorAll(s)]) == 0
  {
    var t := s + [XorAll(s)];
    assert t[..|t| - 1] == s;
    XorFacts(XorAll(s));
  }

  // What a copy of n octets starting at `off` reads. Octets past the end of
  // the buffer read as zero.
  function Slice(data: seq<Octet>, off: nat, n: nat): (r: seq<Octet>)
    ensures |r| == n
  {
    seq(n, i requires 0 <= i < n => if off + i < |data| then data[off + i] else 0)
  }

  // calcCHKPDU: the checksum loop over the first `length` octets of a buffer.
  method CalcChkPdu(data: array<Octet>, length: Octet) returns (chksum: Octet)
    ensures chksum == XorAll(Slice(data[..], 0, length))
  {
    chksum := 0;
    if length > 0 {
      chksum := if data.Length > 0 then data[0] else 0;
      XorFacts(chksum);
      assert Slice(data[..], 0, 1) == [chksum];
      assert [chksum][..0] == [];
      var idx := 1;
      while idx < length
        invariant 1 <= idx <= length
        invariant chksum == XorAll(Slice(data[..], 0, idx))
      {
        chksum := Xor(chksum, if idx < data.Length then data[idx] else 0);
        assert Slice(data[..], 0, idx + 1)[..idx] == Slice(data[..], 0, idx);
        idx := idx + 1;
      }
    }
  }

  // What a copy of `src` to offset `off` leaves in the buffer. Octets that
  // would land past the end are dropped.
  function Blit(data: seq<Octet>, off: nat, src: seq<Octet>): (r: seq<Octet>)
    ensures |r| == |data|
  {
    seq(|data|, i requires 0 <= i < |data| =>
      if off <= i < off + |src| then src[i - off] else data[i])
  }

  function Zeros(n: nat): (r: seq<Octet>)
    ensures |r| == n && forall i :: 0 <= i < n ==> r[i] == 0
  {
    seq(n, i => 0)
  }

  function Pow2(b: nat): (r: nat)
    ensures r >= 1
  {
    if b == 0 then 1 else 2 * Pow2(b - 1)
  }

  // Bit b of an octet.
  predicate Bit(x: Octet, b: nat) {
    (x / Pow2(b)) % 2 == 1
  }

  function CeilDiv(a: nat, b: nat): (r: nat)
    requires b >= 1
    ensures r * b >= a
    ensures a >= 1 ==> r >= 1 && (r - 1) * b < a
  {
    var r := (a + b - 1) / b;
    assert a + b - 1 == r * b + (a + b - 1) % b;
    r
  }
}
