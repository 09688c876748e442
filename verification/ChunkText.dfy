// The text of configuration writes: how a chunk is told from a whole command,
// and what stripping does to a command sent in chunks.
module ChunkText {
  import opened Octets
  import opened ChunkAssembly

  // What str.strip() takes off.
  const SPACES: set<char> := {
    ' ', '\t', '\n', '\r', '\U{0B}', '\U{0C}', '\U{1C}', '\U{1D}', '\U{1E}', '\U{1F}', '\U{85}', '\U{A0}', '\U{1680}',
    '\U{2000}', '\U{2001}', '\U{2002}', '\U{2003}', '\U{2004}', '\U{2005}', '\U{2006}', '\U{2007}', '\U{2008}', '\U{2009}',
    '\U{200A}', '\U{2028}', '\U{2029}', '\U{202F}', '\U{205F}', '\U{3000}'
  }

  function RStrip(s: string): string {
    if s != [] && s[|s| - 1] in SPACES then RStrip(s[..|s| - 1]) else s
  }

  function LStrip(s: string): string {
    if s != [] && s[0] in SPACES then LStrip(s[1..]) else s
  }

  function Strip(s: string): string { LStrip(RStrip(s)) }

  // Where c first is, or the length.
  function Find(s: string, c: char): (k: nat)
    ensures k <= |s| && (k < |s| ==> s[k] == c) && forall i :: 0 <= i < k ==> s[i] != c
  {
    if s == [] || s[0] == c then 0 else 1 + Find(s[1..], c)
  }

  const CHUNK: string := "CHUNK:"

  // The write a text is; `number` reads the numbers of its header, as int() does.
  function Decode(raw: string, number: string -> Option<int>): Write {
    var s := Strip(raw);
    if !(CHUNK <= s) then Whole(s)
    else
      var rest := s[|CHUNK|..];
      var k := Find(rest, ':');
      if k == |rest| then Malformed
      else
        var header, data := rest[..k], rest[k + 1..];
        var j := Find(header, '/');
        if j == |header| || '/' in header[j + 1..] then Malformed
        else match (number(header[..j]), number(header[j + 1..]))
          case (Some(num), Some(total)) => Chunk(num, total, data)
          case _ => Malformed
  }

  // How a sender writes chunk i of n; `numeral` writes its numbers.
  function Text(i: nat, n: nat, data: string, numeral: nat -> string): string {
    CHUNK + (numeral(i) + "/" + numeral(n)) + ":" + data
  }

  // Numerals are read back, and cannot be taken for anything else.
  ghost predicate Readable(numeral: nat -> string, number: string -> Option<int>) {
    forall i: nat :: number(numeral(i)) == Some(i) && ':' !in numeral(i) && '/' !in numeral(i)
  }

  lemma {:induction false} RStripBehind(head: string, s: string)
    requires head != [] && head[|head| - 1] !in SPACES
    ensures RStrip(head + s) == head + RStrip(s)
  {
    if s == [] {
      assert head + s == head;
    } else {
      assert (head + s)[..|head + s| - 1] == head + s[..|s| - 1];
      if s[|s| - 1] in SPACES { RStripBehind(head, s[..|s| - 1]); }
    }
  }

  lemma FindIs(a: string, c: char, b: string)
    requires c !in a
    ensures Find(a + [c] + b, c) == |a|
  {
    var s := a + [c] + b;
    var k := Find(s, c);
    assert s[|a|] == c;
    assert forall i :: 0 <= i < |a| ==> s[i] == a[i];
  }

  // A chunk is read as what was sent, but for white space at its end.
  lemma {:induction false} ChunkDecoded(i: nat, n: nat, data: string, numeral: nat -> string, number: string -> Option<int>)
    requires Readable(numeral, number)
    ensures Decode(Text(i, n, data, numeral), number) == Chunk(i, n, RStrip(data))
  {
    hide RStrip, Find;
    var a, b := numeral(i), numeral(n);
    var header := a + "/" + b;
    var head := CHUNK + header + ":";
    assert Text(i, n, data, numeral) == head + data;
    RStripBehind(head, data);
    var s := head + RStrip(data);
    assert s[0] == 'C';
    assert Strip(Text(i, n, data, numeral)) == s;
    var rest := s[|CHUNK|..];
    assert rest == header + [':'] + RStrip(data);
    assert ':' !in header;
    FindIs(header, ':', RStrip(data));
    assert header == a + ['/'] + b;
    FindIs(a, '/', b);
    assert rest[..|header|] == header && rest[|header| + 1..] == RStrip(data);
    assert header[..|a|] == a && header[|a| + 1..] == b;
  }

  // ---- a command split up and put together again ----

  function Concat(parts: seq<string>): string {
    if parts == [] then "" else Concat(parts[..|parts| - 1]) + parts[|parts| - 1]
  }

  function Stripped(parts: seq<string>): (r: seq<string>)
    ensures |r| == |parts| && forall k :: 0 <= k < |parts| ==> r[k] == RStrip(parts[k])
  {
    seq(|parts|, k requires 0 <= k < |parts| => RStrip(parts[k]))
  }

  // The writes that send these chunks, by number.
  function Writes(parts: seq<string>, order: seq<nat>, numeral: nat -> string, number: string -> Option<int>): (ws: seq<Write>)
    requires forall k :: 0 <= k < |order| ==> 1 <= order[k] <= |parts|
    ensures |ws| == |order|
    ensures forall k :: 0 <= k < |order| ==> ws[k] == Decode(Text(order[k], |parts|, parts[order[k] - 1], numeral), number)
  {
    seq(|order|, k requires 0 <= k < |order| => Decode(Text(order[k], |parts|, parts[order[k] - 1], numeral), number))
  }

  // Every number comes, and the last write is the first of its number to
  // complete them.
  ghost predicate LastCompletes(order: seq<nat>, n: nat) {
    && (forall k :: 0 <= k < |order| ==> 1 <= order[k] <= n)
    && (forall i: nat :: 1 <= i <= n ==> i in order)
    && order != [] && order[|order| - 1] !in order[..|order| - 1]
  }

  lemma {:induction false} RStripShorter(s: string)
    ensures |RStrip(s)| <= |s| && (|RStrip(s)| == |s| ==> RStrip(s) == s)
    ensures RStrip(s) == s <==> s == [] || s[|s| - 1] !in SPACES
  {
    if s != [] && s[|s| - 1] in SPACES { RStripShorter(s[..|s| - 1]); }
  }

  // Parts none of which is longer than its counterpart make up the same text only
  // if none is shorter.
  lemma {:induction false} SameText(parts: seq<string>)
    ensures |Concat(Stripped(parts))| <= |Concat(parts)|
    ensures Concat(Stripped(parts)) == Concat(parts) <==> forall k :: 0 <= k < |parts| ==> RStrip(parts[k]) == parts[k]
  {
    hide RStrip;
    if parts == [] {
      assert Stripped(parts) == parts;
    } else {
      var front, last := parts[..|parts| - 1], parts[|parts| - 1];
      SameText(front);
      RStripShorter(last);
      assert Stripped(parts)[..|parts| - 1] == Stripped(front);
      var a, b, x, y := Concat(Stripped(front)), RStrip(last), Concat(front), last;
      if a + b == x + y {
        assert |a| == |x| && |b| == |y|;
        assert a == (a + b)[..|a|] && x == (x + y)[..|x|];
      }
      assert parts == front + [last];
    }
  }

  // What the chunks are in the buffer.
  lemma {:induction false} FilledWith(b: Buffer, parts: seq<string>, order: seq<nat>, ws: seq<Write>)
    requires b.chunks == map[] && |ws| == |order|
    requires forall k :: 0 <= k < |order| ==> 1 <= order[k] <= |parts| && ws[k] == Chunk(order[k], |parts|, RStrip(parts[order[k] - 1]))
    ensures var all := Filled(b, ws); forall i :: i in all.chunks ==> 1 <= i <= |parts| && all.chunks[i] == RStrip(parts[i - 1])
    ensures Filled(b, ws).chunks.Keys == set k | 0 <= k < |order| :: order[k] as int
  {
    hide RStrip;
    if ws != [] {
      var front, most := ws[..|ws| - 1], order[..|order| - 1];
      var last := order[|order| - 1];
      FilledWith(b, parts, most, front);
      assert Filled(b, ws) == Put(Filled(b, front), last, RStrip(parts[last - 1]));
      assert order == most + [last];
      SetNext(most, last);
    }
  }

  lemma SetNext(order: seq<nat>, last: nat)
    ensures (set k | 0 <= k < |order + [last]| :: (order + [last])[k] as int) == (set k | 0 <= k < |order| :: order[k] as int) + {last as int}
  {
    var all := order + [last];
    assert forall k :: 0 <= k < |order| ==> all[k] == order[k];
    assert all[|order|] == last;
  }

  lemma {:induction false} AssembledIs(chunks: map<int, string>, parts: seq<string>, n: nat)
    requires n <= |parts| && forall i :: 1 <= i <= n ==> i in chunks && chunks[i] == RStrip(parts[i - 1])
    ensures Assemble(chunks, n) == Concat(Stripped(parts[..n]))
  {
    hide RStrip;
    if n > 0 {
      AssembledIs(chunks, parts, n - 1);
      assert parts[..n][..n - 1] == parts[..n - 1];
      assert Stripped(parts[..n])[..n - 1] == Stripped(parts[..n - 1]);
    }
  }

  // The chunks are complete with the last write and not before.
  lemma {:induction false} CompleteAtLast(b: Buffer, parts: seq<string>, order: seq<nat>, ws: seq<Write>)
    requires b.chunks == map[] && |ws| == |order| && LastCompletes(order, |parts|)
    requires forall k :: 0 <= k < |order| ==> ws[k] == Chunk(order[k], |parts|, RStrip(parts[order[k] - 1]))
    ensures forall k :: 0 < k < |ws| ==> Filled(b, ws[..k]).chunks.Keys != Interval(|parts|)
    ensures Filled(b, ws).chunks.Keys == Interval(|parts|)
  {
    hide RStrip, Filled;
    var last := order[|order| - 1];
    forall k | 0 < k < |ws|
      ensures Filled(b, ws[..k]).chunks.Keys != Interval(|parts|)
    {
      FilledWith(b, parts, order[..k], ws[..k]);
      assert forall i :: 0 <= i < k ==> order[i] == order[..|order| - 1][i] && order[..k][i] == order[i];
      assert last as int !in Filled(b, ws[..k]).chunks.Keys && last as int in Interval(|parts|);
    }
    FilledWith(b, parts, order, ws);
    forall i: int
      ensures i in Filled(b, ws).chunks.Keys <==> i in Interval(|parts|)
    {
      if 1 <= i <= |parts| { assert i as nat in order; }
    }
  }

  lemma {:induction false} SameExactly(parts: seq<string>)
    ensures Concat(Stripped(parts)) == Concat(parts) <==> forall k :: 0 <= k < |parts| ==> parts[k] == [] || parts[k][|parts[k]| - 1] !in SPACES
  {
    hide RStrip, Concat;
    SameText(parts);
    forall k | 0 <= k < |parts|
      ensures RStrip(parts[k]) == parts[k] <==> parts[k] == [] || parts[k][|parts[k]| - 1] !in SPACES
    {
      RStripShorter(parts[k]);
    }
  }

  lemma WritesDecoded(parts: seq<string>, order: seq<nat>, numeral: nat -> string, number: string -> Option<int>)
    requires Readable(numeral, number) && forall k :: 0 <= k < |order| ==> 1 <= order[k] <= |parts|
    ensures var ws := Writes(parts, order, numeral, number);
      forall k :: 0 <= k < |order| ==> ws[k] == Chunk(order[k], |parts|, RStrip(parts[order[k] - 1]))
  {
    hide Decode, Text, Readable, RStrip;
    forall k | 0 <= k < |order|
      ensures Writes(parts, order, numeral, number)[k] == Chunk(order[k], |parts|, RStrip(parts[order[k] - 1]))
    {
      ChunkDecoded(order[k], |parts|, parts[order[k] - 1], numeral, number);
    }
  }

  // A command cut into parts and sent in any order, with repetitions, on a
  // connection with nothing of it in its buffer: what is handed on is the parts
  // without the white space at the end of each; and so it is the command that was
  // cut if and only if no part ends in white space.
  lemma {:induction false} SplitCommand(s: State, key: nat, parts: seq<string>, order: seq<nat>,
                                        numeral: nat -> string, number: string -> Option<int>)
    requires Readable(numeral, number) && parts != [] && LastCompletes(order, |parts|)
    requires BufferFor(s, key, |parts|).chunks == map[]
    ensures var t := Run(s, Sends(key, Writes(parts, order, numeral, number)));
      && t.done == s.done + [Done(key, Concat(Stripped(parts)))] && key !in t.buffers
    ensures Concat(Stripped(parts)) == Concat(parts) <==> forall k :: 0 <= k < |parts| ==> parts[k] == [] || parts[k][|parts[k]| - 1] !in SPACES
  {
    hide Run, Decode, Text, Readable, RStrip, Assemble, Filled, BufferFor, Concat, Interval;
    var n := |parts|;
    var ws := Writes(parts, order, numeral, number);
    var b := BufferFor(s, key, n);
    WritesDecoded(parts, order, numeral, number);
    CompleteAtLast(b, parts, order, ws);
    FilledWith(b, parts, order, ws);
    ChunksAssembled(s, key, ws, n);
    AssembledIs(Filled(b, ws).chunks, parts, n);
    assert parts[..n] == parts;
    SameExactly(parts);
  }
}
