// config_cmd_write_handler of rotorsync_bumble.py: configuration commands sent
// whole, or in numbered chunks that may arrive in any order and from several
// connections at once.
module ChunkAssembly {
  import opened Octets

  // A write, decoded: a chunk of `total`, a whole command, or text that starts
  // like a chunk and is not one.
  datatype Write = Chunk(num: int, total: int, data: string) | Whole(command: string) | Malformed

  datatype Buffer = Buffer(chunks: map<int, string>, total: int)

  // A command handed on, and from which connection.
  datatype Done = Done(key: nat, command: string)

  datatype State = State(buffers: map<nat, Buffer>, done: seq<Done>)

  // Chunks 1 to n in order.
  function Assemble(chunks: map<int, string>, n: nat): string
    requires forall i :: 1 <= i <= n ==> i in chunks
  {
    if n == 0 then "" else Assemble(chunks, n - 1) + chunks[n]
  }

  predicate AllThere(b: Buffer) { forall i :: 1 <= i <= b.total ==> i in b.chunks }

  // The buffer a chunk goes into.
  function BufferFor(s: State, key: nat, total: int): Buffer {
    if key in s.buffers && s.buffers[key].total == total then s.buffers[key] else Buffer(map[], total)
  }

  function Put(b: Buffer, num: int, data: string): Buffer { b.(chunks := b.chunks[num := data]) }

  function Handle(s: State, key: nat, w: Write): State {
    match w
    case Whole(c) => s.(done := s.done + [Done(key, c)])
    case Malformed => s
    case Chunk(num, total, data) =>
      var b := Put(BufferFor(s, key, total), num, data);
      if |b.chunks| == total && AllThere(b) then
        State(s.buffers - {key}, s.done + [Done(key, Assemble(b.chunks, total))])
      else s.(buffers := s.buffers[key := b])
  }

  datatype Sent = Sent(key: nat, write: Write)

  function Run(s: State, ws: seq<Sent>): State {
    if ws == [] then s
    else
      var last := ws[|ws| - 1];
      Handle(Run(s, ws[..|ws| - 1]), last.key, last.write)
  }

  // ---- connections do not disturb each other ----

  function Own(ws: seq<Sent>, key: nat): seq<Sent> {
    if ws == [] then []
    else Own(ws[..|ws| - 1], key) + (if ws[|ws| - 1].key == key then [ws[|ws| - 1]] else [])
  }

  function OwnDone(done: seq<Done>, key: nat): seq<Done> {
    if done == [] then []
    else OwnDone(done[..|done| - 1], key) + (if done[|done| - 1].key == key then [done[|done| - 1]] else [])
  }

  ghost predicate SameFor(s: State, t: State, key: nat) {
    && (key in s.buffers <==> key in t.buffers)
    && (key in s.buffers ==> s.buffers[key] == t.buffers[key])
    && OwnDone(s.done, key) == OwnDone(t.done, key)
  }

  lemma {:induction false} OwnDoneNext(done: seq<Done>, d: Done, key: nat)
    ensures OwnDone(done + [d], key) == OwnDone(done, key) + (if d.key == key then [d] else [])
  {
    assert (done + [d])[..|done|] == done;
  }

  lemma HandleSame(s: State, t: State, key: nat, w: Write)
    requires SameFor(s, t, key)
    ensures SameFor(Handle(s, key, w), Handle(t, key, w), key)
  {
    hide OwnDone;
    forall done: seq<Done>, d: Done
      ensures OwnDone(done + [d], key) == OwnDone(done, key) + (if d.key == key then [d] else [])
    {
      OwnDoneNext(done, d, key);
    }
  }

  lemma HandleOther(s: State, key: nat, other: nat, w: Write)
    requires other != key
    ensures SameFor(s, Handle(s, other, w), key)
  {
    hide OwnDone;
    forall d: Done
      ensures OwnDone(s.done + [d], key) == OwnDone(s.done, key) + (if d.key == key then [d] else [])
    {
      OwnDoneNext(s.done, d, key);
    }
  }

  // However the writes of several connections interleave, each connection gets
  // the buffer and the commands its own writes alone lead to.
  lemma {:induction false} ConnectionsIndependent(s: State, ws: seq<Sent>, key: nat)
    ensures SameFor(Run(s, ws), Run(s, Own(ws, key)), key)
  {
    hide Handle, OwnDone;
    if ws != [] {
      var front := ws[..|ws| - 1];
      var last := ws[|ws| - 1];
      ConnectionsIndependent(s, front, key);
      if last.key == key {
        HandleSame(Run(s, front), Run(s, Own(front, key)), key, last.write);
        var own := Own(ws, key);
        assert own[..|own| - 1] == Own(front, key);
      } else {
        HandleOther(Run(s, front), key, last.key, last.write);
        assert Own(ws, key) == Own(front, key);
      }
    }
  }

  // ---- chunks in any order ----

  // The numbers 1 to n.
  function Interval(n: int): (r: set<int>)
    ensures forall i :: i in r <==> 1 <= i <= n
    ensures n >= 0 ==> |r| == n
    decreases n
  {
    if n <= 0 then {} else Interval(n - 1) + {n}
  }

  // A chunk number outside 1..total, which the code stores all the same.
  ghost predicate Stray(b: Buffer) { exists i :: i in b.chunks && !(1 <= i <= b.total) }

  // A buffer is complete exactly when it holds 1..total and nothing else.
  lemma CompleteExactly(b: Buffer)
    ensures |b.chunks| == b.total && AllThere(b) <==> b.total >= 0 && b.chunks.Keys == Interval(b.total)
  {
    if b.total >= 0 {
      assert |b.chunks| == |b.chunks.Keys|;
      if AllThere(b) && |b.chunks| == b.total {
        assert Interval(b.total) <= b.chunks.Keys;
        SameSize(Interval(b.total), b.chunks.Keys);
      }
    }
  }

  lemma SameSize(a: set<int>, b: set<int>)
    requires a <= b && |a| == |b|
    ensures a == b
  {
    assert |b| == |a| + |b - a| by { assert b == a + (b - a); }
  }

  // What the chunks of one connection leave in its buffer when none completes.
  function Filled(b: Buffer, ws: seq<Write>): Buffer {
    if ws == [] then b
    else
      var before := Filled(b, ws[..|ws| - 1]);
      var w := ws[|ws| - 1];
      if w.Chunk? then Put(before, w.num, w.data) else before
  }

  function Sends(key: nat, ws: seq<Write>): (r: seq<Sent>)
    ensures |r| == |ws| && forall k :: 0 <= k < |ws| ==> r[k] == Sent(key, ws[k])
  {
    seq(|ws|, k requires 0 <= k < |ws| => Sent(key, ws[k]))
  }

  // Chunks of one command of n parts.
  predicate Parts(ws: seq<Write>, n: int) {
    forall k :: 0 <= k < |ws| ==> ws[k].Chunk? && ws[k].total == n && 1 <= ws[k].num <= n
  }

  lemma {:induction false} RunLast(s: State, key: nat, ws: seq<Write>)
    requires ws != []
    ensures var front := ws[..|ws| - 1];
      Run(s, Sends(key, ws)) == Handle(Run(s, Sends(key, front)), key, ws[|ws| - 1])
  {
    assert Sends(key, ws)[..|ws| - 1] == Sends(key, ws[..|ws| - 1]);
  }

  // As long as something is missing or stray, the chunks pile up and nothing
  // is handed on.
  lemma {:induction false} PilesUp(s: State, key: nat, ws: seq<Write>, n: int)
    requires Parts(ws, n)
    requires var b := BufferFor(s, key, n);
      forall k :: 0 < k <= |ws| ==> Filled(b, ws[..k]).chunks.Keys != Interval(n)
    ensures var t := Run(s, Sends(key, ws));
      && t.done == s.done && BufferFor(t, key, n) == Filled(BufferFor(s, key, n), ws)
  {
    hide Handle, BufferFor, Interval;
    if ws != [] {
      var front := ws[..|ws| - 1];
      var b := BufferFor(s, key, n);
      assert forall k :: 0 < k <= |front| ==> front[..k] == ws[..k];
      PilesUp(s, key, front, n);
      RunLast(s, key, ws);
      assert ws[..|ws|] == ws;
      Piled(Run(s, Sends(key, front)), key, ws[|ws| - 1], n);
    }
  }

  // One chunk that completes nothing.
  lemma {:induction false} Piled(s: State, key: nat, w: Write, n: int)
    requires w.Chunk? && w.total == n
    requires var b := Put(BufferFor(s, key, n), w.num, w.data); b.chunks.Keys != Interval(n)
    ensures var b := Put(BufferFor(s, key, n), w.num, w.data);
      Handle(s, key, w) == s.(buffers := s.buffers[key := b]) && BufferFor(Handle(s, key, w), key, n) == b
  {
    hide Assemble;
    CompleteExactly(Put(BufferFor(s, key, n), w.num, w.data));
  }

  // A command in n chunks, in any order and with repetitions, whose last write
  // is the one that completes it: exactly one command is handed on, it is
  // chunks 1 to n as last written, in order, and the buffer is gone.
  lemma {:induction false} ChunksAssembled(s: State, key: nat, ws: seq<Write>, n: int)
    requires Parts(ws, n) && ws != []
    requires var b := BufferFor(s, key, n);
      && (forall k :: 0 < k < |ws| ==> Filled(b, ws[..k]).chunks.Keys != Interval(n))
      && Filled(b, ws).chunks.Keys == Interval(n)
    ensures var t := Run(s, Sends(key, ws)); var all := Filled(BufferFor(s, key, n), ws);
      && AllThere(all) && key !in t.buffers
      && t.done == s.done + [Done(key, Assemble(all.chunks, n))]
  {
    hide Handle, BufferFor, Interval, Run, Assemble;
    var front := ws[..|ws| - 1];
    assert forall k :: 0 < k <= |front| ==> front[..k] == ws[..k];
    PilesUp(s, key, front, n);
    RunLast(s, key, ws);
    Completed(Run(s, Sends(key, front)), key, ws[|ws| - 1], n);
  }

  // The chunk that completes the buffer.
  lemma {:induction false} Completed(s: State, key: nat, w: Write, n: int)
    requires w.Chunk? && w.total == n
    requires Put(BufferFor(s, key, n), w.num, w.data).chunks.Keys == Interval(n) && n > 0
    ensures var all := Put(BufferFor(s, key, n), w.num, w.data); var t := Handle(s, key, w);
      && AllThere(all) && all.total == n && key !in t.buffers
      && t.done == s.done + [Done(key, Assemble(all.chunks, n))]
  {
    hide Assemble;
    CompleteExactly(Put(BufferFor(s, key, n), w.num, w.data));
  }

  lemma {:induction false} FilledKeys(b: Buffer, ws: seq<Write>, n: int)
    requires Parts(ws, n)
    ensures Filled(b, ws).chunks.Keys == b.chunks.Keys + (set k | 0 <= k < |ws| :: ws[k].num)
  {
    if ws != [] {
      var front := ws[..|ws| - 1];
      FilledKeys(b, front, n);
      assert forall k :: 0 <= k < |front| ==> front[k] == ws[k];
      assert Filled(b, ws).chunks.Keys == Filled(b, front).chunks.Keys + {ws[|ws| - 1].num};
    }
  }

  // When every part has been sent, a command comes out if and only if no stray
  // chunk number was in the buffer; a stray one blocks every command with that
  // number of chunks until one with another number is begun.
  lemma {:induction false} StrayBlocks(s: State, key: nat, ws: seq<Write>, n: int)
    requires n >= 1 && Parts(ws, n) && BufferFor(s, key, n).chunks.Keys != Interval(n)
    requires Filled(BufferFor(s, key, n), ws).chunks.Keys >= Interval(n)
    ensures Run(s, Sends(key, ws)).done == s.done <==> Stray(BufferFor(s, key, n))
  {
    hide Handle, BufferFor, Filled, Run, Assemble;
    var b := BufferFor(s, key, n);
    assert b.total == n by { BufferTotal(s, key, n); }
    if Stray(b) {
      var i :| i in b.chunks && !(1 <= i <= n);
      forall k | 0 < k <= |ws|
        ensures Filled(b, ws[..k]).chunks.Keys != Interval(n)
      {
        FilledKeys(b, ws[..k], n);
        assert i in Filled(b, ws[..k]).chunks.Keys && i !in Interval(n);
      }
      PilesUp(s, key, ws, n);
    } else {
      FilledKeys(b, ws, n);
      assert Filled(b, ws).chunks.Keys == Interval(n);
      var k := FirstFull(b, ws, n);
      FirstComplete(s, key, ws, n, k);
    }
  }

  lemma BufferTotal(s: State, key: nat, n: int)
    ensures BufferFor(s, key, n).total == n
  {
  }

  // The first write that completes the buffer.
  lemma {:induction false} FirstFull(b: Buffer, ws: seq<Write>, n: int) returns (k: nat)
    requires Filled(b, ws).chunks.Keys == Interval(n) && b.chunks.Keys != Interval(n)
    ensures 0 < k <= |ws| && Filled(b, ws[..k]).chunks.Keys == Interval(n)
    ensures forall j :: 0 < j < k ==> Filled(b, ws[..j]).chunks.Keys != Interval(n)
    decreases |ws|
  {
    hide Interval, Filled;
    FilledNothing(b);
    if j :| 0 < j < |ws| && Filled(b, ws[..j]).chunks.Keys == Interval(n) {
      k := FirstFull(b, ws[..j], n);
      assert forall i :: 0 <= i <= k ==> ws[..j][..i] == ws[..i];
    } else {
      k := |ws|;
      assert ws[..k] == ws;
    }
  }

  lemma {:induction false} FilledNothing(b: Buffer)
    ensures Filled(b, []) == b
  {
  }

  lemma {:induction false} FirstComplete(s: State, key: nat, ws: seq<Write>, n: int, k: nat)
    requires Parts(ws, n) && 0 < k <= |ws|
    requires var b := BufferFor(s, key, n);
      && (forall j :: 0 < j < k ==> Filled(b, ws[..j]).chunks.Keys != Interval(n))
      && Filled(b, ws[..k]).chunks.Keys == Interval(n)
    ensures |Run(s, Sends(key, ws)).done| > |s.done|
  {
    hide Handle, BufferFor, Interval, Run, Assemble, Filled;
    var head := ws[..k];
    assert forall j :: 0 < j < k ==> head[..j] == ws[..j];
    ChunksAssembled(s, key, head, n);
    DoneGrows(s, key, ws, k);
  }

  lemma HandleGrows(s: State, key: nat, w: Write)
    ensures |Handle(s, key, w).done| >= |s.done|
  {
  }

  lemma {:induction false} DoneGrows(s: State, key: nat, ws: seq<Write>, k: nat)
    requires k <= |ws|
    ensures |Run(s, Sends(key, ws[..k])).done| <= |Run(s, Sends(key, ws)).done|
    decreases |ws|
  {
    hide Handle;
    if k < |ws| {
      var front := ws[..|ws| - 1];
      assert front[..k] == ws[..k];
      DoneGrows(s, key, front, k);
      RunLast(s, key, ws);
      HandleGrows(Run(s, Sends(key, front)), key, ws[|ws| - 1]);
    } else {
      assert ws[..k] == ws;
    }
  }

  // ---- the handler ----

  class ConfigCommands {
    var buffers: map<nat, Buffer>
    ghost var done: seq<Done>

    constructor ()
      ensures buffers == map[] && done == []
    {
      buffers := map[];
      done := [];
    }

    // The loop over the chunks of a buffer that has as many as it needs.
    static method AssembleAll(chunks: map<int, string>, total: int) returns (assembled: Option<string>)
      ensures assembled == (if forall i :: 1 <= i <= total ==> i in chunks
                            then Some(Assemble(chunks, if total > 0 then total else 0)) else None)
    {
      var text := "";
      var i := 1;
      while i <= total
        invariant 1 <= i && (i <= total + 1 || i == 1)
        invariant forall k :: 1 <= k < i ==> k in chunks
        invariant text == Assemble(chunks, i - 1)
      {
        if i !in chunks {
          return None;
        }
        text := text + chunks[i];
        i := i + 1;
      }
      assembled := Some(text);
    }

    // config_cmd_write_handler
    method WriteHandler(key: nat, w: Write)
      modifies this
      ensures State(buffers, done) == Handle(State(old(buffers), old(done)), key, w)
    {
      hide Assemble;
      match w {
        case Whole(c) => done := done + [Done(key, c)];
        case Malformed =>
        case Chunk(num, total, data) =>
          var buffer := Buffer(map[], total);
          if key in buffers && buffers[key].total == total {
            buffer := buffers[key];
          }
          buffer := Put(buffer, num, data);
          buffers := buffers[key := buffer];
          if |buffer.chunks| == total {
            var assembled := AssembleAll(buffer.chunks, total);
            if assembled.Some? {
              buffers := buffers - {key};
              done := done + [Done(key, assembled.value)];
              assert old(buffers)[key := buffer] - {key} == old(buffers) - {key};
            }
          }
      }
    }

    // Writes of any connections, as they come: each connection gets what its own
    // writes alone lead to.
    method Serve(ws: seq<Sent>)
      modifies this
      ensures State(buffers, done) == Run(State(old(buffers), old(done)), ws)
      ensures forall key :: OwnDone(done, key) == OwnDone(Run(State(old(buffers), old(done)), Own(ws, key)).done, key)
    {
      hide Handle;
      ghost var was := State(buffers, done);
      assert ws[..0] == [];
      for k := 0 to |ws|
        invariant State(buffers, done) == Run(was, ws[..k])
      {
        assert ws[..k + 1][..k] == ws[..k];
        WriteHandler(ws[k].key, ws[k].write);
      }
      assert ws[..|ws|] == ws;
      forall key
        ensures OwnDone(done, key) == OwnDone(Run(was, Own(ws, key)).done, key)
      {
        ConnectionsIndependent(was, ws, key);
      }
    }
  }
}
