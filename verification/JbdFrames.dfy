// _extract_jbd_frame of rotorsync_bumble.py: frames out of a byte stream that
// arrives in notifications cut anywhere.
module JbdFrames {
  import opened Octets

  const START: Octet := 0xDD
  const END: Octet := 0x77

  // buffer.find(b'\xDD'), from index i on; the length if there is none.
  function Find(buf: seq<Octet>, i: nat): (k: nat)
    requires i <= |buf|
    ensures i <= k <= |buf| && (k < |buf| ==> buf[k] == START) && forall j :: i <= j < k ==> buf[j] != START
    decreases |buf| - i
  {
    if i == |buf| || buf[i] == START then i else Find(buf, i + 1)
  }

  // Where the first candidate ends, if it is all there.
  function Complete(buf: seq<Octet>): (end: Option<nat>)
    ensures end.Some? ==> Find(buf, 0) + 7 <= end.value <= |buf|
  {
    var start := Find(buf, 0);
    if start == |buf| || |buf| - start < 7 then None
    else
      var end := start + 4 + buf[start + 3] + 3;
      if |buf| < end then None else Some(end)
  }

  // What the checks after cutting a candidate out ask of it.
  predicate Accepted(frame: seq<Octet>, expected: Option<Octet>) {
    |frame| >= 7 && frame[|frame| - 1] == END && (expected.Some? ==> frame[1] == expected.value)
  }

  // A well-formed frame: start, function, status, length, that many octets of
  // data, two of checksum and the end.
  predicate Shaped(frame: seq<Octet>, expected: Option<Octet>) {
    Accepted(frame, expected) && frame[0] == START && |frame| - 7 == frame[3]
  }

  // One call: the first accepted candidate, and the buffer left behind.
  function Extract(buf: seq<Octet>, expected: Option<Octet>): (r: (Option<seq<Octet>>, seq<Octet>))
    ensures r.0.Some? ==> Shaped(r.0.value, expected) && |r.1| < |buf|
    ensures |r.1| <= |buf|
    decreases |buf|
  {
    match Complete(buf)
    case None => (None, buf)
    case Some(end) =>
      var frame := buf[Find(buf, 0)..end];
      if Accepted(frame, expected) then (Some(frame), buf[end..]) else Extract(buf[end..], expected)
  }

  // Calls until one returns nothing: the frames, and what is left.
  function Drain(buf: seq<Octet>, expected: Option<Octet>): (r: (seq<seq<Octet>>, seq<Octet>))
    decreases |buf|
  {
    var (frame, rest) := Extract(buf, expected);
    if frame == None then ([], rest)
    else
      var more := Drain(rest, expected);
      ([frame.value] + more.0, more.1)
  }

  // The stream through the extractor, notification by notification.
  function Feed(left: seq<Octet>, chunks: seq<seq<Octet>>, expected: Option<Octet>): (r: (seq<seq<Octet>>, seq<Octet>))
    decreases |chunks|
  {
    if chunks == [] then ([], left)
    else
      var first := Drain(left + chunks[0], expected);
      var more := Feed(first.1, chunks[1..], expected);
      (first.0 + more.0, more.1)
  }

  function Joined(chunks: seq<seq<Octet>>): seq<Octet> {
    if chunks == [] then [] else chunks[0] + Joined(chunks[1..])
  }

  // ---- more octets change nothing already decided ----

  lemma {:induction false} FindPrefix(a: seq<Octet>, b: seq<Octet>, i: nat)
    requires i <= |a|
    ensures Find(a, i) < |a| ==> Find(a + b, i) == Find(a, i)
    decreases |a| - i
  {
    if i < |a| && a[i] != START {
      FindPrefix(a, b, i + 1);
    }
  }

  lemma {:induction false} CompletePrefix(a: seq<Octet>, b: seq<Octet>)
    requires Complete(a).Some?
    ensures Complete(a + b) == Complete(a) && Find(a + b, 0) == Find(a, 0)
  {
    FindPrefix(a, b, 0);
  }

  // One step of draining, candidate by candidate.
  lemma {:induction false} DrainStep(buf: seq<Octet>, expected: Option<Octet>)
    ensures match Complete(buf)
      case None => Drain(buf, expected) == ([], buf)
      case Some(end) =>
        var frame := buf[Find(buf, 0)..end]; var more := Drain(buf[end..], expected);
        Drain(buf, expected) == (if Accepted(frame, expected) then ([frame] + more.0, more.1) else more)
  {
  }

  lemma {:induction false} DrainCut(a: seq<Octet>, b: seq<Octet>, expected: Option<Octet>)
    ensures var first := Drain(a, expected); var more := Drain(first.1 + b, expected);
      Drain(a + b, expected) == (first.0 + more.0, more.1)
    decreases |a|
  {
    hide Drain, Complete, Accepted;
    DrainStep(a, expected);
    if Complete(a).Some? {
      var end := Complete(a).value;
      CompletePrefix(a, b);
      DrainStep(a + b, expected);
      assert (a + b)[end..] == a[end..] + b;
      assert (a + b)[Find(a, 0)..end] == a[Find(a, 0)..end];
      DrainCut(a[end..], b, expected);
      var frame := a[Find(a, 0)..end];
      var first := Drain(a[end..], expected);
      var more := Drain(first.1 + b, expected);
      assert [frame] + (first.0 + more.0) == [frame] + first.0 + more.0;
    } else {
      var more := Drain(a + b, expected);
      assert [] + more.0 == more.0;
    }
  }

  // Stream independence: however the stream is cut into notifications, the
  // frames are those of the whole stream, in the same order, and so is what is
  // left over.
  lemma {:induction false} CutsDoNotMatter(left: seq<Octet>, chunks: seq<seq<Octet>>, expected: Option<Octet>)
    requires Drain(left, expected) == ([], left)
    ensures Feed(left, chunks, expected) == Drain(left + Joined(chunks), expected)
    decreases |chunks|
  {
    hide Drain;
    if chunks == [] {
      assert left + [] == left;
    } else {
      var first := Drain(left + chunks[0], expected);
      DrainCut(left + chunks[0], Joined(chunks[1..]), expected);
      assert left + chunks[0] + Joined(chunks[1..]) == left + Joined(chunks);
      Drained(left + chunks[0], expected);
      CutsDoNotMatter(first.1, chunks[1..], expected);
    }
  }

  // The caller that waits for one frame: one call for each notification, until
  // the first that yields something.
  function FirstFrame(left: seq<Octet>, chunks: seq<seq<Octet>>, expected: Option<Octet>): Option<seq<Octet>>
    decreases |chunks|
  {
    if chunks == [] then None
    else
      var (frame, rest) := Extract(left + chunks[0], expected);
      if frame.Some? then frame else FirstFrame(rest, chunks[1..], expected)
  }

  // It gets the first frame of the whole stream, however that is cut.
  lemma {:induction false} CallerGetsFirstFrame(left: seq<Octet>, chunks: seq<seq<Octet>>, expected: Option<Octet>)
    requires Drain(left, expected) == ([], left)
    ensures var frames := Drain(left + Joined(chunks), expected).0;
      FirstFrame(left, chunks, expected) == if frames == [] then None else Some(frames[0])
    decreases |chunks|
  {
    hide Drain, Extract;
    if chunks == [] {
      assert left + [] == left;
    } else {
      var next := left + chunks[0];
      DrainOne(next, expected);
      DrainCut(next, Joined(chunks[1..]), expected);
      assert next + Joined(chunks[1..]) == left + Joined(chunks);
      Drained(next, expected);
      if Extract(next, expected).0 == None {
        CallerGetsFirstFrame(Extract(next, expected).1, chunks[1..], expected);
        var more := Drain(Extract(next, expected).1 + Joined(chunks[1..]), expected);
        assert [] + more.0 == more.0;
      }
    }
  }

  // What is left holds no complete candidate.
  lemma {:induction false} Drained(buf: seq<Octet>, expected: Option<Octet>)
    ensures var rest := Drain(buf, expected).1; Complete(rest) == None && Drain(rest, expected) == ([], rest)
    decreases |buf|
  {
    hide Drain, Complete, Accepted;
    DrainStep(buf, expected);
    if Complete(buf).Some? {
      Drained(buf[Complete(buf).value..], expected);
    }
  }

  // ---- the frames are pieces of the stream ----

  // The frames occur in buf, one after the other without overlap.
  ghost predicate Within(frames: seq<seq<Octet>>, buf: seq<Octet>)
    decreases |frames|
  {
    frames == [] || exists k: nat :: CutAt(frames[0], buf, k) && Within(frames[1..], buf[k + |frames[0]|..])
  }

  predicate CutAt(frame: seq<Octet>, buf: seq<Octet>, k: nat) {
    k + |frame| <= |buf| && buf[k..k + |frame|] == frame
  }

  lemma {:induction false} WithinLater(frames: seq<seq<Octet>>, buf: seq<Octet>, n: nat)
    requires n <= |buf| && Within(frames, buf[n..])
    ensures Within(frames, buf)
  {
    if frames != [] {
      var k: nat :| CutAt(frames[0], buf[n..], k) && Within(frames[1..], buf[n..][k + |frames[0]|..]);
      assert buf[n..][k..k + |frames[0]|] == buf[n + k..n + k + |frames[0]|];
      assert buf[n..][k + |frames[0]|..] == buf[n + k + |frames[0]|..];
      assert CutAt(frames[0], buf, n + k);
    }
  }

  // Every frame has the shape of one and the expected function, and is cut
  // from the stream, in order.
  lemma {:induction false} DrainSound(buf: seq<Octet>, expected: Option<Octet>)
    ensures var frames := Drain(buf, expected).0;
      && (forall i :: 0 <= i < |frames| ==> Shaped(frames[i], expected))
      && Within(frames, buf)
    decreases |buf|
  {
    hide Drain, Within;
    DrainStep(buf, expected);
    if Complete(buf).Some? {
      var end := Complete(buf).value;
      var frame := buf[Find(buf, 0)..end];
      DrainSound(buf[end..], expected);
      if Accepted(frame, expected) {
        assert CutAt(frame, buf, Find(buf, 0));
        WithinFirst(frame, Drain(buf[end..], expected).0, buf, Find(buf, 0));
      } else {
        WithinLater(Drain(buf[end..], expected).0, buf, end);
      }
    } else {
      WithinNothing(buf);
    }
  }

  lemma {:induction false} WithinFirst(frame: seq<Octet>, frames: seq<seq<Octet>>, buf: seq<Octet>, k: nat)
    requires CutAt(frame, buf, k) && Within(frames, buf[k + |frame|..])
    ensures Within([frame] + frames, buf)
  {
    var all := [frame] + frames;
    assert all[1..] == frames && all[0] == frame;
    assert CutAt(all[0], buf, k) && Within(all[1..], buf[k + |all[0]|..]);
  }

  lemma {:induction false} WithinNothing(buf: seq<Octet>)
    ensures Within([], buf)
  {
  }

  // ---- the extractor and its caller ----

  class Notifications {
    var buffer: seq<Octet>

    constructor ()
      ensures buffer == []
    {
      buffer := [];
    }

    // _extract_jbd_frame, on the buffer it deletes from.
    method ExtractFrame(expected: Option<Octet>) returns (frame: Option<seq<Octet>>)
      modifies this
      ensures (frame, buffer) == Extract(old(buffer), expected)
    {
      hide Extract, Find;
      ExtractStep(buffer, expected);
      var start := Find(buffer, 0);
      while start < |buffer|
        invariant start == Find(buffer, 0) && |buffer| <= |old(buffer)|
        invariant Extract(buffer, expected) == Extract(old(buffer), expected)
        decreases |buffer|
      {
        ExtractStep(buffer, expected);
        if |buffer| - start < 7 {
          return None;
        }
        var dataLen: nat := buffer[start + 3];
        var end := start + 4 + dataLen + 3;
        if |buffer| < end {
          return None;
        }
        var found := buffer[start..end];
        buffer := buffer[end..];
        if found[|found| - 1] != END {
          start := Find(buffer, 0);
          continue;
        }
        if expected.Some? && found[1] != expected.value {
          start := Find(buffer, 0);
          continue;
        }
        return Some(found);
      }
      ExtractStep(buffer, expected);
      frame := None;
    }

    // The notification callback, and calls until there is no more.
    method OnNotification(value: seq<Octet>, expected: Option<Octet>) returns (frames: seq<seq<Octet>>)
      modifies this
      ensures (frames, buffer) == Drain(old(buffer) + value, expected)
    {
      hide Drain, Extract;
      buffer := buffer + value;
      ghost var all := Drain(buffer, expected);
      frames := [];
      ghost var pending := all.0;
      DrainOne(buffer, expected);
      var frame := ExtractFrame(expected);
      assert [] + pending == pending;
      while frame.Some?
        invariant frames + pending == all.0
        invariant if frame == None then pending == [] && buffer == all.1
          else pending == [frame.value] + Drain(buffer, expected).0 && Drain(buffer, expected).1 == all.1
        decreases |buffer|, frame.Some?
      {
        assert frames + ([frame.value] + pending[1..]) == frames + [frame.value] + pending[1..];
        frames := frames + [frame.value];
        pending := pending[1..];
        DrainOne(buffer, expected);
        frame := ExtractFrame(expected);
      }
      assert frames + [] == frames;
    }

    // Any series of notifications, from an empty buffer: the frames are those
    // of the whole stream.
    method Serve(values: seq<seq<Octet>>, expected: Option<Octet>) returns (frames: seq<seq<Octet>>)
      requires buffer == []
      modifies this
      ensures (frames, buffer) == Drain(Joined(values), expected)
    {
      hide Drain;
      frames := [];
      assert values[0..] == values;
      ghost var all := Feed([], values, expected);
      assert [] + all.0 == all.0;
      for i := 0 to |values|
        invariant var rest := Feed(buffer, values[i..], expected); all == (frames + rest.0, rest.1)
      {
        assert values[i..][1..] == values[i + 1..];
        var more := OnNotification(values[i], expected);
        ghost var rest := Feed(buffer, values[i + 1..], expected);
        assert frames + (more + rest.0) == (frames + more) + rest.0;
        frames := frames + more;
      }
      assert values[|values|..] == [];
      assert frames + [] == frames;
      DrainNothing(expected);
      CutsDoNotMatter([], values, expected);
      assert [] + Joined(values) == Joined(values);
    }
  }

  lemma DrainNothing(expected: Option<Octet>)
    ensures Drain([], expected) == ([], [])
  {
    DrainStep([], expected);
  }

  // Draining, call by call; what a call without a frame leaves stays.
  lemma {:induction false} DrainOne(buf: seq<Octet>, expected: Option<Octet>)
    ensures var (frame, rest) := Extract(buf, expected);
      && (frame == None ==> Drain(buf, expected) == ([], rest))
      && (frame.Some? ==> |rest| < |buf| && Drain(buf, expected) == ([frame.value] + Drain(rest, expected).0, Drain(rest, expected).1))
  {
  }

  // One round of the loop.
  lemma {:induction false} ExtractStep(buf: seq<Octet>, expected: Option<Octet>)
    ensures match Complete(buf)
      case None => Extract(buf, expected) == (None, buf)
      case Some(end) =>
        var frame := buf[Find(buf, 0)..end];
        Extract(buf, expected) == if Accepted(frame, expected) then (Some(frame), buf[end..]) else Extract(buf[end..], expected)
  {
    hide Find, Accepted, Complete;
  }
}
