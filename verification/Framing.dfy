/** Newline-delimited messages on a byte stream: what is read does not depend on how the
    stream arrives. */
module Framing {
  import opened Wrappers

  type Byte = b: int | 0 <= b < 256

  const NEWLINE: Byte := 10
  const MAX_MESSAGE_BYTES: nat := 8 * 1024 * 1024

  datatype Failure = Unterminated | TooLong

  function Concat(chunks: seq<seq<Byte>>): seq<Byte>
  {
    if chunks == [] then [] else chunks[0] + Concat(chunks[1..])
  }

  /** The first newline, or the end. */
  function LineEnd(s: seq<Byte>): (k: nat)
    ensures k <= |s| && (k < |s| ==> s[k] == NEWLINE) && NEWLINE !in s[..k]
  {
    if s == [] || s[0] == NEWLINE then 0
    else
      var k := 1 + LineEnd(s[1..]);
      assert s[..k] == [s[0]] + s[1..][..k - 1];
      k
  }

  lemma LineEndIs(s: seq<Byte>, k: nat)
    requires k <= |s| && NEWLINE !in s[..k] && (k < |s| ==> s[k] == NEWLINE)
    ensures LineEnd(s) == k
  {
    var e := LineEnd(s);
    forall j | 0 <= j < k ensures s[j] != NEWLINE {
      assert s[..k][j] == s[j];
    }
    forall j | 0 <= j < e ensures s[j] != NEWLINE {
      assert s[..e][j] == s[j];
    }
  }

  // ---- One message ----

  /** What a read of the whole stream `s` means, whatever its chunks. */
  datatype Reading = Message(frame: seq<Byte>, rest: seq<Byte>) | Finished | Failed(failure: Failure)

  function Read(s: seq<Byte>): Reading
  {
    var k := LineEnd(s);
    if s == [] then Finished
    else if k < |s| && k < MAX_MESSAGE_BYTES then Message(s[..k + 1], s[k + 1..])
    else if k < MAX_MESSAGE_BYTES then Failed(Unterminated)
    else Failed(TooLong)
  }

  /** A buffered stream: `fill` shows the next nonempty chunk, and nothing at the end. */
  class Input {
    var chunks: seq<seq<Byte>>

    ghost predicate Valid()
      reads this
    {
      forall i :: 0 <= i < |chunks| ==> chunks[i] != []
    }

    ghost function Pending(): seq<Byte>
      reads this
    {
      Concat(chunks)
    }

    method Fill() returns (available: seq<Byte>)
      requires Valid()
      ensures available <= Pending() && (available == [] <==> Pending() == [])
      ensures available == if chunks == [] then [] else chunks[0]
    {
      available := if chunks == [] then [] else chunks[0];
    }

    method Consume(n: nat)
      requires Valid() && 0 < n && chunks != [] && n <= |chunks[0]|
      modifies this
      ensures Valid() && old(Pending()) == old(chunks[0])[..n] + Pending()
    {
      ghost var first, others := chunks[0], chunks[1..];
      assert first == first[..n] + first[n..];
      if n == |chunks[0]| {
        chunks := chunks[1..];
      } else {
        chunks := [chunks[0][n..]] + chunks[1..];
        assert chunks[1..] == others;
      }
    }

    /** Takes the next chunk, up to the end of the line; `None` when the line goes on. */
    method Advance(frame: seq<Byte>, ghost whole: seq<Byte>)
      returns (r: Option<Result<bool, Failure>>, frame': seq<Byte>)
      requires Valid() && Unfinished(frame, Pending(), whole)
      modifies this
      ensures Valid() && |frame'| <= MAX_MESSAGE_BYTES
      ensures r.None? ==> Unfinished(frame', Pending(), whole) && |Pending()| < |old(Pending())|
      ensures r.Some? ==> Agrees(Read(whole), r.value, frame', Pending())
    {
      var available := Fill();
      ghost var pending := Pending();
      if available == [] {
        AtEnd(frame, whole);
        return Some(if frame == [] then Ok(false) else Err(Unterminated)), frame;
      }
      var k := LineEnd(available);
      var consumed := if k < |available| then k + 1 else |available|;
      NextChunk(frame, pending, available, whole, consumed);
      if consumed > MAX_MESSAGE_BYTES - |frame| {
        return Some(Err(TooLong)), frame;
      }
      frame' := frame + available[..consumed];
      Consume(consumed);
      Shifted(frame, available[..consumed], Pending(), pending, whole);
      if k < |available| {
        return Some(Ok(true)), frame';
      }
      r := if |frame'| == MAX_MESSAGE_BYTES then Some(Err(TooLong)) else None;
    }

    /** Reads one message into a frame that never holds more than the limit. */
    method ReadFrame() returns (r: Result<bool, Failure>, frame: seq<Byte>)
      requires Valid()
      modifies this
      ensures Valid() && |frame| <= MAX_MESSAGE_BYTES
      ensures Agrees(Read(old(Pending())), r, frame, Pending())
    {
      ghost var whole := Pending();
      frame := [];
      while true
        invariant Valid() && Unfinished(frame, Pending(), whole)
        decreases |Pending()|
      {
        var status;
        status, frame := Advance(frame, whole);
        if status.Some? {
          return status.value, frame;
        }
      }
    }
  }

  /** Part of a line has been read into `frame`, and there is room for more. */
  ghost predicate Unfinished(frame: seq<Byte>, pending: seq<Byte>, whole: seq<Byte>)
  {
    frame + pending == whole && NEWLINE !in frame && |frame| < MAX_MESSAGE_BYTES
  }

  ghost predicate Agrees(reading: Reading, r: Result<bool, Failure>, frame: seq<Byte>, left: seq<Byte>)
  {
    match reading
    case Message(line, rest) => r == Ok(true) && frame == line && left == rest
    case Finished => r == Ok(false) && frame == [] && left == []
    case Failed(failure) => r == Err(failure)
  }

  lemma Shifted(frame: seq<Byte>, taken: seq<Byte>, left: seq<Byte>, pending: seq<Byte>, whole: seq<Byte>)
    requires frame + pending == whole && pending == taken + left
    ensures frame + taken + left == whole && left == pending[|taken|..]
  {
  }

  lemma AtEnd(frame: seq<Byte>, whole: seq<Byte>)
    requires frame == whole && NEWLINE !in frame && |frame| < MAX_MESSAGE_BYTES
    ensures Read(whole) == if frame == [] then Finished else Failed(Unterminated)
  {
    assert whole[..|whole|] == whole;
    LineEndIs(whole, |whole|);
  }

  /** A newline in the next chunk ends the line; without one the line goes on past it. */
  lemma InLine(frame: seq<Byte>, pending: seq<Byte>, available: seq<Byte>, whole: seq<Byte>)
    requires frame + pending == whole && NEWLINE !in frame && available <= pending
    ensures var k := LineEnd(available);
      if k < |available| then LineEnd(whole) == |frame| + k && whole[..|frame| + k + 1] == frame + available[..k + 1]
      else LineEnd(whole) >= |frame| + |available| && NEWLINE !in frame + available
  {
    var k := LineEnd(available);
    if k < |available| {
      assert whole[..|frame| + k] == frame + available[..k];
      assert whole[|frame| + k] == available[k];
      LineEndIs(whole, |frame| + k);
    } else {
      assert available[..k] == available;
      assert frame + available == whole[..|frame| + |available|];
      forall j | 0 <= j < |frame| + |available| ensures whole[j] != NEWLINE {
        assert (frame + available)[j] == whole[j];
      }
    }
  }

  /** What the next chunk decides about the line that `frame` began. */
  lemma NextChunk(frame: seq<Byte>, pending: seq<Byte>, available: seq<Byte>, whole: seq<Byte>, n: nat)
    requires Unfinished(frame, pending, whole) && available <= pending && available != []
    requires n == if LineEnd(available) < |available| then LineEnd(available) + 1 else |available|
    ensures |frame| + n > MAX_MESSAGE_BYTES ==> Read(whole) == Failed(TooLong)
    ensures |frame| + n <= MAX_MESSAGE_BYTES && LineEnd(available) < |available| ==>
      Read(whole) == Message(frame + available[..n], pending[n..])
    ensures LineEnd(available) == |available| ==> NEWLINE !in frame + available[..n]
    ensures LineEnd(available) == |available| && |frame| + n == MAX_MESSAGE_BYTES ==> Read(whole) == Failed(TooLong)
  {
    assert whole != [];
    if LineEnd(available) < |available| {
      EndsHere(frame, pending, available, whole);
    } else {
      GoesOn(frame, pending, available, whole);
      assert available[..n] == available;
    }
  }

  lemma EndsHere(frame: seq<Byte>, pending: seq<Byte>, available: seq<Byte>, whole: seq<Byte>)
    requires Unfinished(frame, pending, whole) && available <= pending && LineEnd(available) < |available|
    ensures var n := LineEnd(available) + 1;
      Read(whole) == if |frame| + n > MAX_MESSAGE_BYTES then Failed(TooLong)
        else Message(frame + available[..n], pending[n..])
  {
    InLine(frame, pending, available, whole);
    var n := LineEnd(available) + 1;
    assert pending == available[..n] + pending[n..];
    Shifted(frame, available[..n], pending[n..], pending, whole);
    ReadLine(whole, frame + available[..n], pending[n..]);
  }

  lemma ReadLine(whole: seq<Byte>, line: seq<Byte>, rest: seq<Byte>)
    requires whole == line + rest && |line| == LineEnd(whole) + 1
    ensures Read(whole) == if |line| > MAX_MESSAGE_BYTES then Failed(TooLong) else Message(line, rest)
  {
    assert whole[..|line|] == line && whole[|line|..] == rest;
  }

  lemma GoesOn(frame: seq<Byte>, pending: seq<Byte>, available: seq<Byte>, whole: seq<Byte>)
    requires Unfinished(frame, pending, whole) && available <= pending && LineEnd(available) == |available|
    requires whole != []
    ensures NEWLINE !in frame + available
    ensures |frame| + |available| >= MAX_MESSAGE_BYTES ==> Read(whole) == Failed(TooLong)
  {
    InLine(frame, pending, available, whole);
  }

  // ---- A session ----

  /** The messages of a stream, and how it ends. */
  function Messages(s: seq<Byte>): (seq<seq<Byte>>, Option<Failure>)
    decreases |s|
  {
    match Read(s)
    case Message(frame, rest) => var (frames, failure) := Messages(rest); ([frame] + frames, failure)
    case Finished => ([], None)
    case Failed(failure) => ([], Some(failure))
  }

  /** Reads to the end of the session; only the bytes matter, not their chunks. */
  method ReadAll(input: Input) returns (frames: seq<seq<Byte>>, failure: Option<Failure>)
    requires input.Valid()
    modifies input
    ensures (frames, failure) == Messages(old(input.Pending()))
  {
    ghost var whole := input.Pending();
    frames := [];
    while true
      invariant input.Valid()
      invariant ReadSoFar(whole, frames, input.Pending())
      decreases |input.Pending()|
    {
      ghost var before := input.Pending();
      var r, frame := input.ReadFrame();
      SessionStep(whole, frames, before, r, frame, input.Pending());
      match r {
        case Err(f) => return frames, Some(f);
        case Ok(false) => return frames, None;
        case Ok(true) => frames := frames + [frame];
      }
    }
  }

  ghost predicate ReadSoFar(whole: seq<Byte>, frames: seq<seq<Byte>>, pending: seq<Byte>)
  {
    Messages(whole).0 == frames + Messages(pending).0 && Messages(whole).1 == Messages(pending).1
  }

  lemma SessionStep(whole: seq<Byte>, frames: seq<seq<Byte>>, before: seq<Byte>, r: Result<bool, Failure>,
                    frame: seq<Byte>, left: seq<Byte>)
    requires ReadSoFar(whole, frames, before) && Agrees(Read(before), r, frame, left)
    ensures match r
      case Err(f) => Messages(whole) == (frames, Some(f))
      case Ok(false) => Messages(whole) == (frames, None)
      case Ok(true) => ReadSoFar(whole, frames + [frame], left) && |left| < |before|
  {
    match r
    case Err(_) => assert frames + [] == frames;
    case Ok(false) => assert frames + [] == frames;
    case Ok(true) => assert frames + ([frame] + Messages(left).0) == frames + [frame] + Messages(left).0;
  }

  /** A line of at most 8 MiB, up to and including its line feed. */
  ghost predicate Line(s: seq<Byte>)
  {
    0 < |s| <= 8_388_608 && s[|s| - 1] == 10 && 10 !in s[..|s| - 1]
  }

  /** The messages are the leading lines within the limit, in order and without loss; what
      follows them is nothing, a line beyond the limit, or a line that never ends. */
  lemma {:induction false} MessagesAreLeadingLines(s: seq<Byte>) returns (rest: seq<Byte>)
    ensures Concat(Messages(s).0) + rest == s && forall i :: 0 <= i < |Messages(s).0| ==> Line(Messages(s).0[i])
    ensures Remainder(rest, Messages(s).1)
    decreases |s|
  {
    match Read(s)
    case Message(frame, tail) =>
      rest := MessagesAreLeadingLines(tail);
      FirstLine(s);
      FirstMessage(s, rest);
    case Finished => rest := [];
    case Failed(_) =>
      rest := s;
      NoLine(s);
  }

  lemma FirstMessage(s: seq<Byte>, rest: seq<Byte>)
    requires Read(s).Message? && Concat(Messages(Read(s).rest).0) + rest == Read(s).rest
    requires s == Read(s).frame + Read(s).rest
    ensures Messages(s) == ([Read(s).frame] + Messages(Read(s).rest).0, Messages(Read(s).rest).1)
    ensures Concat(Messages(s).0) + rest == s
  {
    ConcatNext(Read(s).frame, Messages(Read(s).rest).0, rest);
  }

  lemma ConcatNext(frame: seq<Byte>, frames: seq<seq<Byte>>, rest: seq<Byte>)
    ensures Concat([frame] + frames) + rest == frame + (Concat(frames) + rest)
  {
    assert ([frame] + frames)[1..] == frames;
  }

  /** What stands after the last message. */
  ghost predicate Remainder(rest: seq<Byte>, failure: Option<Failure>)
  {
    match failure
    case None => rest == []
    case Some(Unterminated) => 0 < |rest| < 8_388_608 && 10 !in rest
    case Some(TooLong) => |rest| >= 8_388_608 && 10 !in rest[..8_388_608]
  }

  lemma FirstLine(s: seq<Byte>)
    requires Read(s).Message?
    ensures s == Read(s).frame + Read(s).rest && Line(Read(s).frame)
  {
    assert Read(s).frame[..|Read(s).frame| - 1] == s[..LineEnd(s)];
  }

  lemma NoLine(s: seq<Byte>)
    requires Read(s).Failed?
    ensures Remainder(s, Some(Read(s).failure))
  {
    assert s[..|s|] == s;
    if LineEnd(s) >= MAX_MESSAGE_BYTES {
      assert s[..MAX_MESSAGE_BYTES] == s[..LineEnd(s)][..MAX_MESSAGE_BYTES];
    }
  }
}
