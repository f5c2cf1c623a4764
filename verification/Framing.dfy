/** The worker's stdio framing: `read_bounded_line` and the newline `write_frame` adds
    (`apps/hermesd/src/adapters/codex/mod.rs:366-382`, `429-450`). */
module Framing {
  import opened Basics

  type byte = x: int | 0 <= x < 256

  const NEWLINE: byte := 10
  const MAX_FRAME_BYTES: nat := 8 * 1024 * 1024

  datatype FrameError = FrameTooLarge

  // ---- What a line is ----------------------------------------------------------------

  /** Where the first line of `bytes` stops: at the first newline, or at the end. */
  function LineEnd(bytes: seq<byte>): (n: nat)
    ensures n <= |bytes|
    ensures forall i :: 0 <= i < n ==> bytes[i] != NEWLINE
    ensures n < |bytes| ==> bytes[n] == NEWLINE
  {
    if bytes == [] || bytes[0] == NEWLINE then 0 else 1 + LineEnd(bytes[1..])
  }

  /** The properties above determine the end of the line. */
  lemma {:induction false} LineEndIs(bytes: seq<byte>, n: nat)
    requires n <= |bytes| && OneLine(bytes[..n])
    requires n < |bytes| ==> bytes[n] == NEWLINE
    ensures LineEnd(bytes) == n
  {
    if n > 0 {
      assert bytes[..n][0] != NEWLINE;
      assert bytes[1..][..n - 1] == bytes[..n][1..];
      LineEndIs(bytes[1..], n - 1);
    }
  }

  lemma {:induction false} LineEndAtLeast(bytes: seq<byte>, n: nat)
    requires n <= |bytes| && OneLine(bytes[..n])
    ensures n <= LineEnd(bytes)
  {
    if n > 0 {
      assert bytes[..n][0] != NEWLINE;
      assert bytes[1..][..n - 1] == bytes[..n][1..];
      LineEndAtLeast(bytes[1..], n - 1);
    }
  }

  function AfterLine(bytes: seq<byte>): seq<byte> {
    if LineEnd(bytes) == |bytes| then [] else bytes[LineEnd(bytes) + 1..]
  }

  /** The newline split of a stream; a final line need not be terminated. */
  function Lines(bytes: seq<byte>): seq<seq<byte>>
    decreases |bytes|
  {
    if bytes == [] then [] else [bytes[..LineEnd(bytes)]] + Lines(AfterLine(bytes))
  }

  function Framed(frames: seq<seq<byte>>): seq<byte> {
    if frames == [] then [] else frames[0] + [NEWLINE] + Framed(frames[1..])
  }

  predicate OneLine(frame: seq<byte>) {
    forall i :: 0 <= i < |frame| ==> frame[i] != NEWLINE
  }

  /** Frames without newlines, written one per line, split back into exactly those frames. */
  lemma {:induction false} FramesReadBack(frames: seq<seq<byte>>)
    requires forall i :: 0 <= i < |frames| ==> OneLine(frames[i])
    ensures Lines(Framed(frames)) == frames
  {
    if frames != [] {
      var first, rest := frames[0], Framed(frames[1..]);
      var bytes := first + [NEWLINE] + rest;
      assert Framed(frames) == bytes;
      assert OneLine(first);
      LineEndIs(bytes, |first|);
      assert bytes[..|first|] == first;
      assert bytes[|first| + 1..] == rest;
      FramesReadBack(frames[1..]);
    }
  }

  /** The stream that the lines stand for: `bytes`, with its last line terminated. */
  function Terminated(bytes: seq<byte>): seq<byte> {
    if bytes == [] || bytes[|bytes| - 1] == NEWLINE then bytes else bytes + [NEWLINE]
  }

  lemma SplitBytes(bytes: seq<byte>, n: nat)
    requires n < |bytes| && bytes[n] == NEWLINE
    ensures bytes == bytes[..n] + [NEWLINE] + bytes[n + 1..]
  {
  }

  lemma TerminatedTail(head: seq<byte>, tail: seq<byte>)
    ensures Terminated(head + [NEWLINE] + tail) == head + [NEWLINE] + Terminated(tail)
  {
    var bytes := head + [NEWLINE] + tail;
    if tail == [] {
      assert bytes == head + [NEWLINE];
    } else {
      assert bytes[|bytes| - 1] == tail[|tail| - 1];
      assert bytes + [NEWLINE] == head + [NEWLINE] + (tail + [NEWLINE]);
    }
  }

  lemma LastLine(bytes: seq<byte>)
    requires bytes != [] && LineEnd(bytes) == |bytes|
    ensures Terminated(bytes) == bytes + [NEWLINE] && bytes[..|bytes|] == bytes && AfterLine(bytes) == []
  {
    assert bytes[|bytes| - 1] != NEWLINE;
  }

  /** The stream is its first line, a newline, and what follows. */
  lemma FirstLineSplitsOff(bytes: seq<byte>)
    requires bytes != []
    ensures Terminated(bytes) == bytes[..LineEnd(bytes)] + [NEWLINE] + Terminated(AfterLine(bytes))
  {
    var n := LineEnd(bytes);
    if n < |bytes| {
      SplitBytes(bytes, n);
      TerminatedTail(bytes[..n], bytes[n + 1..]);
    } else {
      LastLine(bytes);
      assert bytes + [NEWLINE] + [] == bytes + [NEWLINE];
    }
  }

  lemma FirstLineIsOne(bytes: seq<byte>)
    ensures OneLine(bytes[..LineEnd(bytes)])
  {
  }

  /** Splitting loses nothing: the lines, each terminated again, are the stream; and no line
      contains a newline. */
  lemma {:induction false} SplitIsLossless(bytes: seq<byte>)
    ensures Framed(Lines(bytes)) == Terminated(bytes)
    ensures forall line :: line in Lines(bytes) ==> OneLine(line)
    decreases |bytes|
  {
    if bytes != [] {
      FirstLineSplitsOff(bytes);
      FirstLineIsOne(bytes);
      SplitIsLossless(AfterLine(bytes));
      assert Lines(bytes)[1..] == Lines(AfterLine(bytes));
    }
  }

  // ---- Reading from a pipe -----------------------------------------------------------

  /** A buffered pipe: the chunks the operating system has yet to hand over, none of them
      empty; an empty buffer means end of file. */
  class Pipe {
    var chunks: seq<seq<byte>>

    ghost predicate Valid()
      reads this
    {
      forall i :: 0 <= i < |chunks| ==> chunks[i] != []
    }

    ghost function Stream(): seq<byte>
      reads this
    {
      Flatten(chunks)
    }

    method FillBuf() returns (available: seq<byte>)
      requires Valid()
      ensures available == [] <==> Stream() == []
      ensures available <= Stream()
      ensures available != [] ==> chunks != [] && available == chunks[0]
    {
      if chunks == [] { return []; }
      return chunks[0];
    }

    method Consume(n: nat)
      requires Valid() && chunks != [] && n <= |chunks[0]|
      modifies this
      ensures Valid() && n <= |old(Stream())| && Stream() == old(Stream())[n..]
    {
      var rest := chunks[0][n..];
      assert Stream() == chunks[0] + Flatten(chunks[1..]);
      chunks := if rest == [] then chunks[1..] else [rest] + chunks[1..];
      assert rest != [] ==> chunks[1..] == old(chunks)[1..];
    }
  }

  /** `iter().position`: the first newline of the buffer. */
  method Position(available: seq<byte>) returns (newline: Option<nat>)
    ensures Found(available, newline)
  {
    for i := 0 to |available|
      invariant OneLine(available[..i])
    {
      if available[i] == NEWLINE { return Some(i); }
    }
    assert available[..|available|] == available;
    return None;
  }

  function Content(available: seq<byte>, newline: Option<nat>): seq<byte>
    requires newline.Some? ==> newline.value <= |available|
  {
    if newline.Some? then available[..newline.value] else available
  }

  ghost predicate Found(available: seq<byte>, newline: Option<nat>) {
    match newline
    case None => OneLine(available)
    case Some(n) => n < |available| && available[n] == NEWLINE && OneLine(available[..n])
  }

  /** Without a newline in sight the line is at least this long. */
  lemma LineGrows(whole: seq<byte>, line: seq<byte>, rest: seq<byte>, available: seq<byte>)
    requires whole == line + rest && OneLine(line) && available <= rest && OneLine(available)
    ensures OneLine(line + available) && |line + available| <= LineEnd(whole)
    ensures whole == (line + available) + rest[|available|..]
  {
    var grown := line + available;
    assert rest == available + rest[|available|..];
    assert whole[..|grown|] == grown;
    LineEndAtLeast(whole, |grown|);
  }

  lemma SplitAt(whole: seq<byte>, head: seq<byte>, tail: seq<byte>)
    requires whole == head + [NEWLINE] + tail && OneLine(head)
    ensures LineEnd(whole) == |head| < |whole| && whole[..|head|] == head && AfterLine(whole) == tail
  {
    assert whole[..|head|] == head;
    LineEndIs(whole, |head|);
    assert whole[|head| + 1..] == tail;
  }

  lemma Regroup(line: seq<byte>, head: seq<byte>, tail: seq<byte>)
    ensures line + (head + [NEWLINE] + tail) == (line + head) + [NEWLINE] + tail
  {
  }

  lemma PrefixAgrees(rest: seq<byte>, available: seq<byte>, n: nat)
    requires available <= rest && n < |available|
    ensures rest[..n] == available[..n] && rest[n] == available[n]
  {
  }

  /** The newline ends the line. */
  lemma LineStops(whole: seq<byte>, line: seq<byte>, rest: seq<byte>, available: seq<byte>, n: nat)
    requires whole == line + rest && OneLine(line) && available <= rest && Found(available, Some(n))
    ensures LineEnd(whole) == |line| + n < |whole|
    ensures whole[..LineEnd(whole)] == line + available[..n]
    ensures AfterLine(whole) == rest[n + 1..]
  {
    PrefixAgrees(rest, available, n);
    SplitBytes(rest, n);
    Regroup(line, available[..n], rest[n + 1..]);
    SplitAt(whole, line + available[..n], rest[n + 1..]);
  }

  /** The end of the stream ends the line. */
  lemma LineIsLast(line: seq<byte>)
    requires OneLine(line)
    ensures LineEnd(line) == |line| && line[..|line|] == line && AfterLine(line) == []
  {
    assert line[..|line|] == line;
    LineEndIs(line, |line|);
  }

  /** What reading one line off `whole` returns and leaves behind. */
  ghost predicate ReadsLine(whole: seq<byte>, r: Result<Option<seq<byte>>, FrameError>, rest: seq<byte>) {
    if whole == [] then r == Ok(None) && rest == []
    else if MAX_FRAME_BYTES < LineEnd(whole) then r == Err(FrameTooLarge)
    else r == Ok(Some(whole[..LineEnd(whole)])) && rest == AfterLine(whole)
  }

  /** `read_bounded_line`: the result depends on the stream alone, not on how it is chunked,
      and reading fails exactly when the next line exceeds the bound. */
  method ReadBoundedLine(pipe: Pipe) returns (r: Result<Option<seq<byte>>, FrameError>)
    requires pipe.Valid()
    modifies pipe
    ensures pipe.Valid() && ReadsLine(old(pipe.Stream()), r, pipe.Stream())
  {
    var line: seq<byte> := [];
    ghost var whole, rest := pipe.Stream(), pipe.Stream();
    assert whole == line + rest;
    while true
      invariant pipe.Valid() && rest == pipe.Stream()
      invariant whole == line + rest && OneLine(line) && |line| <= MAX_FRAME_BYTES
      decreases |rest|
    {
      var available := pipe.FillBuf();
      if available == [] {
        assert line == whole;
        LineIsLast(line);
        return Ok(if line == [] then None else Some(line));
      }
      var newline := Position(available);
      if newline.Some? {
        LineStops(whole, line, rest, available, newline.value);
      } else {
        LineGrows(whole, line, rest, available);
      }
      if |line| + |Content(available, newline)| > MAX_FRAME_BYTES {
        return Err(FrameTooLarge);
      }
      line := line + Content(available, newline);
      if newline.Some? {
        pipe.Consume(newline.value + 1);
        return Ok(Some(line));
      }
      pipe.Consume(|available|);
      rest := pipe.Stream();
    }
  }

  lemma LinesStep(rest: seq<byte>)
    requires rest != []
    ensures Lines(rest) == [rest[..LineEnd(rest)]] + Lines(AfterLine(rest))
  {
  }

  /** Reading until the end or a failure yields the newline split of the whole stream, cut off
      at the first line that is too long. */
  method ReadFrames(pipe: Pipe) returns (frames: seq<seq<byte>>, r: Result<(), FrameError>)
    requires pipe.Valid()
    modifies pipe
    ensures frames <= Lines(old(pipe.Stream()))
    ensures forall i :: 0 <= i < |frames| ==> |frames[i]| <= MAX_FRAME_BYTES
    ensures r.Ok? ==> frames == Lines(old(pipe.Stream()))
    ensures r.Err? ==> |frames| < |Lines(old(pipe.Stream()))| && MAX_FRAME_BYTES < |Lines(old(pipe.Stream()))[|frames|]|
  {
    frames := [];
    ghost var lines, rest := Lines(pipe.Stream()), pipe.Stream();
    while true
      invariant pipe.Valid() && rest == pipe.Stream()
      invariant lines == frames + Lines(rest)
      invariant forall i :: 0 <= i < |frames| ==> |frames[i]| <= MAX_FRAME_BYTES
      decreases |rest|
    {
      var line := ReadBoundedLine(pipe);
      if rest != [] { LinesStep(rest); }
      if line.Err? {
        return frames, Err(line.error);
      }
      if line.value.None? {
        return frames, Ok(());
      }
      frames := frames + [line.value.value];
      rest := pipe.Stream();
    }
  }
}
