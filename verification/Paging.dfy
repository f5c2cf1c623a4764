/** `read_file` pagination (`apps/hermesd/src/adapters/local_tools.rs:169-221`, `420-429`) over
    the bytes of a UTF-8 file that has already been found and read. */
module Paging {
  import opened Basics
  import opened Framing

  const CARRIAGE_RETURN: byte := 13
  const MAX_READ_LINES: nat := 2_000
  const MAX_READ_BYTES: nat := 10 * 1024 * 1024
  const MAX_RESULT_CHARS: nat := 100_000
  const MAX_RENDERED_LINE_BYTES: nat := 4_000

  function Ascii(text: string): (bytes: seq<byte>)
    ensures |bytes| == |text|
  {
    seq(|text|, i requires 0 <= i < |text| => (text[i] as int) % 256)
  }

  /** The ellipsis in UTF-8, then " [line truncated]". */
  const TRUNCATION_MARK: seq<byte> := [0xE2, 0x80, 0xA6] + Ascii(" [line truncated]")

  // ---- Lines -------------------------------------------------------------------------

  /** A line without its terminator; a carriage return before the newline belongs to it. */
  function Chopped(bytes: seq<byte>): seq<byte> {
    var n := LineEnd(bytes);
    if 0 < n < |bytes| && bytes[n - 1] == CARRIAGE_RETURN then bytes[..n - 1] else bytes[..n]
  }

  /** `str::lines`. */
  function TextLines(bytes: seq<byte>): (lines: seq<seq<byte>>)
    ensures |lines| <= |bytes|
    decreases |bytes|
  {
    if bytes == [] then [] else [Chopped(bytes)] + TextLines(AfterLine(bytes))
  }

  /** The lines with what ends each of them. */
  function Joined(lines: seq<seq<byte>>, ends: seq<seq<byte>>): seq<byte>
    requires |ends| == |lines|
  {
    if lines == [] then [] else lines[0] + ends[0] + Joined(lines[1..], ends[1..])
  }

  /** A line holds no newline. It ends with a newline, alone or behind a carriage return that is then
      not the line's; only the last line, if it is not empty, may end with the text. */
  predicate EndsLine(line: seq<byte>, end: seq<byte>, last: bool) {
    && OneLine(line)
    && match |end|
       case 0 => last && line != []
       case 1 => end == [NEWLINE] && (line != [] ==> line[|line| - 1] != CARRIAGE_RETURN)
       case _ => end == [CARRIAGE_RETURN, NEWLINE]
  }

  ghost predicate Splits(bytes: seq<byte>, lines: seq<seq<byte>>, ends: seq<seq<byte>>) {
    && |ends| == |lines| && bytes == Joined(lines, ends)
    && forall i :: 0 <= i < |lines| ==> EndsLine(lines[i], ends[i], i == |lines| - 1)
  }

  lemma FirstLineIs(bytes: seq<byte>, line: seq<byte>, end: seq<byte>, rest: seq<byte>)
    requires bytes == line + end + rest && bytes != [] && EndsLine(line, end, rest == [])
    ensures Chopped(bytes) == line && AfterLine(bytes) == rest
  {
    var n := if |end| == 2 then |line| + 1 else |line|;
    assert bytes[..|line|] == line && bytes[|line| + |end|..] == rest;
    assert OneLine(bytes[..n]) by {
      forall i | 0 <= i < n ensures bytes[..n][i] != NEWLINE { assert i < |line| ==> bytes[i] == line[i]; }
    }
    LineEndIs(bytes, n);
  }

  lemma JoinedIsShortOfNothing(lines: seq<seq<byte>>, ends: seq<seq<byte>>)
    requires |ends| == |lines| && forall i :: 0 <= i < |lines| ==> EndsLine(lines[i], ends[i], i == |lines| - 1)
    ensures Joined(lines, ends) == [] <==> lines == []
  {
    if lines != [] { assert EndsLine(lines[0], ends[0], 0 == |lines| - 1); }
  }

  /** What ends the first line. */
  function Terminator(bytes: seq<byte>): seq<byte> {
    var n := LineEnd(bytes);
    if n == |bytes| then []
    else if 0 < n && bytes[n - 1] == CARRIAGE_RETURN then [CARRIAGE_RETURN, NEWLINE]
    else [NEWLINE]
  }

  lemma FirstLineEnds(bytes: seq<byte>)
    requires bytes != []
    ensures bytes == Chopped(bytes) + Terminator(bytes) + AfterLine(bytes)
    ensures EndsLine(Chopped(bytes), Terminator(bytes), AfterLine(bytes) == [])
  {
  }

  /** The lines of a text, each with its terminator, rebuild the text. */
  lemma {:induction false} LinesRebuild(bytes: seq<byte>) returns (ends: seq<seq<byte>>)
    ensures Splits(bytes, TextLines(bytes), ends)
    decreases |bytes|
  {
    if bytes == [] {
      ends := [];
    } else {
      var more := LinesRebuild(AfterLine(bytes));
      ends := [Terminator(bytes)] + more;
      FirstLineEnds(bytes);
      assert TextLines(bytes)[1..] == TextLines(AfterLine(bytes)) && ends[1..] == more;
      forall i | 0 <= i < |ends| ensures EndsLine(TextLines(bytes)[i], ends[i], i == |ends| - 1) {
        if i > 0 { assert EndsLine(TextLines(AfterLine(bytes))[i - 1], more[i - 1], i - 1 == |more| - 1); }
      }
    }
  }

  /** And they are the only lines that do. */
  lemma {:induction false} LinesAreTheOnlySplit(bytes: seq<byte>, lines: seq<seq<byte>>, ends: seq<seq<byte>>)
    requires Splits(bytes, lines, ends)
    ensures lines == TextLines(bytes)
    decreases |lines|
  {
    JoinedIsShortOfNothing(lines, ends);
    if lines != [] {
      var rest := Joined(lines[1..], ends[1..]);
      assert EndsLine(lines[0], ends[0], 0 == |lines| - 1);
      forall i | 0 <= i < |lines[1..]| ensures EndsLine(lines[1..][i], ends[1..][i], i == |lines[1..]| - 1) {
        assert EndsLine(lines[i + 1], ends[i + 1], i + 1 == |lines| - 1);
      }
      JoinedIsShortOfNothing(lines[1..], ends[1..]);
      FirstLineIs(bytes, lines[0], ends[0], rest);
      LinesAreTheOnlySplit(rest, lines[1..], ends[1..]);
      assert lines == [lines[0]] + lines[1..];
    }
  }

  /** May a UTF-8 string be cut here? Not in front of a continuation byte. */
  predicate IsBoundary(bytes: seq<byte>, i: nat) {
    i == 0 || i == |bytes| || (i < |bytes| && !(128 <= bytes[i] < 192))
  }

  function Truncated(line: seq<byte>): (shown: seq<byte>)
    ensures |shown| <= MAX_RENDERED_LINE_BYTES + |TRUNCATION_MARK|
  {
    if |line| <= MAX_RENDERED_LINE_BYTES then line
    else line[..LastBoundary(line, MAX_RENDERED_LINE_BYTES)] + TRUNCATION_MARK
  }

  /** The last place at or before `i` where the line may be cut. */
  function LastBoundary(line: seq<byte>, i: nat): (end: nat)
    requires i <= |line|
    ensures end <= i && IsBoundary(line, end)
    ensures forall k :: end < k <= i ==> !IsBoundary(line, k)
  {
    if IsBoundary(line, i) then i else LastBoundary(line, i - 1)
  }

  /** One character in UTF-8: a leading byte and its continuation bytes. */
  predicate Encoded(character: seq<byte>) {
    && 1 <= |character| <= 4
    && !(128 <= character[0] <= 191)
    && forall i :: 1 <= i < |character| ==> 128 <= character[i] <= 191
  }

  ghost predicate AllEncoded(characters: seq<seq<byte>>) {
    forall i :: 0 <= i < |characters| ==> Encoded(characters[i])
  }

  /** Where character `k` begins. */
  function Offset(characters: seq<seq<byte>>, k: nat): nat
    requires k <= |characters|
  {
    |Flatten(characters[..k])|
  }

  lemma OffsetStep(characters: seq<seq<byte>>, k: nat)
    requires k < |characters|
    ensures Flatten(characters[..k + 1]) == Flatten(characters[..k]) + characters[k]
    ensures Offset(characters, k + 1) == Offset(characters, k) + |characters[k]|
  {
    assert characters[..k + 1] == characters[..k] + [characters[k]];
    FlattenSnoc(characters[..k], characters[k]);
  }

  lemma {:induction false} OffsetIn(characters: seq<seq<byte>>, k: nat)
    requires k <= |characters|
    ensures Flatten(characters[..k]) <= Flatten(characters)
    decreases |characters| - k
  {
    if k == |characters| {
      assert characters[..k] == characters;
    } else {
      OffsetStep(characters, k);
      OffsetIn(characters, k + 1);
    }
  }

  /** In UTF-8 text a place can be cut exactly if a character begins or the text ends there. */
  lemma CutInCharacter(characters: seq<seq<byte>>, k: nat, i: nat)
    requires AllEncoded(characters) && k < |characters| && Offset(characters, k) <= i < Offset(characters, k + 1)
    ensures i < |Flatten(characters)|
    ensures IsBoundary(Flatten(characters), i) <==> i == Offset(characters, k)
  {
    var bytes, at := Flatten(characters), Offset(characters, k);
    OffsetStep(characters, k);
    OffsetIn(characters, k + 1);
    assert Encoded(characters[k]);
    assert bytes[i] == Flatten(characters[..k + 1])[i] == characters[k][i - at];
  }

  /** A line of characters is shown whole if it is short enough; otherwise as many whole characters as
      fit the limit are shown, and the mark behind them. */
  lemma TruncationKeepsCharacters(characters: seq<seq<byte>>) returns (k: nat)
    requires AllEncoded(characters)
    ensures k <= |characters| && Offset(characters, k) <= 4_000
    ensures |Flatten(characters)| <= 4_000 ==> k == |characters| && Truncated(Flatten(characters)) == Flatten(characters)
    ensures |Flatten(characters)| > 4_000 ==>
              && k < |characters| && 4_000 < Offset(characters, k + 1)
              && Truncated(Flatten(characters)) == Flatten(characters[..k]) + [0xE2, 0x80, 0xA6] + Ascii(" [line truncated]")
  {
    var line := Flatten(characters);
    k := |characters|;
    assert characters[..|characters|] == characters;
    if |line| > 4_000 {
      k := LastFitting(characters, 4_000);
      OffsetIn(characters, k);
      CutsBefore(characters, k, 4_000);
    }
  }

  lemma CutsBefore(characters: seq<seq<byte>>, k: nat, i: nat)
    requires AllEncoded(characters) && k < |characters| && Offset(characters, k) <= i < Offset(characters, k + 1)
    requires i <= |Flatten(characters)|
    ensures LastBoundary(Flatten(characters), i) == Offset(characters, k)
    decreases i
  {
    CutInCharacter(characters, k, i);
    if i > Offset(characters, k) { CutsBefore(characters, k, i - 1); }
  }

  lemma {:induction false} LastFitting(characters: seq<seq<byte>>, limit: nat) returns (k: nat)
    requires limit < |Flatten(characters)|
    ensures k < |characters| && Offset(characters, k) <= limit < Offset(characters, k + 1)
  {
    k := 0;
    assert characters[..|characters|] == characters;
    while Offset(characters, k + 1) <= limit
      invariant k < |characters| && Offset(characters, k) <= limit
      decreases |characters| - k
    {
      k := k + 1;
    }
  }

  /** `truncate_line`, with the source's backward search for a character boundary. */
  method TruncateLine(line: seq<byte>) returns (shown: seq<byte>)
    ensures shown == Truncated(line)
  {
    if |line| <= MAX_RENDERED_LINE_BYTES { return line; }
    var end: nat := MAX_RENDERED_LINE_BYTES;
    while !IsBoundary(line, end)
      invariant end <= |line|
      invariant LastBoundary(line, end) == LastBoundary(line, MAX_RENDERED_LINE_BYTES)
      decreases end
    {
      end := end - 1;
    }
    return line[..end] + TRUNCATION_MARK;
  }

  // ---- Rendering ---------------------------------------------------------------------

  function RenderedLine(number: nat, line: seq<byte>): seq<byte> {
    Ascii(Decimal(number)) + Ascii("|") + Truncated(line) + [NEWLINE]
  }

  function RenderedLines(lines: seq<seq<byte>>, from: nat, stop: nat): seq<seq<byte>>
    requires from <= stop <= |lines|
  {
    seq(stop - from, i requires 0 <= i < stop - from => RenderedLine(from + i + 1, lines[from + i]))
  }

  /** Lines `from` up to `stop`, each under its one-based number. */
  function Rendered(lines: seq<seq<byte>>, from: nat, stop: nat): seq<byte>
    requires from <= stop <= |lines|
  {
    Flatten(RenderedLines(lines, from, stop))
  }

  lemma RenderedSplits(lines: seq<seq<byte>>, from: nat, mid: nat, stop: nat)
    requires from <= mid <= stop <= |lines|
    ensures Rendered(lines, from, stop) == Rendered(lines, from, mid) + Rendered(lines, mid, stop)
  {
    var a, b := RenderedLines(lines, from, mid), RenderedLines(lines, mid, stop);
    assert RenderedLines(lines, from, stop) == a + b;
    FlattenAppend(a, b);
  }

  lemma RenderedSnoc(lines: seq<seq<byte>>, from: nat, at: nat)
    requires from <= at < |lines|
    ensures Rendered(lines, from, at + 1) == Rendered(lines, from, at) + RenderedLine(at + 1, lines[at])
  {
    var a := RenderedLines(lines, from, at);
    assert RenderedLines(lines, from, at + 1) == a + [RenderedLine(at + 1, lines[at])];
    FlattenSnoc(a, RenderedLine(at + 1, lines[at]));
  }

  /** One line of a page: its number, a bar, and the line as shown. */
  function PageLine(number: nat, line: seq<byte>): seq<byte> {
    Ascii(Decimal(number)) + [124] + Truncated(line)
  }

  lemma PageLineIsOne(number: nat, line: seq<byte>)
    requires OneLine(line)
    ensures OneLine(PageLine(number, line)) && RenderedLine(number, line) == PageLine(number, line) + [NEWLINE]
  {
    assert Digits(Decimal(number));
    assert Ascii("|") == [124];
    assert OneLine(Ascii(Decimal(number))) && OneLine(Truncated(line));
  }

  /** Split at its newlines, a page is the lines it shows, each under its one-based number. */
  lemma PageReadsBack(content: seq<byte>, from: nat, stop: nat)
    requires from <= stop <= |TextLines(content)|
    ensures var lines := TextLines(content);
            Lines(Rendered(lines, from, stop)) == seq(stop - from, i requires 0 <= i < stop - from => PageLine(from + i + 1, lines[from + i]))
  {
    var lines := TextLines(content);
    var ends := LinesRebuild(content);
    forall i | 0 <= i < |lines| ensures OneLine(lines[i]) { assert EndsLine(lines[i], ends[i], i == |lines| - 1); }
    var frames := seq(stop - from, i requires 0 <= i < stop - from => PageLine(from + i + 1, lines[from + i]));
    forall i | 0 <= i < |frames| ensures OneLine(frames[i]) && RenderedLines(lines, from, stop)[i] == frames[i] + [NEWLINE] {
      PageLineIsOne(from + i + 1, lines[from + i]);
    }
    FramedIsFlat(RenderedLines(lines, from, stop), frames);
    FramesReadBack(frames);
  }

  lemma {:induction false} FramedIsFlat(parts: seq<seq<byte>>, frames: seq<seq<byte>>)
    requires |parts| == |frames| && forall i :: 0 <= i < |frames| ==> parts[i] == frames[i] + [NEWLINE]
    ensures Flatten(parts) == Framed(frames)
  {
    if parts != [] { FramedIsFlat(parts[1..], frames[1..]); }
  }

  method Render(number: nat, line: seq<byte>) returns (rendered: seq<byte>)
    ensures rendered == RenderedLine(number, line)
  {
    var shown := TruncateLine(line);
    return Ascii(Decimal(number)) + Ascii("|") + shown + [NEWLINE];
  }

  lemma {:induction false} DecimalIsShort(n: nat, digits: nat, bound: nat)
    requires digits >= 1 && bound == Power10(digits) && n < bound
    ensures |Decimal(n)| <= digits
    decreases n
  {
    assert Power10(1) == 10;
    if n >= 10 {
      DecimalIsShort(n / 10, digits - 1, Power10(digits - 1));
    }
  }

  function Power10(k: nat): nat {
    if k == 0 then 1 else 10 * Power10(k - 1)
  }

  /** Progress: in a file small enough to be read, one rendered line always fits the budget. */
  lemma OneLineAlwaysFits(lines: seq<seq<byte>>, at: nat)
    requires |lines| <= MAX_READ_BYTES && at < |lines|
    ensures |RenderedLine(at + 1, lines[at])| <= MAX_RESULT_CHARS
  {
    assert Power10(8) == 100_000_000 by {
      assert Power10(4) == 10_000;
      assert Power10(8) == 10 * (10 * (10 * (10 * Power10(4))));
    }
    DecimalIsShort(at + 1, 8, Power10(8));
    assert |TRUNCATION_MARK| == 20;
  }

  // ---- One page ----------------------------------------------------------------------

  datatype ReadError = BadOffset | BadLimit | TooLarge

  datatype Page =
    | BeyondEnd(lines: nat)
    | Shown(body: seq<byte>, next: Option<nat>)

  /** The page starting at line index `start` shows lines up to `stop` and says where to go on. */
  ghost predicate ShowsUpTo(lines: seq<seq<byte>>, start: nat, limit: nat, page: Page, stop: nat) {
    && page.Shown?
    && start < stop <= |lines| && stop - start <= limit
    && page.body == Rendered(lines, start, stop)
    && |page.body| <= MAX_RESULT_CHARS
    && page.next == (if stop < |lines| then Some(stop + 1) else None)
    && (stop - start < limit && stop < |lines| ==>
          MAX_RESULT_CHARS < |page.body| + |RenderedLine(stop + 1, lines[stop])|)
  }

  /** The rendering loop: as many lines as fit the budget, at least one. */
  method FillPage(lines: seq<seq<byte>>, start: nat, end: nat) returns (output: seq<byte>, stop: nat)
    requires |lines| <= MAX_READ_BYTES && start < end <= |lines|
    ensures start < stop <= end && output == Rendered(lines, start, stop) && |output| <= MAX_RESULT_CHARS
    ensures stop < end ==> MAX_RESULT_CHARS < |output| + |RenderedLine(stop + 1, lines[stop])|
  {
    output := [];
    assert RenderedLines(lines, start, start) == [];
    for at := start to end
      invariant output == Rendered(lines, start, at) && |output| <= MAX_RESULT_CHARS
    {
      var rendered := Render(at + 1, lines[at]);
      if MAX_RESULT_CHARS < |output| + |rendered| {
        OneLineAlwaysFits(lines, at);
        return output, at;
      }
      RenderedSnoc(lines, start, at);
      output := output + rendered;
    }
    stop := end;
  }

  /** What reading a page of this content yields; `stop` is where the page stops. */
  ghost predicate PageOf(lines: seq<seq<byte>>, offset: nat, limit: nat, page: Page, stop: nat)
    requires offset > 0
  {
    if |lines| <= offset - 1 then page == BeyondEnd(|lines|) else ShowsUpTo(lines, offset - 1, limit, page, stop)
  }

  /** `read_file`: a page shows at least one line, no more than `limit`, never half a line, and
      stops short only where the next line would not fit. */
  method ReadFile(content: seq<byte>, offset: nat, limit: nat) returns (r: Result<Page, ReadError>, ghost stop: nat)
    ensures r.Err? <==> offset == 0 || limit == 0 || MAX_READ_LINES < limit || MAX_READ_BYTES < |content|
    ensures r.Ok? ==> PageOf(TextLines(content), offset, limit, r.value, stop)
  {
    stop := 0;
    if offset == 0 { return Err(BadOffset), stop; }
    if limit == 0 || MAX_READ_LINES < limit { return Err(BadLimit), stop; }
    if MAX_READ_BYTES < |content| { return Err(TooLarge), stop; }
    var lines := TextLines(content);
    var start := offset - 1;
    if |lines| <= start { return Ok(BeyondEnd(|lines|)), stop; }
    var end := if start + limit < |lines| then start + limit else |lines|;
    var output, shown := FillPage(lines, start, end);
    stop := shown;
    return Ok(Shown(output, if shown < |lines| then Some(shown + 1) else None)), stop;
  }

  // ---- All pages ---------------------------------------------------------------------

  /** The pages so far, put together, are exactly the first `shown` lines, rendered in order. */
  ghost predicate Read(lines: seq<seq<byte>>, text: seq<byte>, shown: nat) {
    shown <= |lines| && text == Rendered(lines, 0, shown)
  }

  lemma ReadOn(lines: seq<seq<byte>>, text: seq<byte>, shown: nat, limit: nat, page: Page, stop: nat)
    requires Read(lines, text, shown) && ShowsUpTo(lines, shown, limit, page, stop)
    ensures Read(lines, text + page.body, stop)
  {
    RenderedSplits(lines, 0, shown, stop);
  }

  /** One more page: it continues where the pages so far end. */
  method ReadNext(content: seq<byte>, ghost lines: seq<seq<byte>>, text: seq<byte>, offset: nat, limit: nat)
    returns (more: seq<byte>, next: Option<nat>, ghost stop: nat)
    requires |content| <= MAX_READ_BYTES && 1 <= limit <= MAX_READ_LINES && lines == TextLines(content)
    requires 1 <= offset <= |lines| && Read(lines, text, offset - 1)
    ensures Read(lines, more, stop)
    ensures offset - 1 < stop <= |lines|
    ensures next == if stop < |lines| then Some(stop + 1) else None
  {
    var page, last := ReadFile(content, offset, limit);
    stop := last;
    ReadOn(lines, text, offset - 1, limit, page.value, stop);
    more, next := text + page.value.body, page.value.next;
  }

  /** Following the advertised offsets, one limit after another. */
  method ReadPages(content: seq<byte>, ghost lines: seq<seq<byte>>, limits: seq<nat>)
    returns (text: seq<byte>, done: bool)
    requires |content| <= MAX_READ_BYTES && lines == TextLines(content) && lines != []
    requires forall i :: 0 <= i < |limits| ==> 1 <= limits[i] <= MAX_READ_LINES
    requires Read(lines, [], 0)
    ensures |lines| <= |limits| ==> done
    ensures done ==> Read(lines, text, |lines|)
  {
    text := [];
    var offset := 1;
    for i := 0 to |limits|
      invariant 1 <= offset <= |lines| && i < offset
      invariant Read(lines, text, offset - 1)
    {
      var more, next, stop := ReadNext(content, lines, text, offset, limits[i]);
      text := more;
      if next.None? { return text, true; }
      offset := next.value;
    }
    done := false;
  }

  lemma NothingRead(content: seq<byte>)
    ensures Read(TextLines(content), [], 0)
    ensures content == [] <==> TextLines(content) == []
  {
    assert RenderedLines(TextLines(content), 0, 0) == [];
  }

  /** Following the advertised offsets from 1, under any limits, ends, and the pages in order
      are every line of the file exactly once. */
  method ReadEverything(content: seq<byte>, limits: seq<nat>) returns (text: seq<byte>, done: bool)
    requires |content| <= MAX_READ_BYTES
    requires forall i :: 0 <= i < |limits| ==> 1 <= limits[i] <= MAX_READ_LINES
    ensures |TextLines(content)| <= |limits| ==> done
    ensures done ==> text == Rendered(TextLines(content), 0, |TextLines(content)|)
  {
    NothingRead(content);
    if content == [] { return [], true; }
    text, done := ReadPages(content, TextLines(content), limits);
  }
}
