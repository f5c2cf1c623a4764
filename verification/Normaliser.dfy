/** The chat-completions stream normaliser: `normalized_events` and
    `ChunkDelta::is_semantically_empty` of `apps/hermesd/src/adapters/openai.rs:161-278`.

    Whatever the server sends, what comes out meets the runtime's expectations of a provider
    stream, carries every delta of the items before the one the stream stops at, in order, and
    closes in the one way that item calls for. */
module Normaliser {
  import opened Basics
  import opened Fragments
  import opened Attempts

  datatype CallDelta = CallDelta(index: nat, id: Option<string>, name: Option<string>, arguments: Option<string>)

  datatype ChunkDelta = ChunkDelta(
    content: Option<string>, reasoningContent: Option<string>, reasoning: Option<string>, calls: seq<CallDelta>)
  {
    /** `is_semantically_empty`. */
    predicate Hollow() {
      && content.GetOr("") == "" && reasoningContent.GetOr("") == "" && reasoning.GetOr("") == ""
      && calls == []
    }
  }

  datatype Choice = Choice(delta: ChunkDelta, finish: Option<string>)

  datatype Chunk = Chunk(choices: seq<Choice>, usage: bool, error: Option<string>)

  /** One server-sent event, after the foreign framing and JSON layers. */
  datatype SseItem =
    | Broken
    | Done
    | Empty
    | Unreadable(detail: string)
    | Data(chunk: Chunk)

  // ---- What the chunks say -----------------------------------------------------------

  /** `reasoning_content.or(reasoning)`: the first field wins even when it is empty. */
  function ReasoningIn(delta: ChunkDelta): string {
    if delta.reasoningContent.Some? then delta.reasoningContent.value else delta.reasoning.GetOr("")
  }

  function FragmentOf(call: CallDelta): Fragment {
    Fragment(call.index, call.id, call.name, call.arguments.GetOr(""))
  }

  function FragmentsIn(calls: seq<CallDelta>): (fragments: seq<Fragment>)
    ensures |fragments| == |calls|
  {
    seq(|calls|, i requires 0 <= i < |calls| => FragmentOf(calls[i]))
  }

  predicate Speaks(item: SseItem) {
    item.Data? && item.chunk.choices != []
  }

  function TextIn(items: seq<SseItem>): string {
    if items == [] then ""
    else TextIn(items[..|items| - 1]) +
         var last := items[|items| - 1];
         if Speaks(last) then last.chunk.choices[0].delta.content.GetOr("") else ""
  }

  function AllReasoningIn(items: seq<SseItem>): string {
    if items == [] then ""
    else AllReasoningIn(items[..|items| - 1]) +
         var last := items[|items| - 1];
         if Speaks(last) then ReasoningIn(last.chunk.choices[0].delta) else ""
  }

  function AllFragmentsIn(items: seq<SseItem>): seq<Fragment> {
    if items == [] then []
    else AllFragmentsIn(items[..|items| - 1]) +
         var last := items[|items| - 1];
         if Speaks(last) then FragmentsIn(last.chunk.choices[0].delta.calls) else []
  }

  /** The first finish reason any chunk gives. */
  function FirstFinish(items: seq<SseItem>): Option<string> {
    if items == [] then None
    else
      var before := FirstFinish(items[..|items| - 1]);
      var last := items[|items| - 1];
      if before.Some? then before else if Speaks(last) then last.chunk.choices[0].finish else None
  }

  predicate Spoken(items: seq<SseItem>) {
    exists i :: 0 <= i < |items| && Speaks(items[i])
  }

  /** The deltas of one choice: its non-empty text, its non-empty reasoning, its calls in order. */
  function DeltasFor(delta: ChunkDelta): seq<StreamItem> {
    (if delta.content.GetOr("") == "" then [] else [Event(TextDelta(delta.content.value))])
    + (if ReasoningIn(delta) == "" then [] else [Event(ReasoningDelta(ReasoningIn(delta)))])
    + CallDeltas(delta.calls)
  }

  function CallDeltas(calls: seq<CallDelta>): (deltas: seq<StreamItem>)
    ensures |deltas| == |calls|
  {
    seq(|calls|, i requires 0 <= i < |calls| => Event(ToolCallDelta(FragmentOf(calls[i]))))
  }

  function SaidBy(item: SseItem): seq<StreamItem> {
    ChoiceSaid(item) + (if item.Data? && item.chunk.usage then [Event(Usage)] else [])
  }

  /** Every delta and usage report of the items, in order. */
  function SaidIn(items: seq<SseItem>): seq<StreamItem> {
    if items == [] then [] else SaidIn(items[..|items| - 1]) + SaidBy(items[|items| - 1])
  }

  // ---- Where the stream stops --------------------------------------------------------

  /** What the chunk at hand does: end the stream, or let it go on. */
  function Verdict(chunk: Chunk, finish: Option<string>): Option<ProviderEvent> {
    if chunk.error.Some? then Some(ProviderFault(chunk.error))
    else if |chunk.choices| > 1 then Some(Malformation(Some("multiple_chat_completion_choices_are_not_supported")))
    else if finish.Some? && chunk.choices != []
            && (!chunk.choices[0].delta.Hollow()
                || (chunk.choices[0].finish.Some? && chunk.choices[0].finish != finish))
    then Some(Malformation(Some("provider_emitted_data_after_finish_reason")))
    else None
  }

  /** How one item closes the stream, if it does. */
  function CloseBy(item: SseItem, finish: Option<string>): (close: Option<StreamItem>)
    ensures close.Some? ==> Ends(close.value)
  {
    match item
    case Broken => Some(TransportError)
    case Done => Some(Event(Completion(Some(finish.GetOr("stop")), None)))
    case Empty => None
    case Unreadable(detail) => Some(Event(Malformation(Some("invalid_chat_completion_chunk: " + detail))))
    case Data(chunk) =>
      match Verdict(chunk, finish)
      case Some(event) => Some(Event(event))
      case None => None
  }

  /** Item `i` is one nothing is read beyond. */
  predicate StopsHere(items: seq<SseItem>, i: nat)
    requires i < |items|
  {
    CloseBy(items[i], FirstFinish(items[..i])).Some?
  }

  function StopsFrom(items: seq<SseItem>, from: nat): (n: nat)
    requires from <= |items|
    ensures from <= n <= |items|
    ensures forall i {:trigger StopsHere(items, i)} :: from <= i < n ==> !StopsHere(items, i)
    ensures n < |items| ==> StopsHere(items, n)
    decreases |items| - from
  {
    if from == |items| || StopsHere(items, from) then from else StopsFrom(items, from + 1)
  }

  /** The first item nothing is read beyond; the end of the stream if there is none. */
  function StopsAt(items: seq<SseItem>): (n: nat)
    ensures n <= |items| && GoesOn(items, n)
    ensures n < |items| ==> StopsHere(items, n)
  {
    StopsFrom(items, 0)
  }

  ghost predicate GoesOn(items: seq<SseItem>, n: nat)
    requires n <= |items|
  {
    forall i {:trigger StopsHere(items, i)} :: 0 <= i < n ==> !StopsHere(items, i)
  }

  lemma StopsAtThe(items: seq<SseItem>, n: nat)
    requires n <= |items| && GoesOn(items, n)
    requires n < |items| ==> StopsHere(items, n)
    ensures StopsAt(items) == n
  {
    var m := StopsAt(items);
    assert m < |items| ==> StopsHere(items, m);
  }

  /** The items whose content is passed on. */
  function HeardOf(items: seq<SseItem>): seq<SseItem> {
    items[..StopsAt(items)]
  }

  /** How the stream closes: by the item it stops at; at its end, by the finish reason if any
      was given. Without one it is left open. */
  function Closing(items: seq<SseItem>): Option<StreamItem> {
    var n, finish := StopsAt(items), FirstFinish(HeardOf(items));
    if n < |items| then CloseBy(items[n], finish)
    else if finish.Some? then Some(Event(Completion(finish, None)))
    else None
  }

  // ---- What the output is ------------------------------------------------------------

  predicate Ends(item: StreamItem) {
    item.TransportError? || item.event.Terminal()
  }

  predicate Starts(item: StreamItem) {
    item.Event? && item.event.MessageStart?
  }

  predicate IsDelta(item: StreamItem) {
    item.Event? && item.event.Delta()
  }

  /** Nothing comes after a terminal event or a transport error. */
  ghost predicate EndsLast(out: seq<StreamItem>) {
    forall i :: 0 <= i < |out| - 1 ==> !Ends(out[i])
  }

  ghost predicate NoneEnds(out: seq<StreamItem>) {
    forall i :: 0 <= i < |out| ==> !Ends(out[i])
  }

  /** Exactly one message start if anything was said, and it precedes every delta. */
  ghost predicate StartsOnce(out: seq<StreamItem>) {
    && (forall i, j :: 0 <= i < j < |out| && Starts(out[i]) ==> !Starts(out[j]))
    && (forall i :: 0 <= i < |out| && IsDelta(out[i]) ==> StartedBefore(out, i))
  }

  ghost predicate StartedBefore(out: seq<StreamItem>, i: nat)
    requires i <= |out|
  {
    exists j :: 0 <= j < i && Starts(out[j])
  }

  /** What the output says, in order: everything but the start and the close. */
  function SaidOf(out: seq<StreamItem>): seq<StreamItem> {
    if out == [] then []
    else SaidOf(out[..|out| - 1]) +
         var last := out[|out| - 1];
         if Starts(last) || Ends(last) then [] else [last]
  }

  lemma SaidSnoc(out: seq<StreamItem>, last: StreamItem)
    ensures SaidOf(out + [last]) == if Starts(last) || Ends(last) then SaidOf(out) else SaidOf(out) + [last]
  {
    assert (out + [last])[..|out|] == out;
  }

  lemma {:induction false} SaidAppend(a: seq<StreamItem>, b: seq<StreamItem>)
    ensures SaidOf(a + b) == SaidOf(a) + SaidOf(b)
  {
    if b == [] {
      assert a + b == a;
    } else {
      var front, last := b[..|b| - 1], b[|b| - 1];
      assert b == front + [last] && a + b == (a + front) + [last];
      SaidAppend(a, front);
      SaidSnoc(a + front, last);
    }
  }

  lemma {:induction false} DeltasAreSaid(said: seq<StreamItem>)
    requires forall i :: 0 <= i < |said| ==> IsDelta(said[i])
    ensures SaidOf(said) == said
  {
    if said != [] {
      var front, last := said[..|said| - 1], said[|said| - 1];
      DeltasAreSaid(front);
      assert said == front + [last];
      SaidSnoc(front, last);
    }
  }

  lemma {:induction false} TextAppend(a: seq<StreamItem>, b: seq<StreamItem>)
    ensures TextOf(a + b) == TextOf(a) + TextOf(b)
  {
    if b == [] {
      assert a + b == a && TextOf(a) + "" == TextOf(a);
    } else {
      var front, last := b[..|b| - 1], b[|b| - 1];
      assert b == front + [last] && a + b == (a + front) + [last];
      TextAppend(a, front);
      FragmentsSnoc(a + front, last);
    }
  }

  lemma {:induction false} ReasoningAppend(a: seq<StreamItem>, b: seq<StreamItem>)
    ensures ReasoningOf(a + b) == ReasoningOf(a) + ReasoningOf(b)
  {
    if b == [] {
      assert a + b == a && ReasoningOf(a) + "" == ReasoningOf(a);
    } else {
      var front, last := b[..|b| - 1], b[|b| - 1];
      assert b == front + [last] && a + b == (a + front) + [last];
      ReasoningAppend(a, front);
      FragmentsSnoc(a + front, last);
    }
  }

  lemma {:induction false} FragmentsAppend(a: seq<StreamItem>, b: seq<StreamItem>)
    ensures FragmentsOf(a + b) == FragmentsOf(a) + FragmentsOf(b)
  {
    if b == [] {
      assert a + b == a;
    } else {
      var front, last := b[..|b| - 1], b[|b| - 1];
      assert b == front + [last] && a + b == (a + front) + [last];
      FragmentsAppend(a, front);
      FragmentsSnoc(a + front, last);
    }
  }

  /** The output carries exactly the content of `heard`. */
  ghost predicate Conveys(out: seq<StreamItem>, heard: seq<SseItem>) {
    && TextOf(out) == TextIn(heard)
    && ReasoningOf(out) == AllReasoningIn(heard)
    && FragmentsOf(out) == AllFragmentsIn(heard)
  }

  /** The output so far: open, started once, and started before its first delta. */
  ghost predicate Open(out: seq<StreamItem>, started: bool) {
    NoneEnds(out) && StartsOnce(out) && (started <==> StartedBefore(out, |out|))
  }

  lemma StartedSnoc(out: seq<StreamItem>, item: StreamItem, i: nat)
    requires i <= |out|
    ensures StartedBefore(out + [item], i) <==> StartedBefore(out, i)
    ensures StartedBefore(out + [item], |out| + 1) <==> StartedBefore(out, |out|) || Starts(item)
  {
    var more := out + [item];
    if StartedBefore(out, i) {
      var j :| 0 <= j < i && Starts(out[j]);
      assert Starts(more[j]);
    }
    if StartedBefore(more, i) {
      var j :| 0 <= j < i && Starts(more[j]);
      assert Starts(out[j]);
    }
    if StartedBefore(out, |out|) {
      var j :| 0 <= j < |out| && Starts(out[j]);
      assert Starts(more[j]);
    }
    if Starts(item) { assert Starts(more[|out|]); }
    if StartedBefore(more, |out| + 1) && !Starts(item) {
      var j :| 0 <= j < |out| + 1 && Starts(more[j]);
      assert Starts(out[j]);
    }
  }

  /** Adding an item keeps the start in order: one start only, and no delta before it. */
  lemma StartsOnceSnoc(out: seq<StreamItem>, started: bool, item: StreamItem)
    requires StartsOnce(out) && (started <==> StartedBefore(out, |out|))
    requires (Starts(item) ==> !started) && (IsDelta(item) ==> started)
    ensures StartsOnce(out + [item])
    ensures started || Starts(item) <==> StartedBefore(out + [item], |out + [item]|)
  {
    var more := out + [item];
    StartedSnoc(out, item, |out|);
    forall i | 0 <= i < |more| && IsDelta(more[i]) ensures StartedBefore(more, i) {
      StartedSnoc(out, item, i);
    }
    forall i, j | 0 <= i < j < |more| && Starts(more[i]) ensures !Starts(more[j]) {
      if j == |out| { assert Starts(out[i]); }
    }
  }

  lemma ConveysSnoc(out: seq<StreamItem>, heard: seq<SseItem>, item: StreamItem)
    requires Conveys(out, heard) && !IsDelta(item)
    ensures Conveys(out + [item], heard)
  {
    FragmentsSnoc(out, item);
    assert TextOf(out) + "" == TextOf(out) && ReasoningOf(out) + "" == ReasoningOf(out);
  }

  lemma {:induction false} StartsOnceAppend(out: seq<StreamItem>, said: seq<StreamItem>)
    requires StartsOnce(out) && StartedBefore(out, |out|)
    requires forall i :: 0 <= i < |said| ==> IsDelta(said[i])
    ensures StartsOnce(out + said) && StartedBefore(out + said, |out + said|)
    decreases |said|
  {
    if said == [] {
      assert out + said == out;
    } else {
      var front, last := said[..|said| - 1], said[|said| - 1];
      StartsOnceAppend(out, front);
      assert out + said == (out + front) + [last];
      StartsOnceSnoc(out + front, true, last);
    }
  }

  /** Deltas that carry nothing but `text`, `reasoning` and `fragments`. */
  ghost predicate Carries(out: seq<StreamItem>, text: string, reasoning: string, fragments: seq<Fragment>) {
    && (forall i :: 0 <= i < |out| ==> IsDelta(out[i]))
    && TextOf(out) == text && ReasoningOf(out) == reasoning && FragmentsOf(out) == fragments
  }

  lemma CarriesSnoc(out: seq<StreamItem>, text: string, reasoning: string, fragments: seq<Fragment>, last: Fragment)
    requires Carries(out, text, reasoning, fragments)
    ensures Carries(out + [Event(ToolCallDelta(last))], text, reasoning, fragments + [last])
  {
    FragmentsSnoc(out, Event(ToolCallDelta(last)));
    assert text + "" == text && reasoning + "" == reasoning;
  }

  lemma CarriesText(text: string)
    ensures Carries(if text == "" then [] else [Event(TextDelta(text))], text, "", [])
  {
    FragmentsSnoc([], Event(TextDelta(text)));
    assert [] + [Event(TextDelta(text))] == [Event(TextDelta(text))] && "" + text == text;
  }

  lemma CarriesReasoning(out: seq<StreamItem>, text: string, reasoning: string)
    requires Carries(out, text, "", [])
    ensures Carries(out + [Event(ReasoningDelta(reasoning))], text, reasoning, [])
  {
    FragmentsSnoc(out, Event(ReasoningDelta(reasoning)));
    assert text + "" == text && "" + reasoning == reasoning;
  }

  /** The text and reasoning deltas of one choice; empty strings are not passed on. */
  method SayText(delta: ChunkDelta) returns (out: seq<StreamItem>)
    ensures Carries(out, delta.content.GetOr(""), ReasoningIn(delta), [])
    ensures out + CallDeltas(delta.calls) == DeltasFor(delta)
  {
    out := [];
    if delta.content.GetOr("") != "" {
      out := [Event(TextDelta(delta.content.value))];
    }
    CarriesText(delta.content.GetOr(""));
    var reasoning := ReasoningIn(delta);
    if reasoning != "" {
      CarriesReasoning(out, delta.content.GetOr(""), reasoning);
      out := out + [Event(ReasoningDelta(reasoning))];
    }
  }

  /** The deltas of one choice. */
  method Say(delta: ChunkDelta) returns (out: seq<StreamItem>)
    ensures Carries(out, delta.content.GetOr(""), ReasoningIn(delta), FragmentsIn(delta.calls))
    ensures out == DeltasFor(delta)
  {
    out := SayText(delta);
    ghost var text := out;
    for i := 0 to |delta.calls|
      invariant Carries(out, delta.content.GetOr(""), ReasoningIn(delta), FragmentsIn(delta.calls)[..i])
      invariant out == text + CallDeltas(delta.calls)[..i]
    {
      var fragment := FragmentOf(delta.calls[i]);
      assert FragmentsIn(delta.calls)[..i + 1] == FragmentsIn(delta.calls)[..i] + [fragment];
      assert CallDeltas(delta.calls)[..i + 1] == CallDeltas(delta.calls)[..i] + [Event(ToolCallDelta(fragment))];
      CarriesSnoc(out, delta.content.GetOr(""), ReasoningIn(delta), FragmentsIn(delta.calls)[..i], fragment);
      out := out + [Event(ToolCallDelta(fragment))];
    }
    assert FragmentsIn(delta.calls)[..|delta.calls|] == FragmentsIn(delta.calls);
    assert CallDeltas(delta.calls)[..|delta.calls|] == CallDeltas(delta.calls);
  }

  /** An output still open that carries the content of `heard` and, in order, `said`. */
  ghost predicate Running(heard: seq<SseItem>, said: seq<StreamItem>, out: seq<StreamItem>, started: bool) {
    Open(out, started) && Conveys(out, heard) && SaidOf(out) == said
  }

  /** The loop's running state, after the items `heard`. */
  ghost predicate Streaming(heard: seq<SseItem>, out: seq<StreamItem>, started: bool, finish: Option<string>) {
    && Running(heard, SaidIn(heard), out, started)
    && (started <==> Spoken(heard))
    && finish == FirstFinish(heard)
  }

  lemma HeardSnoc(heard: seq<SseItem>, item: SseItem)
    ensures TextIn(heard + [item]) == TextIn(heard) + if Speaks(item) then item.chunk.choices[0].delta.content.GetOr("") else ""
    ensures AllReasoningIn(heard + [item])
            == AllReasoningIn(heard) + if Speaks(item) then ReasoningIn(item.chunk.choices[0].delta) else ""
    ensures AllFragmentsIn(heard + [item])
            == AllFragmentsIn(heard) + if Speaks(item) then FragmentsIn(item.chunk.choices[0].delta.calls) else []
    ensures FirstFinish(heard + [item])
            == if FirstFinish(heard).Some? then FirstFinish(heard)
               else if Speaks(item) then item.chunk.choices[0].finish else None
    ensures SaidIn(heard + [item]) == SaidIn(heard) + SaidBy(item)
  {
    assert (heard + [item])[..|heard|] == heard;
  }

  lemma SpokenSnoc(heard: seq<SseItem>, item: SseItem)
    ensures Spoken(heard + [item]) <==> Spoken(heard) || Speaks(item)
  {
    var more := heard + [item];
    if Spoken(heard) {
      var i :| 0 <= i < |heard| && Speaks(heard[i]);
      assert Speaks(more[i]);
    }
    if Speaks(item) { assert Speaks(more[|heard|]); }
    if Spoken(more) && !Speaks(item) {
      var i :| 0 <= i < |more| && Speaks(more[i]);
      assert Speaks(heard[i]);
    }
  }

  lemma OpenSnoc(out: seq<StreamItem>, started: bool, item: StreamItem)
    requires Open(out, started) && !Ends(item)
    requires (Starts(item) ==> !started) && (IsDelta(item) ==> started)
    ensures Open(out + [item], started || Starts(item))
  {
    StartsOnceSnoc(out, started, item);
  }

  lemma AddStart(heard: seq<SseItem>, said: seq<StreamItem>, out: seq<StreamItem>)
    requires Running(heard, said, out, false)
    ensures Running(heard, said, out + [Event(MessageStart)], true)
  {
    OpenSnoc(out, false, Event(MessageStart));
    ConveysSnoc(out, heard, Event(MessageStart));
    SaidSnoc(out, Event(MessageStart));
  }

  lemma AddUsage(heard: seq<SseItem>, said: seq<StreamItem>, out: seq<StreamItem>, started: bool)
    requires Running(heard, said, out, started)
    ensures Running(heard, said + [Event(Usage)], out + [Event(Usage)], started)
  {
    OpenSnoc(out, started, Event(Usage));
    ConveysSnoc(out, heard, Event(Usage));
    SaidSnoc(out, Event(Usage));
  }

  lemma AddChoice(heard: seq<SseItem>, item: SseItem, said: seq<StreamItem>, out: seq<StreamItem>, deltas: seq<StreamItem>)
    requires Running(heard, said, out, true) && Speaks(item)
    requires var delta := item.chunk.choices[0].delta;
             Carries(deltas, delta.content.GetOr(""), ReasoningIn(delta), FragmentsIn(delta.calls))
    ensures Running(heard + [item], said + deltas, out + deltas, true)
  {
    ConveysChoice(heard, item, out, deltas);
    OpenAppend(out, deltas);
    SaidAppend(out, deltas);
    DeltasAreSaid(deltas);
  }

  /** An item that says nothing leaves the state as it is. */
  lemma HearSilence(heard: seq<SseItem>, item: SseItem, out: seq<StreamItem>, started: bool, finish: Option<string>)
    requires Streaming(heard, out, started, finish) && SaidBy(item) == [] && !Speaks(item)
    ensures Streaming(heard + [item], out, started, finish)
  {
    HeardSnoc(heard, item);
    SpokenSnoc(heard, item);
    assert TextIn(heard) + "" == TextIn(heard) && AllReasoningIn(heard) + "" == AllReasoningIn(heard);
    assert AllFragmentsIn(heard) + [] == AllFragmentsIn(heard) && SaidIn(heard) + [] == SaidIn(heard);
  }

  lemma ConveysChoice(heard: seq<SseItem>, item: SseItem, out: seq<StreamItem>, said: seq<StreamItem>)
    requires Conveys(out, heard) && Speaks(item)
    requires var delta := item.chunk.choices[0].delta;
             Carries(said, delta.content.GetOr(""), ReasoningIn(delta), FragmentsIn(delta.calls))
    ensures Conveys(out + said, heard + [item])
  {
    HeardSnoc(heard, item);
    TextAppend(out, said);
    ReasoningAppend(out, said);
    FragmentsAppend(out, said);
  }

  lemma OpenAppend(out: seq<StreamItem>, said: seq<StreamItem>)
    requires Open(out, true) && forall i :: 0 <= i < |said| ==> IsDelta(said[i])
    ensures Open(out + said, true)
  {
    StartsOnceAppend(out, said);
    var more := out + said;
    forall i | 0 <= i < |more| ensures !Ends(more[i]) {
      if i >= |out| { assert more[i] == said[i - |out|]; }
    }
  }

  function ChoiceSaid(item: SseItem): seq<StreamItem> {
    if Speaks(item) then DeltasFor(item.chunk.choices[0].delta) else []
  }

  /** The start, if it is due, and the deltas of the chunk's choice, if there is one. */
  method PassChoice(ghost heard: seq<SseItem>, item: SseItem, ghost said: seq<StreamItem>, out: seq<StreamItem>, started: bool)
    returns (out': seq<StreamItem>, started': bool)
    requires Running(heard, said, out, started) && item.Data?
    ensures started' <==> started || Speaks(item)
    ensures Running(heard + [item], said + ChoiceSaid(item), out', started')
  {
    out', started' := out, started;
    if item.chunk.choices == [] {
      HeardNothing(heard, item, out);
      assert said + [] == said;
      return;
    }
    if !started {
      AddStart(heard, said, out);
      out', started' := out + [Event(MessageStart)], true;
    }
    var deltas := Say(item.chunk.choices[0].delta);
    AddChoice(heard, item, said, out', deltas);
    out' := out' + deltas;
  }

  /** Passing on the deltas and the usage report of one chunk that does not end the stream. */
  method PassOn(ghost heard: seq<SseItem>, item: SseItem, out: seq<StreamItem>, started: bool, finish: Option<string>)
    returns (out': seq<StreamItem>, started': bool, finish': Option<string>)
    requires Streaming(heard, out, started, finish) && item.Data? && Verdict(item.chunk, finish).None?
    ensures Streaming(heard + [item], out', started', finish')
  {
    ghost var said := SaidIn(heard) + ChoiceSaid(item);
    out', started' := PassChoice(heard, item, SaidIn(heard), out, started);
    finish' := if Speaks(item) && item.chunk.choices[0].finish.Some? then item.chunk.choices[0].finish else finish;
    if item.chunk.usage {
      AddUsage(heard + [item], said, out', started');
      out' := out' + [Event(Usage)];
      said := said + [Event(Usage)];
    }
    SaidBySplit(item, SaidIn(heard));
    PassedOn(heard, item, said, out', started', finish, finish');
  }

  lemma SaidBySplit(item: SseItem, said: seq<StreamItem>)
    requires item.Data?
    ensures said + SaidBy(item) == if item.chunk.usage then said + ChoiceSaid(item) + [Event(Usage)] else said + ChoiceSaid(item)
  {
    assert SaidBy(item) == ChoiceSaid(item) + if item.chunk.usage then [Event(Usage)] else [];
  }

  /** What was appended is what the chunk says, and its finish reason is the first one. */
  lemma PassedOn(heard: seq<SseItem>, item: SseItem, said: seq<StreamItem>, out: seq<StreamItem>, started: bool,
                 finish: Option<string>, finish': Option<string>)
    requires Running(heard + [item], said, out, started)
    requires finish == FirstFinish(heard) && item.Data? && Verdict(item.chunk, finish).None?
    requires said == SaidIn(heard) + SaidBy(item)
    requires started <==> Spoken(heard) || Speaks(item)
    requires finish' == if Speaks(item) && item.chunk.choices[0].finish.Some? then item.chunk.choices[0].finish else finish
    ensures Streaming(heard + [item], out, started, finish')
  {
    HeardSnoc(heard, item);
    SpokenSnoc(heard, item);
  }

  lemma HeardNothing(heard: seq<SseItem>, item: SseItem, out: seq<StreamItem>)
    requires Conveys(out, heard) && !Speaks(item)
    ensures Conveys(out, heard + [item])
  {
    HeardSnoc(heard, item);
    assert TextIn(heard) + "" == TextIn(heard) && AllReasoningIn(heard) + "" == AllReasoningIn(heard);
    assert AllFragmentsIn(heard) + [] == AllFragmentsIn(heard);
  }

  /** The finished output: properly started and closed, complete, and nothing but what was heard. */
  ghost predicate Whole(items: seq<SseItem>, out: seq<StreamItem>) {
    && EndsLast(out) && StartsOnce(out)
    && Conveys(out, HeardOf(items)) && SaidOf(out) == SaidIn(HeardOf(items))
    && (StartedBefore(out, |out|) <==> Spoken(HeardOf(items)) || StoppedByDone(items))
    && match Closing(items)
       case Some(last) => out != [] && out[|out| - 1] == last && Ends(last)
       case None => NoneEnds(out)
  }

  predicate StoppedByDone(items: seq<SseItem>) {
    StopsAt(items) < |items| && items[StopsAt(items)].Done?
  }

  lemma AddClose(heard: seq<SseItem>, said: seq<StreamItem>, out: seq<StreamItem>, started: bool, last: StreamItem)
    requires Running(heard, said, out, started) && Ends(last)
    ensures EndsLast(out + [last]) && StartsOnce(out + [last])
    ensures Conveys(out + [last], heard) && SaidOf(out + [last]) == said
    ensures StartedBefore(out + [last], |out + [last]|) <==> started
  {
    StartsOnceSnoc(out, started, last);
    ConveysSnoc(out, heard, last);
    SaidSnoc(out, last);
    OnlyTheLastEnds(out, last);
  }

  lemma OnlyTheLastEnds(out: seq<StreamItem>, last: StreamItem)
    requires NoneEnds(out)
    ensures EndsLast(out + [last])
  {
    var more := out + [last];
    forall i | 0 <= i < |more| - 1 ensures !Ends(more[i]) {
      assert more[i] == out[i];
    }
  }

  /** Closing the stream with its one terminal event or transport error. */
  lemma Close(items: seq<SseItem>, out: seq<StreamItem>, started: bool, finish: Option<string>)
    requires Streaming(HeardOf(items), out, started, finish) && Closing(items).Some? && Ends(Closing(items).value)
    requires !StoppedByDone(items)
    ensures Whole(items, out + [Closing(items).value])
  {
    AddClose(HeardOf(items), SaidIn(HeardOf(items)), out, started, Closing(items).value);
  }

  /** `[DONE]`: the stream is started, if it was not, and completed. */
  method Finish(ghost items: seq<SseItem>, out: seq<StreamItem>, started: bool, finish: Option<string>)
    returns (closed: seq<StreamItem>)
    requires Streaming(HeardOf(items), out, started, finish) && StoppedByDone(items)
    ensures Whole(items, closed)
  {
    closed := out;
    ghost var heard := HeardOf(items);
    if !started {
      AddStart(heard, SaidIn(heard), closed);
      closed := closed + [Event(MessageStart)];
    }
    var done := Event(Completion(Some(finish.GetOr("stop")), None));
    AddClose(heard, SaidIn(heard), closed, true, done);
    closed := closed + [done];
  }

  lemma QuietItem(heard: seq<SseItem>, item: SseItem)
    requires FirstFinish(heard).Some? && CloseBy(item, FirstFinish(heard)).None?
    ensures FirstFinish(heard + [item]) == FirstFinish(heard)
    ensures TextIn(heard + [item]) == TextIn(heard)
    ensures AllReasoningIn(heard + [item]) == AllReasoningIn(heard)
    ensures AllFragmentsIn(heard + [item]) == AllFragmentsIn(heard)
  {
    HeardSnoc(heard, item);
    if Speaks(item) {
      assert item.chunk.choices[0].delta.Hollow();
      HollowIsEmpty(item.chunk.choices[0].delta);
    }
    assert TextIn(heard) + "" == TextIn(heard) && AllReasoningIn(heard) + "" == AllReasoningIn(heard);
    assert AllFragmentsIn(heard) + [] == AllFragmentsIn(heard);
  }

  lemma HollowIsEmpty(delta: ChunkDelta)
    requires delta.Hollow()
    ensures delta.content.GetOr("") == "" && ReasoningIn(delta) == "" && FragmentsIn(delta.calls) == []
  {
  }

  /** Once a finish reason is given, the items still let through say nothing more. */
  lemma {:induction false} QuietAfterFinish(items: seq<SseItem>, k: nat, n: nat)
    requires k <= n <= StopsAt(items) && FirstFinish(items[..k]).Some?
    ensures FirstFinish(items[..n]) == FirstFinish(items[..k])
    ensures TextIn(items[..n]) == TextIn(items[..k])
    ensures AllReasoningIn(items[..n]) == AllReasoningIn(items[..k])
    ensures AllFragmentsIn(items[..n]) == AllFragmentsIn(items[..k])
  {
    if k < n {
      QuietAfterFinish(items, k, n - 1);
      assert items[..n] == items[..n - 1] + [items[n - 1]];
      assert !StopsHere(items, n - 1);
      QuietItem(items[..n - 1], items[n - 1]);
    }
  }

  /** All content was there as soon as the items read gave a finish reason. */
  ghost predicate CompleteByFinish(items: seq<SseItem>, out: seq<StreamItem>) {
    forall k :: 0 <= k <= StopsAt(items) && FirstFinish(items[..k]).Some? ==> Conveys(out, items[..k])
  }

  lemma QuietThroughout(items: seq<SseItem>, out: seq<StreamItem>)
    requires Whole(items, out)
    ensures CompleteByFinish(items, out)
  {
    forall k | 0 <= k <= StopsAt(items) && FirstFinish(items[..k]).Some?
      ensures Conveys(out, items[..k])
    {
      QuietAfterFinish(items, k, StopsAt(items));
    }
  }

  /** The stream closed by item `i`. */
  method CloseAt(items: seq<SseItem>, i: nat, close: StreamItem, out: seq<StreamItem>, started: bool, finish: Option<string>)
    returns (closed: seq<StreamItem>)
    requires i < |items| && Streaming(items[..i], out, started, finish) && CloseBy(items[i], finish) == Some(close)
    requires GoesOn(items, i)
    ensures Whole(items, closed)
  {
    StopsAtThe(items, i);
    if items[i].Done? {
      closed := Finish(items, out, started, finish);
    } else {
      Close(items, out, started, finish);
      closed := out + [close];
    }
  }

  /** The stream closed at its end, if a finish reason was given. */
  method CloseAtEnd(ghost items: seq<SseItem>, out: seq<StreamItem>, started: bool, finish: Option<string>)
    returns (closed: seq<StreamItem>)
    requires Streaming(items, out, started, finish)
    requires GoesOn(items, |items|)
    ensures Whole(items, closed)
  {
    StopsAtThe(items, |items|);
    assert items[..|items|] == items;
    closed := out;
    if finish.Some? {
      Close(items, out, started, finish);
      closed := closed + [Event(Completion(finish, None))];
    }
  }

  lemma NotYet(items: seq<SseItem>, i: nat, finish: Option<string>)
    requires i < |items| && finish == FirstFinish(items[..i]) && CloseBy(items[i], finish).None?
    requires GoesOn(items, i)
    ensures GoesOn(items, i + 1)
  {
  }

  lemma StartFresh(items: seq<SseItem>)
    ensures Streaming(items[..0], [], false, None)
  {
    assert items[..0] == [];
  }

  /** One turn of the loop: the stream is closed by the item, or goes on. */
  method Read(items: seq<SseItem>, i: nat, out: seq<StreamItem>, started: bool, finish: Option<string>)
    returns (out': seq<StreamItem>, started': bool, finish': Option<string>, closed: bool)
    requires i < |items| && Streaming(items[..i], out, started, finish) && GoesOn(items, i)
    ensures closed ==> Whole(items, out')
    ensures !closed ==> Streaming(items[..i + 1], out', started', finish') && GoesOn(items, i + 1)
  {
    var item := items[i];
    assert items[..i + 1] == items[..i] + [item];
    out', started', finish', closed := out, started, finish, false;
    var close := CloseBy(item, finish);
    if close.Some? {
      out' := CloseAt(items, i, close.value, out, started, finish);
      closed := true;
    } else {
      NotYet(items, i, finish);
      if item.Empty? {
        HearSilence(items[..i], item, out, started, finish);
      } else {
        out', started', finish' := PassOn(items[..i], item, out, started, finish);
      }
    }
  }

  /** `normalized_events`: all content up to the item the stream stops at comes out, in order,
      between one start and the close that item calls for; and all of it was there by the first
      finish reason. */
  method Normalise(items: seq<SseItem>) returns (out: seq<StreamItem>)
    ensures Whole(items, out)
    ensures CompleteByFinish(items, out)
  {
    out := [];
    var started, finish: Option<string>, closed := false, None, false;
    StartFresh(items);
    for i := 0 to |items|
      invariant !closed && Streaming(items[..i], out, started, finish) && GoesOn(items, i)
    {
      out, started, finish, closed := Read(items, i, out, started, finish);
      if closed {
        QuietThroughout(items, out);
        return;
      }
    }
    assert items[..|items|] == items;
    out := CloseAtEnd(items, out, started, finish);
    QuietThroughout(items, out);
  }

  // ---- Meeting the runtime -----------------------------------------------------------

  /** On such a stream the runtime's "event after its terminal" error cannot happen. */
  lemma {:induction false} NothingFollowsTheTerminal(out: seq<StreamItem>)
    requires EndsLast(out)
    ensures Consumed(out) != Err(EventAfterTerminal)
    decreases |out|
  {
    if out != [] {
      var front, last := out[..|out| - 1], out[|out| - 1];
      assert out == front + [last];
      assert EndsLast(front);
      NothingFollowsTheTerminal(front);
      if Consumed(front).Ok? {
        ConsumedMeaning(front);
        assert !EndsTerminal(front);
      }
    }
  }

  /** What the runtime's terminal is when a stream closes so. */
  function TerminalOf(close: StreamItem): Option<AttemptTerminal> {
    if close.TransportError? then None
    else match close.event
      case Completion(reason, data) => Some(EndedNormally(reason.GetOr("stop"), data))
      case ProviderFault(reason) => Some(EndedInError(reason.GetOr("provider_error")))
      case Malformation(reason) => Some(EndedMalformed(reason.GetOr("malformed_provider_stream")))
      case _ => None
  }

  lemma ClosedEvents(items: seq<SseItem>, out: seq<StreamItem>)
    requires Whole(items, out)
    ensures AllEvents(out) <==> Closing(items) != Some(TransportError)
    ensures TerminalLast(out)
    ensures EndsTerminal(out) <==> Closing(items).Some? && Closing(items) != Some(TransportError)
  {
    assert forall i :: 0 <= i < |out| - 1 ==> !Ends(out[i]);
    if Closing(items).Some? {
      assert Ends(out[|out| - 1]);
    }
  }

  lemma TerminalIsTheClose(out: seq<StreamItem>)
    requires Consumed(out).Ok? && EndsTerminal(out) && !out[|out| - 1].event.Cancellation?
    ensures Consumed(out).value.terminal == TerminalOf(out[|out| - 1])
  {
    assert Consumed(out[..|out| - 1]).Ok?;
  }

  lemma NormalisedClose(items: seq<SseItem>)
    ensures Closing(items).Some? && Closing(items).value.Event? ==> !Closing(items).value.event.Cancellation?
  {
  }

  /** A server stream read by the runtime: it never sees an event after the terminal, fails
      exactly on a broken transport or fragments that contradict each other, and otherwise holds
      the content of the items up to the one the stream stops at, ended as that item says. */
  method ReadAttempt(items: seq<SseItem>) returns (r: Result<AttemptState, AttemptFailure>)
    ensures r != Err(EventAfterTerminal)
    ensures r.Ok? <==> Closing(items) != Some(TransportError) && Stable(AllFragmentsIn(HeardOf(items)))
    ensures r.Ok? ==>
              && r.value.text == TextIn(HeardOf(items))
              && r.value.reasoning == AllReasoningIn(HeardOf(items))
              && Ok(r.value.partials) == Collect(AllFragmentsIn(HeardOf(items)))
              && r.value.terminal == match Closing(items) { case Some(close) => TerminalOf(close) case None => None }
  {
    var out := Normalise(items);
    r := Consume(out);
    NothingFollowsTheTerminal(out);
    ConsumedMeaning(out);
    ClosedEvents(items, out);
    NormalisedClose(items);
    if r.Ok? && Closing(items).Some? {
      TerminalIsTheClose(out);
    }
  }

  // ---- The second reasoning field ----------------------------------------------------

  /** The reasoning a delta was sent with, in whichever field. */
  function SentReasoning(delta: ChunkDelta): string {
    if delta.reasoningContent.GetOr("") != "" then delta.reasoningContent.value else delta.reasoning.GetOr("")
  }

  function AllSentReasoning(items: seq<SseItem>): string {
    if items == [] then ""
    else AllSentReasoning(items[..|items| - 1]) +
         var last := items[|items| - 1];
         if Speaks(last) then SentReasoning(last.chunk.choices[0].delta) else ""
  }

  /** An empty first field beside reasoning in the second. */
  predicate Hides(item: SseItem) {
    && Speaks(item)
    && item.chunk.choices[0].delta.reasoningContent == Some("")
    && item.chunk.choices[0].delta.reasoning.GetOr("") != ""
  }

  lemma {:induction false} HiddenReasoning(heard: seq<SseItem>)
    ensures |AllReasoningIn(heard)| <= |AllSentReasoning(heard)|
    ensures (forall i :: 0 <= i < |heard| ==> !Hides(heard[i])) ==> AllReasoningIn(heard) == AllSentReasoning(heard)
    ensures (exists i :: 0 <= i < |heard| && Hides(heard[i])) ==> |AllReasoningIn(heard)| < |AllSentReasoning(heard)|
  {
    if heard != [] {
      var front, last := heard[..|heard| - 1], heard[|heard| - 1];
      HiddenReasoning(front);
      if i :| 0 <= i < |heard| && Hides(heard[i]) && i < |heard| - 1 {
        assert Hides(front[i]);
      }
    }
  }

  /** All reasoning the server sent comes out exactly when no item before the stop pairs an
      empty first field with reasoning in the second. */
  lemma SecondReasoningField(items: seq<SseItem>, out: seq<StreamItem>)
    requires Whole(items, out)
    ensures ReasoningOf(out) == AllSentReasoning(HeardOf(items)) <==>
              forall i :: 0 <= i < StopsAt(items) ==> !Hides(items[i])
  {
    HiddenReasoning(HeardOf(items));
    if i :| 0 <= i < StopsAt(items) && Hides(items[i]) {
      assert Hides(HeardOf(items)[i]);
    }
  }

  const EMPTY_FIELD_FIRST := Data(Chunk([Choice(ChunkDelta(None, Some(""), Some("why"), []), Some("stop"))], false, None))

  lemma EmptyFieldAlone()
    ensures AllSentReasoning([EMPTY_FIELD_FIRST]) == "why" && AllReasoningIn([EMPTY_FIELD_FIRST]) == ""
    ensures FirstFinish([EMPTY_FIELD_FIRST]) == Some("stop")
  {
    var heard := [EMPTY_FIELD_FIRST];
    assert heard[..0] == [];
  }

  lemma EmptyFieldStops(items: seq<SseItem>)
    requires items == [EMPTY_FIELD_FIRST, Done]
    ensures StopsAt(items) == 1 && HeardOf(items) == [EMPTY_FIELD_FIRST]
  {
    assert items[..0] == [] && items[..1] == [EMPTY_FIELD_FIRST];
    NotYet(items, 0, None);
    StopsAtThe(items, 1);
  }

  /** One such stream: the reasoning "why" is sent, the stream completes, and none of it is left. */
  lemma ReasoningIsLost(items: seq<SseItem>, out: seq<StreamItem>)
    requires items == [EMPTY_FIELD_FIRST, Done] && Whole(items, out)
    ensures AllSentReasoning(HeardOf(items)) == "why" && ReasoningOf(out) == ""
    ensures out != [] && out[|out| - 1] == Event(Completion(Some("stop"), None))
  {
    EmptyFieldAlone();
    EmptyFieldStops(items);
  }
}
