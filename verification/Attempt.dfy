/** One provider attempt: the event loop that folds a normalized stream into text, reasoning,
    partial tool calls and at most one terminal (`crates/runtime/src/lib.rs`). */
module Attempts {
  import opened Basics
  import opened Conversations
  import opened Projection
  import opened Fragments

  /** A normalized provider event (token usage carries no conversation content). */
  datatype ProviderEvent =
    | MessageStart
    | TextDelta(text: string)
    | ReasoningDelta(text: string)
    | ToolCallDelta(fragment: Fragment)
    | Usage
    | Completion(finishReason: Option<string>, data: Option<Json>)
    | ProviderFault(reason: Option<string>)
    | Cancellation(reason: Option<string>)
    | Malformation(reason: Option<string>)
  {
    predicate Terminal() { Completion? || ProviderFault? || Cancellation? || Malformation? }
    predicate Delta() { TextDelta? || ReasoningDelta? || ToolCallDelta? }
  }

  /** What the stream yields: an event, or a transport error. */
  datatype StreamItem = Event(event: ProviderEvent) | TransportError

  datatype AttemptTerminal =
    | EndedNormally(finishReason: string, data: Option<Json>)
    | EndedInError(reason: string)
    | EndedCancelled(reason: string)
    | EndedMalformed(reason: string)

  datatype AttemptState = AttemptState(
    text: string, reasoning: string, partials: Partials, terminal: Option<AttemptTerminal>, visible: bool)

  datatype AttemptFailure = StreamBroken | EventAfterTerminal | BadFragment(failure: FragmentFailure)

  const FRESH_ATTEMPT := AttemptState("", "", map[], None, false)

  function Advance(state: AttemptState, item: StreamItem): Result<AttemptState, AttemptFailure> {
    if item.TransportError? then Err(StreamBroken)
    else if state.terminal.Some? then Err(EventAfterTerminal)
    else match item.event
      case MessageStart => Ok(state)
      case TextDelta(delta) => Ok(state.(text := state.text + delta, visible := true))
      case ReasoningDelta(delta) => Ok(state.(reasoning := state.reasoning + delta, visible := true))
      case ToolCallDelta(fragment) =>
        (match AddFragment(state.partials, fragment)
         case Ok(partials) => Ok(state.(partials := partials, visible := true))
         case Err(failure) => Err(BadFragment(failure)))
      case Usage => Ok(state)
      case Completion(reason, data) => Ok(state.(terminal := Some(EndedNormally(reason.GetOr("stop"), data))))
      case ProviderFault(reason) => Ok(state.(terminal := Some(EndedInError(reason.GetOr("provider_error")))))
      case Cancellation(reason) => Ok(state.(terminal := Some(EndedCancelled(reason.GetOr("cancelled")))))
      case Malformation(reason) =>
        Ok(state.(terminal := Some(EndedMalformed(reason.GetOr("malformed_provider_stream")))))
  }

  function Consumed(items: seq<StreamItem>): Result<AttemptState, AttemptFailure> {
    if items == [] then Ok(FRESH_ATTEMPT)
    else
      var before :- Consumed(items[..|items| - 1]);
      Advance(before, items[|items| - 1])
  }

  lemma {:induction false} FailureSticks(items: seq<StreamItem>, n: nat)
    requires n <= |items| && Consumed(items[..n]).Err?
    ensures Consumed(items) == Consumed(items[..n])
    decreases |items|
  {
    if n < |items| {
      var front := items[..|items| - 1];
      assert front[..n] == items[..n];
      FailureSticks(front, n);
    } else {
      assert items[..n] == items;
    }
  }

  method Consume(items: seq<StreamItem>) returns (r: Result<AttemptState, AttemptFailure>)
    ensures r == Consumed(items)
  {
    var state := FRESH_ATTEMPT;
    for i := 0 to |items|
      invariant Consumed(items[..i]) == Ok(state)
    {
      assert items[..i + 1][..i] == items[..i];
      var next := Advance(state, items[i]);
      if next.Err? {
        FailureSticks(items, i + 1);
        return next;
      }
      state := next.value;
    }
    assert items[..|items|] == items;
    return Ok(state);
  }

  // ----- What a consumed attempt holds -----

  function TextOf(items: seq<StreamItem>): string {
    if items == [] then ""
    else TextOf(items[..|items| - 1]) +
         var last := items[|items| - 1];
         if last.Event? && last.event.TextDelta? then last.event.text else ""
  }

  function ReasoningOf(items: seq<StreamItem>): string {
    if items == [] then ""
    else ReasoningOf(items[..|items| - 1]) +
         var last := items[|items| - 1];
         if last.Event? && last.event.ReasoningDelta? then last.event.text else ""
  }

  function FragmentsOf(items: seq<StreamItem>): seq<Fragment> {
    if items == [] then []
    else
      var front := FragmentsOf(items[..|items| - 1]);
      var last := items[|items| - 1];
      if last.Event? && last.event.ToolCallDelta? then front + [last.event.fragment] else front
  }

  ghost predicate AllEvents(items: seq<StreamItem>) {
    forall i :: 0 <= i < |items| ==> items[i].Event?
  }

  /** Only the last item may be a terminal event. */
  ghost predicate TerminalLast(items: seq<StreamItem>) {
    forall i :: 0 <= i < |items| - 1 ==> !(items[i].Event? && items[i].event.Terminal())
  }

  ghost predicate AnyDelta(items: seq<StreamItem>) {
    exists i :: 0 <= i < |items| && items[i].Event? && items[i].event.Delta()
  }

  ghost predicate EndsTerminal(items: seq<StreamItem>) {
    items != [] && items[|items| - 1].Event? && items[|items| - 1].event.Terminal()
  }

  ghost predicate Holds(state: AttemptState, items: seq<StreamItem>) {
    && state.text == TextOf(items)
    && state.reasoning == ReasoningOf(items)
    && Collect(FragmentsOf(items)) == Ok(state.partials)
    && (state.terminal.Some? <==> EndsTerminal(items))
    && (state.visible <==> AnyDelta(items))
  }

  /** An attempt is consumed exactly when it is all events, nothing follows its terminal and its
      tool-call fragments are stable; it then holds the concatenated text and reasoning, the
      collected fragments, and whether any of those was visible. */
  lemma {:induction false} ConsumedMeaning(items: seq<StreamItem>)
    ensures Consumed(items).Ok? <==> AllEvents(items) && TerminalLast(items) && Stable(FragmentsOf(items))
    ensures Consumed(items).Ok? ==> Holds(Consumed(items).value, items)
  {
    if items != [] {
      var front, last := items[..|items| - 1], items[|items| - 1];
      assert items == front + [last];
      ConsumedMeaning(front);
      CollectIsPerIndex(FragmentsOf(items));
      FrontSpoils(front, last);
      if Consumed(front).Ok? {
        SnocShape(front, last);
        FragmentsSnoc(front, last);
        if last.Event? && Consumed(front).value.terminal.None? {
          AdvanceHolds(Consumed(front).value, front, last);
        }
      }
    }
  }

  lemma FrontSpoils(front: seq<StreamItem>, last: StreamItem)
    ensures AllEvents(front + [last]) ==> AllEvents(front)
    ensures TerminalLast(front + [last]) ==> TerminalLast(front)
    ensures Stable(FragmentsOf(front + [last])) ==> Stable(FragmentsOf(front))
  {
    var items := front + [last];
    assert items[..|front|] == front;
    forall i | 0 <= i < |front| ensures front[i] == items[i] {}
    var a, b := FragmentsOf(front), FragmentsOf(items);
    assert a <= b;
    if Stable(b) {
      forall i, j | 0 <= i < j < |a| && a[i].index == a[j].index
        ensures Agree(a[i].id, a[j].id) && Agree(a[i].name, a[j].name)
      {
        assert b[i].index == b[j].index;
      }
    }
  }

  lemma SnocShape(front: seq<StreamItem>, last: StreamItem)
    requires AllEvents(front) && TerminalLast(front)
    ensures AllEvents(front + [last]) <==> last.Event?
    ensures TerminalLast(front + [last]) <==> !EndsTerminal(front)
    ensures EndsTerminal(front + [last]) <==> last.Event? && last.event.Terminal()
    ensures AnyDelta(front + [last]) <==> AnyDelta(front) || (last.Event? && last.event.Delta())
  {
    var items := front + [last];
    assert items[|front|] == last;
    if front != [] { assert items[|front| - 1] == front[|front| - 1]; }
    if AnyDelta(front) {
      var i :| 0 <= i < |front| && front[i].Event? && front[i].event.Delta();
      assert items[i].event.Delta();
    }
  }

  lemma FragmentsSnoc(front: seq<StreamItem>, last: StreamItem)
    ensures FragmentsOf(front + [last]) ==
            if last.Event? && last.event.ToolCallDelta? then FragmentsOf(front) + [last.event.fragment] else FragmentsOf(front)
    ensures TextOf(front + [last]) == TextOf(front) + if last.Event? && last.event.TextDelta? then last.event.text else ""
    ensures ReasoningOf(front + [last]) ==
            ReasoningOf(front) + if last.Event? && last.event.ReasoningDelta? then last.event.text else ""
  {
    assert (front + [last])[..|front|] == front;
  }

  lemma FragmentHolds(state: AttemptState, front: seq<StreamItem>, last: StreamItem)
    requires Collect(FragmentsOf(front)) == Ok(state.partials) && state.terminal.None?
    requires last.Event? && last.event.ToolCallDelta?
    ensures Advance(state, last).Ok? <==> Collect(FragmentsOf(front + [last])).Ok?
    ensures Advance(state, last).Ok? ==>
              Collect(FragmentsOf(front + [last])) == Ok(Advance(state, last).value.partials)
  {
    FragmentsSnoc(front, last);
    var fragments := FragmentsOf(front) + [last.event.fragment];
    assert fragments[..|fragments| - 1] == FragmentsOf(front);
  }

  lemma ContentHolds(state: AttemptState, front: seq<StreamItem>, last: StreamItem)
    requires state.text == TextOf(front) && state.reasoning == ReasoningOf(front)
    requires last.Event? && Advance(state, last).Ok?
    ensures Advance(state, last).value.text == TextOf(front + [last])
    ensures Advance(state, last).value.reasoning == ReasoningOf(front + [last])
  {
    FragmentsSnoc(front, last);
    assert TextOf(front) + "" == TextOf(front) && ReasoningOf(front) + "" == ReasoningOf(front);
  }

  lemma FlagsHold(state: AttemptState, front: seq<StreamItem>, last: StreamItem)
    requires AllEvents(front) && TerminalLast(front) && state.terminal.None? && (state.visible <==> AnyDelta(front))
    requires last.Event? && Advance(state, last).Ok?
    ensures Advance(state, last).value.terminal.Some? <==> EndsTerminal(front + [last])
    ensures Advance(state, last).value.visible <==> AnyDelta(front + [last])
  {
    SnocShape(front, last);
  }

  lemma OtherKeepsFragments(state: AttemptState, front: seq<StreamItem>, last: StreamItem)
    requires state.terminal.None? && last.Event? && !last.event.ToolCallDelta?
    ensures FragmentsOf(front + [last]) == FragmentsOf(front)
    ensures Advance(state, last).Ok? && Advance(state, last).value.partials == state.partials
  {
    FragmentsSnoc(front, last);
  }

  lemma AdvanceHolds(state: AttemptState, front: seq<StreamItem>, last: StreamItem)
    requires AllEvents(front) && TerminalLast(front) && Holds(state, front) && state.terminal.None? && last.Event?
    ensures Advance(state, last).Ok? <==> Collect(FragmentsOf(front + [last])).Ok?
    ensures Advance(state, last).Ok? ==> Holds(Advance(state, last).value, front + [last])
  {
    if last.event.ToolCallDelta? {
      FragmentHolds(state, front, last);
    } else {
      OtherKeepsFragments(state, front, last);
    }
    if Advance(state, last).Ok? {
      ContentHolds(state, front, last);
      FlagsHold(state, front, last);
    }
  }
}
