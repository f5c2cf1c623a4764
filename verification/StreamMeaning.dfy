/** What a normalised stream says, in terms of the chunks the server sent.

    `Normaliser` follows the source: it carries the finish reason along and judges each chunk by
    it. The statements here speak of the items and of the output alone. */
module StreamMeanings {
  import opened Basics
  import opened Fragments
  import opened Attempts
  import opened Normaliser
  import Turns
  import TurnMeanings

  // ----- The finish reason ------------------------------------------------------------

  /** Item `k` gives this finish reason. */
  predicate Gives(items: seq<SseItem>, k: nat, reason: string) {
    && k < |items| && items[k].Data? && items[k].chunk.choices != []
    && items[k].chunk.choices[0].finish == Some(reason)
  }

  /** Among the first `n` items, `k` is the first to give a finish reason, and gives this one. */
  ghost predicate FinishedBy(items: seq<SseItem>, n: nat, k: nat, reason: string) {
    && k < n && Gives(items, k, reason)
    && forall j, other :: 0 <= j < k ==> !Gives(items, j, other)
  }

  ghost predicate Finished(items: seq<SseItem>, n: nat, reason: string) {
    exists k :: FinishedBy(items, n, k, reason)
  }

  ghost predicate NoFinish(items: seq<SseItem>, n: nat) {
    forall k, reason :: 0 <= k < n ==> !Gives(items, k, reason)
  }

  lemma FirstFinishStep(items: seq<SseItem>, n: nat)
    requires n < |items|
    ensures FirstFinish(items[..n + 1])
            == if FirstFinish(items[..n]).Some? then FirstFinish(items[..n])
               else if Speaks(items[n]) then items[n].chunk.choices[0].finish else None
  {
    assert items[..n + 1] == items[..n] + [items[n]];
    HeardSnoc(items[..n], items[n]);
  }

  /** `first` is the first finish reason among the first `n` items, if they give one. */
  ghost predicate StandsFirst(items: seq<SseItem>, n: nat, first: Option<string>) {
    match first
    case None => NoFinish(items, n)
    case Some(reason) => Finished(items, n, reason)
  }

  lemma {:induction false} FirstFinishStands(items: seq<SseItem>, n: nat)
    requires n <= |items|
    ensures StandsFirst(items, n, FirstFinish(items[..n]))
  {
    if n > 0 {
      FirstFinishStands(items, n - 1);
      FirstFinishStep(items, n - 1);
      FinishOneMore(items, n - 1, FirstFinish(items[..n - 1]));
    }
  }

  lemma FinishOneMore(items: seq<SseItem>, n: nat, first: Option<string>)
    requires n < |items| && StandsFirst(items, n, first)
    ensures StandsFirst(items, n + 1, if first.Some? then first else if Speaks(items[n]) then items[n].chunk.choices[0].finish else None)
  {
    if first.Some? {
      FinishStays(items, n, first.value);
    } else if Speaks(items[n]) && items[n].chunk.choices[0].finish.Some? {
      assert FinishedBy(items, n + 1, n, items[n].chunk.choices[0].finish.value);
    }
  }

  lemma FinishStays(items: seq<SseItem>, n: nat, reason: string)
    requires Finished(items, n, reason)
    ensures Finished(items, n + 1, reason)
  {
    var k :| FinishedBy(items, n, k, reason);
    assert FinishedBy(items, n + 1, k, reason);
  }

  lemma FinishedOnce(items: seq<SseItem>, n: nat, reason: string, other: string)
    requires Finished(items, n, reason) && Finished(items, n, other)
    ensures reason == other && !NoFinish(items, n)
  {
    var k :| FinishedBy(items, n, k, reason);
    var m :| FinishedBy(items, n, m, other);
    assert k == m;
  }

  lemma FirstFinishMeans(items: seq<SseItem>, n: nat)
    requires n <= |items|
    ensures FirstFinish(items[..n]).None? <==> NoFinish(items, n)
    ensures forall reason :: FirstFinish(items[..n]) == Some(reason) <==> Finished(items, n, reason)
  {
    FirstFinishStands(items, n);
    var first := FirstFinish(items[..n]);
    if first.Some? { FinishedOnce(items, n, first.value, first.value); }
    forall reason | Finished(items, n, reason) ensures first == Some(reason) {
      FinishedOnce(items, n, reason, if first.Some? then first.value else reason);
    }
  }

  // ----- Where a stream stops ---------------------------------------------------------

  predicate Says(delta: ChunkDelta) {
    || (delta.content.Some? && delta.content.value != "")
    || (delta.reasoningContent.Some? && delta.reasoningContent.value != "")
    || (delta.reasoning.Some? && delta.reasoning.value != "")
    || delta.calls != []
  }

  predicate Fails(item: SseItem) { item.Data? && item.chunk.error.Some? }

  predicate Crowded(item: SseItem) { item.Data? && item.chunk.error.None? && |item.chunk.choices| > 1 }

  /** One choice that, after a finish reason, still says something or gives another reason. */
  ghost predicate Contradicts(items: seq<SseItem>, i: nat) {
    && i < |items| && items[i].Data? && items[i].chunk.error.None? && |items[i].chunk.choices| == 1
    && exists reason :: Finished(items, i, reason)
         && (Says(items[i].chunk.choices[0].delta)
             || (items[i].chunk.choices[0].finish.Some? && items[i].chunk.choices[0].finish.value != reason))
  }

  ghost predicate Stops(items: seq<SseItem>, i: nat) {
    && i < |items|
    && (|| items[i].Broken? || items[i].Done? || items[i].Unreadable?
        || Fails(items[i]) || Crowded(items[i]) || Contradicts(items, i))
  }

  /** `n` is the first item that stops the stream, or its end. */
  ghost predicate FirstStop(items: seq<SseItem>, n: nat) {
    && n <= |items| && (n < |items| ==> Stops(items, n))
    && forall i :: 0 <= i < n ==> !Stops(items, i)
  }

  lemma ContradictsMeans(items: seq<SseItem>, i: nat)
    requires i < |items| && items[i].Data? && items[i].chunk.error.None? && |items[i].chunk.choices| == 1
    ensures var finish, choice := FirstFinish(items[..i]), items[i].chunk.choices[0];
            Contradicts(items, i) <==> finish.Some? && (!choice.delta.Hollow() || (choice.finish.Some? && choice.finish != finish))
  {
    FirstFinishMeans(items, i);
    var finish := FirstFinish(items[..i]);
    if finish.Some? { assert Finished(items, i, finish.value); }
  }

  lemma StopsMeans(items: seq<SseItem>, i: nat)
    requires i < |items|
    ensures StopsHere(items, i) <==> Stops(items, i)
  {
    if items[i].Data? && items[i].chunk.error.None? && |items[i].chunk.choices| == 1 { ContradictsMeans(items, i); }
  }

  lemma FirstStopIsStopsAt(items: seq<SseItem>, n: nat)
    requires FirstStop(items, n)
    ensures StopsAt(items) == n
  {
    forall i | 0 <= i < |items| ensures StopsHere(items, i) <==> Stops(items, i) { StopsMeans(items, i); }
    StopsAtThe(items, n);
  }

  // ----- How it closes ----------------------------------------------------------------

  /** `last` is the close that the stopping item, or the end of the stream, calls for. */
  ghost predicate ClosedBy(items: seq<SseItem>, n: nat, last: StreamItem)
    requires n <= |items|
  {
    && (last == TransportError <==> n < |items| && items[n].Broken?)
    && (last.Event? && last.event.ProviderFault? <==> n < |items| && Fails(items[n]))
    && (last.Event? && last.event.Malformation? <==>
          n < |items| && (items[n].Unreadable? || Crowded(items[n]) || Contradicts(items, n)))
    && (last.Event? && last.event.Completion? <==> n == |items| || items[n].Done?)
    && (last.Event? && last.event.Completion? ==>
          && (forall reason :: Finished(items, n, reason) ==> last.event == Completion(Some(reason), None))
          && (NoFinish(items, n) ==> last.event == Completion(Some("stop"), None)))
    && (last.Event? && last.event.ProviderFault? ==> last.event.reason == items[n].chunk.error)
    && (last.Event? && last.event.Malformation? ==>
          last.event.reason == Some(if items[n].Unreadable? then "invalid_chat_completion_chunk: " + items[n].detail
                                    else if Crowded(items[n]) then "multiple_chat_completion_choices_are_not_supported"
                                    else "provider_emitted_data_after_finish_reason"))
  }

  lemma ClosingMeans(items: seq<SseItem>, n: nat)
    requires FirstStop(items, n)
    ensures Closing(items).None? <==> n == |items| && NoFinish(items, n)
    ensures Closing(items).Some? ==> ClosedBy(items, n, Closing(items).value)
  {
    FirstStopIsStopsAt(items, n);
    FirstFinishMeans(items, n);
  }

  /** How a stream closes, `n` being the first item that stops it or its end. A broken transport, an
      error, an unreadable chunk, several choices and data after the finish each show as such.
      `[DONE]` completes it with the first finish reason given before, or "stop" if there was none;
      so does the end of the stream, but without a reason it leaves the output open. */
  lemma HowAStreamCloses(items: seq<SseItem>, out: seq<StreamItem>, n: nat)
    requires Whole(items, out) && FirstStop(items, n)
    ensures if n == |items| && NoFinish(items, n) then forall i :: 0 <= i < |out| ==> !Ends(out[i])
            else out != [] && ClosedBy(items, n, out[|out| - 1])
  {
    ClosingMeans(items, n);
  }

  /** Every stream has such a first stop. */
  lemma SomeFirstStop(items: seq<SseItem>)
    ensures FirstStop(items, StopsAt(items))
  {
    forall i | 0 <= i < |items| ensures StopsHere(items, i) <==> Stops(items, i) { StopsMeans(items, i); }
  }

  // ----- What it carries --------------------------------------------------------------

  /** The pieces of tool calls that the chunks carry, in order. */
  function CallsSent(items: seq<SseItem>): seq<CallDelta> {
    if items == [] then []
    else
      var last := items[|items| - 1];
      CallsSent(items[..|items| - 1])
      + if last.Data? && last.chunk.choices != [] then last.chunk.choices[0].delta.calls else []
  }

  predicate SamePiece(fragment: Fragment, sent: CallDelta) {
    && fragment.index == sent.index && fragment.id == sent.id && fragment.name == sent.name
    && fragment.arguments == if sent.arguments.Some? then sent.arguments.value else ""
  }

  lemma {:induction false} FragmentsAreThePieces(items: seq<SseItem>)
    ensures |AllFragmentsIn(items)| == |CallsSent(items)|
    ensures forall j :: 0 <= j < |CallsSent(items)| ==> SamePiece(AllFragmentsIn(items)[j], CallsSent(items)[j])
  {
    if items != [] { FragmentsAreThePieces(items[..|items| - 1]); }
  }

  /** The fragments the runtime assembles are the pieces sent before the stop, one for one. */
  lemma PiecesArePassedOn(items: seq<SseItem>, out: seq<StreamItem>, n: nat)
    requires Whole(items, out) && FirstStop(items, n)
    ensures |FragmentsOf(out)| == |CallsSent(items[..n])|
    ensures forall j :: 0 <= j < |CallsSent(items[..n])| ==> SamePiece(FragmentsOf(out)[j], CallsSent(items[..n])[j])
  {
    FirstStopIsStopsAt(items, n);
    FragmentsAreThePieces(items[..n]);
  }

  // ----- What becomes of the turn -----------------------------------------------------

  /** The server completed its reply, and gave this finish reason or none. */
  ghost predicate CompletedWith(items: seq<SseItem>, n: nat, reason: string) {
    && n <= |items| && (n == |items| || items[n].Done?)
    && (Finished(items, n, reason) || (n < |items| && NoFinish(items, n) && reason == "stop"))
  }

  /** A reply without tool calls completes the turn exactly if the server completed it and its first
      finish reason, if it gave any, was "stop"; with any other reason the turn is incomplete. */
  lemma ReplyDecidesTheTurn(items: seq<SseItem>, out: seq<StreamItem>, n: nat, fallback: bool)
    requires Whole(items, out) && FirstStop(items, n) && Consumed(out).Ok? && CallsSent(items[..n]) == []
    ensures var end := Turns.Conclusion(fallback, Consumed(out).value);
            && (end.Some? && end.value.disposition.TurnCompleted? <==> CompletedWith(items, n, "stop"))
            && (end.Some? && end.value.disposition.TurnIncomplete? <==>
                  exists reason :: reason != "stop" && CompletedWith(items, n, reason))
            && (end.Some? && (end.value.disposition.TurnCompleted? || end.value.disposition.TurnIncomplete?) ==>
                  end.value.response == Some(TextIn(items[..n])))
  {
    HowAStreamCloses(items, out, n);
    PiecesArePassedOn(items, out, n);
    FirstStopIsStopsAt(items, n);
    TurnMeanings.ConclusionMeans(fallback, out);
    CompletedOnce(items, n);
  }

  lemma CompletedOnce(items: seq<SseItem>, n: nat)
    requires n <= |items|
    ensures forall a, b :: CompletedWith(items, n, a) && CompletedWith(items, n, b) ==> a == b
    ensures n == |items| || items[n].Done? ==>
              (NoFinish(items, n) && (n == |items| || CompletedWith(items, n, "stop"))) || exists reason :: CompletedWith(items, n, reason)
  {
    FirstFinishMeans(items, n);
    var first := FirstFinish(items[..n]);
    if first.Some? && (n == |items| || items[n].Done?) { assert CompletedWith(items, n, first.value); }
  }
}
