/** How a turn ends, goes on and what it records, in terms of the events the provider streamed.

    `Turns` follows the source: it folds an attempt into a state and reads the decision off that
    state. The statements here speak of the streamed items alone. */
module TurnMeanings {
  import opened Basics
  import opened Conversations
  import opened Projection
  import opened Fragments
  import opened ToolHosts
  import opened Attempts
  import opened Journals
  import opened Turns

  // ----- Reading an attempt -----

  /** The event an attempt's stream ends with, if it ends with one. */
  function LastEvent(items: seq<StreamItem>): Option<ProviderEvent> {
    if items != [] && items[|items| - 1].Event? then Some(items[|items| - 1].event) else None
  }

  /** Every item is an event, nothing follows a terminal event, and no two tool-call fragments
      contradict each other. */
  ghost predicate Readable(items: seq<StreamItem>) {
    AllEvents(items) && TerminalLast(items) && Stable(FragmentsOf(items))
  }

  lemma LastDecides(items: seq<StreamItem>)
    requires Consumed(items).Ok?
    ensures EndsTerminal(items) ==>
              var before := Consumed(items[..|items| - 1]);
              before.Ok? && before.value.terminal.None? && Advance(before.value, items[|items| - 1]) == Consumed(items)
    ensures !EndsTerminal(items) ==> Consumed(items).value.terminal.None?
  {
    ConsumedMeaning(items);
  }

  lemma {:induction false} NoCallsMeansNoFragments(items: seq<StreamItem>)
    requires Consumed(items).Ok?
    ensures Consumed(items).value.partials == map[] <==> FragmentsOf(items) == []
  {
    ConsumedMeaning(items);
    var fragments := FragmentsOf(items);
    if fragments != [] {
      var last := fragments[|fragments| - 1];
      assert last.index in Collect(fragments).value;
    }
  }

  /** The first item that cannot be consumed tells which failure the attempt reports. */
  lemma {:induction false} FirstFaultIsReported(items: seq<StreamItem>, n: nat)
    requires n < |items| && Readable(items[..n]) && !Readable(items[..n + 1])
    ensures items[n].TransportError? ==> Consumed(items) == Err(StreamBroken)
    ensures items[n].Event? && EndsTerminal(items[..n]) ==> Consumed(items) == Err(EventAfterTerminal)
    ensures items[n].Event? && !EndsTerminal(items[..n]) ==>
              items[n].event.ToolCallDelta? && Consumed(items) == Err(BadFragment(ChangedMidStream(items[n].event.fragment.index)))
  {
    var front, upto := items[..n], items[..n + 1];
    ConsumedMeaning(front);
    ConsumedMeaning(upto);
    assert upto == front + [items[n]] && upto[..|upto| - 1] == front;
    FailureSticks(items, n + 1);
  }

  // ----- Going on -----

  /** The provider finished its message and had streamed pieces of tool calls in it. */
  ghost predicate CallsTools(start: AttemptStart) {
    && start.Streaming? && FragmentsOf(start.items) != []
    && LastEvent(start.items).Some? && LastEvent(start.items).value.Completion?
  }

  /** The provider failed before it showed anything, and another attempt is allowed then. */
  ghost predicate FallsBack(start: AttemptStart) {
    && start.Streaming? && start.fallbackBeforeOutput && !AnyDelta(start.items)
    && LastEvent(start.items).Some? && LastEvent(start.items).value.ProviderFault?
  }

  // ----- Ending -----

  /** The disposition of a turn whose last attempt streamed these items. */
  ghost predicate EndsAs(items: seq<StreamItem>, disposition: Disposition) {
    var last := LastEvent(items);
    && (disposition == TurnCompleted <==>
          && FragmentsOf(items) == [] && last.Some? && last.value.Completion?
          && (last.value.finishReason.None? || last.value.finishReason.value == "stop"))
    && (disposition == TurnIncomplete <==>
          && FragmentsOf(items) == [] && last.Some? && last.value.Completion?
          && last.value.finishReason.Some? && last.value.finishReason.value != "stop")
    && (disposition == TurnCancelled <==> last.Some? && last.value.Cancellation?)
    && (disposition == TurnInterrupted <==> last.Some? && last.value.ProviderFault? && AnyDelta(items))
    && (disposition == TurnFailed <==>
          || !EndsTerminal(items)
          || last.value.Malformation?
          || (last.value.ProviderFault? && !AnyDelta(items)))
  }

  /** What the terminal says besides: the whole text with its finish reason, or the reason given
      and, where it matters, whether anything had been shown. */
  ghost predicate Carries(items: seq<StreamItem>, terminal: TurnTerminal) {
    if !EndsTerminal(items) then
      && terminal.response.None? && terminal.finishReason.None?
      && terminal.reason == Some("provider_stream_truncated") && terminal.visibleOutput == Some(AnyDelta(items))
    else match LastEvent(items).value
      case Completion(reason, _) =>
        && terminal.response == Some(TextOf(items))
        && terminal.finishReason == Some(if reason.Some? then reason.value else "stop")
        && terminal.reason.None? && terminal.visibleOutput.None?
      case ProviderFault(reason) =>
        && terminal.response.None? && terminal.finishReason.None?
        && terminal.reason == Some(if reason.Some? then reason.value else "provider_error")
        && terminal.visibleOutput == Some(AnyDelta(items))
      case Cancellation(reason) =>
        && terminal.response.None? && terminal.finishReason.None? && terminal.visibleOutput.None?
        && terminal.reason == Some(if reason.Some? then reason.value else "cancelled")
      case Malformation(reason) =>
        && terminal.response.None? && terminal.finishReason.None? && terminal.visibleOutput.None?
        && terminal.reason == Some(if reason.Some? then reason.value else "malformed_provider_stream")
      case _ => false
  }

  lemma ConclusionMeans(fallback: bool, items: seq<StreamItem>)
    requires Consumed(items).Ok?
    ensures var start, conclusion := Streaming(fallback, items), Conclusion(fallback, Consumed(items).value);
            && (conclusion.None? <==> CallsTools(start) || FallsBack(start))
            && (conclusion.Some? ==> EndsAs(items, conclusion.value.disposition) && Carries(items, conclusion.value))
    ensures EndsAsking(Consumed(items).value) <==> CallsTools(Streaming(fallback, items))
  {
    ConsumedMeaning(items);
    LastDecides(items);
    NoCallsMeansNoFragments(items);
  }

  // ----- Going on, attempt by attempt -----

  /** Some calls can be read off the streamed fragments. */
  ghost predicate SpellsCalls(codec: Codec, items: seq<StreamItem>) {
    exists calls :: ReadAs(codec, FragmentsOf(items), calls)
  }

  /** Some calls can be read off the attempt, and the next of the broker's rounds serves them. */
  ghost predicate IsServed(codec: Codec, request: TurnRequest, attempts: seq<AttemptStart>, broker: seq<BrokerRound>, i: nat)
    requires i < |attempts| && attempts[i].Streaming?
  {
    exists calls ::
      && ReadAs(codec, FragmentsOf(attempts[i].items), calls)
      && Rounds(attempts, i) < |broker|
      && RoundOk(request.scope, calls, Issued(codec, request.scope, attempts, i), broker[Rounds(attempts, i)])
  }

  /** Attempt `i` may be made and leaves the turn open. */
  ghost predicate LeavesOpen(codec: Codec, request: TurnRequest, attempts: seq<AttemptStart>, broker: seq<BrokerRound>,
                             maxAttempts: nat, i: nat)
  {
    && i < maxAttempts && i < |attempts| && attempts[i].Streaming? && Readable(attempts[i].items)
    && (FallsBack(attempts[i]) || (CallsTools(attempts[i]) && IsServed(codec, request, attempts, broker, i)))
  }

  lemma CallsAreRead(codec: Codec, items: seq<StreamItem>, calls: seq<ToolCall>)
    requires Consumed(items).Ok?
    ensures FinishCalls(codec, Consumed(items).value.partials) == Ok(calls) <==> ReadAs(codec, FragmentsOf(items), calls)
  {
    ConsumedMeaning(items);
    FinishedIsRead(codec, FragmentsOf(items), calls);
  }

  lemma ServedMeans(codec: Codec, request: TurnRequest, attempts: seq<AttemptStart>, broker: seq<BrokerRound>, i: nat)
    requires i < |attempts| && attempts[i].Streaming? && Consumed(attempts[i].items).Ok?
    ensures var finished, k := FinishCalls(codec, Consumed(attempts[i].items).value.partials), Rounds(attempts, i);
            && (finished.Ok? <==> SpellsCalls(codec, attempts[i].items))
            && (IsServed(codec, request, attempts, broker, i) <==>
                  finished.Ok? && k < |broker| && RoundOk(request.scope, finished.value, Issued(codec, request.scope, attempts, i), broker[k]))
  {
    var items := attempts[i].items;
    forall calls ensures FinishCalls(codec, Consumed(items).value.partials) == Ok(calls) <==> ReadAs(codec, FragmentsOf(items), calls) {
      CallsAreRead(codec, items, calls);
    }
    var finished := FinishCalls(codec, Consumed(items).value.partials);
    if finished.Ok? { assert ReadAs(codec, FragmentsOf(items), finished.value); }
  }

  /** What the loop does at attempt `i`, in terms of what that attempt streamed. */
  ghost predicate StopsAs(codec: Codec, request: TurnRequest, attempts: seq<AttemptStart>, broker: seq<BrokerRound>,
                          maxAttempts: nat, i: nat, stop: Option<Stop>)
    requires i <= |attempts|
  {
    && (stop.None? <==> LeavesOpen(codec, request, attempts, broker, maxAttempts, i))
    && (stop == Some(Exhausted) <==> maxAttempts <= i)
    && (stop == Some(Unavailable) <==> i < maxAttempts && (i == |attempts| || attempts[i].StartFailed?))
    && (stop.Some? && stop.value.Broken? <==>
          i < maxAttempts && i < |attempts| && attempts[i].Streaming? && !Readable(attempts[i].items))
    && (i < maxAttempts && i < |attempts| && attempts[i].Streaming? && Readable(attempts[i].items) ==>
          && (stop.Some? && stop.value.Garbled? <==>
                CallsTools(attempts[i]) && !SpellsCalls(codec, attempts[i].items))
          && (stop == Some(Refused) <==>
                && CallsTools(attempts[i]) && SpellsCalls(codec, attempts[i].items)
                && !IsServed(codec, request, attempts, broker, i))
          && (stop.Some? && stop.value.Concludes? <==> !CallsTools(attempts[i]) && !FallsBack(attempts[i])))
    && (stop.Some? && stop.value.Concludes? ==>
          && i < maxAttempts && i < |attempts| && attempts[i].Streaming? && Readable(attempts[i].items)
          && EndsAs(attempts[i].items, stop.value.terminal.disposition) && Carries(attempts[i].items, stop.value.terminal))
  }

  lemma StopMeans(codec: Codec, request: TurnRequest, attempts: seq<AttemptStart>, broker: seq<BrokerRound>, maxAttempts: nat, i: nat)
    requires i <= |attempts|
    ensures StopsAs(codec, request, attempts, broker, maxAttempts, i, StopAt(codec, request, attempts, broker, maxAttempts, i))
  {
    if i < |attempts| && attempts[i].Streaming? {
      ConsumedMeaning(attempts[i].items);
      if Consumed(attempts[i].items).Ok? {
        ConclusionMeans(attempts[i].fallbackBeforeOutput, attempts[i].items);
        ServedMeans(codec, request, attempts, broker, i);
      }
    }
  }

  /** `n` is the first attempt that does not leave the turn open. */
  ghost predicate OpenUpTo(codec: Codec, request: TurnRequest, attempts: seq<AttemptStart>, broker: seq<BrokerRound>,
                           maxAttempts: nat, n: nat)
  {
    && n <= |attempts| && !LeavesOpen(codec, request, attempts, broker, maxAttempts, n)
    && forall i :: 0 <= i < n ==> LeavesOpen(codec, request, attempts, broker, maxAttempts, i)
  }

  lemma FirstStopMeans(codec: Codec, request: TurnRequest, attempts: seq<AttemptStart>, broker: seq<BrokerRound>, maxAttempts: nat)
    ensures OpenUpTo(codec, request, attempts, broker, maxAttempts, FirstStop(codec, request, attempts, broker, maxAttempts))
  {
    var n := FirstStop(codec, request, attempts, broker, maxAttempts);
    StopMeans(codec, request, attempts, broker, maxAttempts, n);
    forall i | 0 <= i < n ensures LeavesOpen(codec, request, attempts, broker, maxAttempts, i) {
      GoesOnAt(codec, request, attempts, broker, maxAttempts, i, n);
      StopMeans(codec, request, attempts, broker, maxAttempts, i);
    }
  }

  lemma FirstIsFirstStop(codec: Codec, request: TurnRequest, attempts: seq<AttemptStart>, broker: seq<BrokerRound>, maxAttempts: nat, n: nat)
    requires OpenUpTo(codec, request, attempts, broker, maxAttempts, n)
    ensures n == FirstStop(codec, request, attempts, broker, maxAttempts)
  {
    FirstStopMeans(codec, request, attempts, broker, maxAttempts);
  }

  /** A turn is not started at all without an attempt allowed, another protocol, a nameless model, an
      empty scope, or a conversation that does not end with the user. */
  lemma WhichTurnsAreInvalid(codec: Codec, request: TurnRequest, attempts: seq<AttemptStart>, scripted: bool, broker: seq<BrokerRound>,
                             maxAttempts: nat, r: Result<TurnOutcome, TurnFailure>)
    requires TurnRun(codec, request, attempts, scripted, broker, maxAttempts, FirstStop(codec, request, attempts, broker, maxAttempts), r)
    ensures r == Err(InvalidTurnRequest) <==>
              || maxAttempts == 0 || !request.chatCompletions || |request.model| == 0 || |request.scope| == 0
              || |request.conversation| == 0 || !request.conversation[|request.conversation| - 1].UserMessage?
  {
  }

  /** Which failure a valid turn reports, `n` being its first attempt that does not leave it open:
      out of attempts, no stream, a stream that cannot be read, no calls in it, calls nobody serves. */
  lemma WhyATurnFails(codec: Codec, request: TurnRequest, attempts: seq<AttemptStart>, scripted: bool, broker: seq<BrokerRound>,
                      maxAttempts: nat, n: nat, r: Result<TurnOutcome, TurnFailure>)
    requires maxAttempts > 0 && request.Valid() && OpenUpTo(codec, request, attempts, broker, maxAttempts, n)
    requires TurnRun(codec, request, attempts, scripted, broker, maxAttempts, FirstStop(codec, request, attempts, broker, maxAttempts), r)
    ensures r != Err(InvalidTurnRequest)
    ensures r == Err(AttemptsExhausted) <==> n == maxAttempts
    ensures r == Err(ProviderFailed) <==> n < maxAttempts && (n == |attempts| || attempts[n].StartFailed?)
    ensures r.Err? && r.error.AttemptFailed? <==>
              n < maxAttempts && n < |attempts| && attempts[n].Streaming? && !Readable(attempts[n].items)
    ensures n < maxAttempts && n < |attempts| && attempts[n].Streaming? && Readable(attempts[n].items) ==>
              && (r.Err? && r.error.CallsRejected? <==>
                    CallsTools(attempts[n]) && !SpellsCalls(codec, attempts[n].items))
              && (r.Err? && r.error.HostRefused? <==>
                    && CallsTools(attempts[n]) && SpellsCalls(codec, attempts[n].items)
                    && !IsServed(codec, request, attempts, broker, n))
              && (r.Ok? || r == Err(UnusedAttempts) || r.error.Unparseable? <==> !CallsTools(attempts[n]) && !FallsBack(attempts[n]))
              && (r == Err(UnusedAttempts) <==>
                    !CallsTools(attempts[n]) && !FallsBack(attempts[n]) && scripted && n + 1 != |attempts|)
  {
    FirstIsFirstStop(codec, request, attempts, broker, maxAttempts, n);
    StopMeans(codec, request, attempts, broker, maxAttempts, n);
    if 0 < n { assert LeavesOpen(codec, request, attempts, broker, maxAttempts, n - 1); }
  }

  // ----- What a turn records -----

  /** The conversation as a request carries it: behind the system prompt, if there is one. */
  predicate Behind(system: Option<string>, conversation: seq<ProviderMessage>, whole: seq<ProviderMessage>) {
    match system
    case None => whole == conversation
    case Some(prompt) => whole == [SystemMessage(prompt)] + conversation
  }

  function Given(text: string): Option<string> {
    if text == "" then None else Some(text)
  }

  /** `message` tells the model what became of this call: the broker's own words for a success,
      the failure notice otherwise. */
  ghost predicate AnswersIt(codec: Codec, scope: string, call: ToolCall, terminals: seq<Terminal>, message: ProviderMessage) {
    exists terminal ::
      && terminal in terminals && terminal.callId == call.id
      && message == ToolMessage(call.id, StatusName(terminal.status),
                                if terminal.status == Succeeded then terminal.content
                                else codec.failure(scope + ":" + call.id, terminal.content, StatusName(terminal.status)),
                                scope + ":" + call.id)
  }

  /** One tool round: the provider's text, reasoning and replay data with the calls its fragments
      spell, then an answer to each call, in call order. */
  ghost predicate RecordsRound(codec: Codec, scope: string, items: seq<StreamItem>, terminals: seq<Terminal>, added: seq<ProviderMessage>) {
    exists calls ::
      && ReadAs(codec, FragmentsOf(items), calls) && |added| == 1 + |calls|
      && LastEvent(items).Some? && LastEvent(items).value.Completion?
      && added[0] == AssistantMessage(Given(TextOf(items)), Given(ReasoningOf(items)), EncodeCalls(codec, calls), LastEvent(items).value.data)
      && forall i :: 0 <= i < |calls| ==> AnswersIt(codec, scope, calls[i], terminals, added[1 + i])
  }

  /** From one request to the next. */
  ghost predicate Continues(codec: Codec, scope: string, start: AttemptStart, broker: seq<BrokerRound>, k: nat,
                            before: seq<ProviderMessage>, after: seq<ProviderMessage>)
  {
    if CallsTools(start) then
      && k < |broker| && broker[k].terminals.Ok? && before <= after
      && RecordsRound(codec, scope, start.items, broker[k].terminals.value, after[|before|..])
    else FallsBack(start) && after == before
  }

  lemma RoundIsRecorded(codec: Codec, scope: string, start: AttemptStart, round: BrokerRound, added: seq<ProviderMessage>)
    requires start.Streaming? && Consumed(start.items).Ok?
    requires ToolRound(codec, scope, Consumed(start.items).value, round, added)
    ensures round.terminals.Ok? && RecordsRound(codec, scope, start.items, round.terminals.value, added)
  {
    var items, state := start.items, Consumed(start.items).value;
    var calls, terminals := FinishCalls(codec, state.partials).value, round.terminals.value;
    CallsAreRead(codec, items, calls);
    RequestIsRecorded(codec, items, calls);
    forall i | 0 <= i < |calls| ensures AnswersIt(codec, scope, calls[i], terminals, added[1 + i]) {
      AnswerIsRecorded(codec, scope, calls[i], terminals, OrderedFor(calls, terminals)[i], added[1 + i]);
    }
  }

  lemma RequestIsRecorded(codec: Codec, items: seq<StreamItem>, calls: seq<ToolCall>)
    requires Consumed(items).Ok? && EndsAsking(Consumed(items).value)
    ensures var state := Consumed(items).value;
            && LastEvent(items).Some? && LastEvent(items).value.Completion?
            && ToolRequestMessage(codec, state.text, state.reasoning, calls, state.terminal.value.data)
               == AssistantMessage(Given(TextOf(items)), Given(ReasoningOf(items)), EncodeCalls(codec, calls), LastEvent(items).value.data)
  {
    ConsumedMeaning(items);
    LastDecides(items);
  }

  lemma AnswerIsRecorded(codec: Codec, scope: string, call: ToolCall, terminals: seq<Terminal>, terminal: Terminal, message: ProviderMessage)
    requires terminal in terminals && message == ResultMessage(codec, terminal) && AnswersCall(message, scope, call.id)
    ensures AnswersIt(codec, scope, call, terminals, message)
  {
  }

  lemma StepContinues(codec: Codec, scope: string, start: AttemptStart, broker: seq<BrokerRound>, k: nat,
                      before: seq<ProviderMessage>, after: seq<ProviderMessage>)
    requires RequestStep(codec, scope, start, broker, k, before, after)
    ensures Continues(codec, scope, start, broker, k, before, after)
  {
    var state := Consumed(start.items).value;
    ConclusionMeans(start.fallbackBeforeOutput, start.items);
    ConsumedMeaning(start.items);
    LastDecides(start.items);
    if !state.terminal.value.EndedInError? {
      RoundIsRecorded(codec, scope, start, broker[k], after[|before|..]);
    }
  }

  /** How a turn that comes to an end went. Each attempt but the last called tools, and was answered
      by the broker's next round, or fell back; each request extends the one before accordingly. The
      last attempt did neither: its events give the disposition, what the terminal carries, and the
      one message recorded if it is an answer. */
  lemma HowATurnEnds(codec: Codec, request: TurnRequest, attempts: seq<AttemptStart>, scripted: bool, broker: seq<BrokerRound>,
                     maxAttempts: nat, r: Result<TurnOutcome, TurnFailure>)
    requires TurnRun(codec, request, attempts, scripted, broker, maxAttempts, FirstStop(codec, request, attempts, broker, maxAttempts), r)
    requires r.Ok?
    ensures var n := |r.value.requests| - 1;
            && 0 <= n < |attempts| && attempts[n].Streaming? && Readable(attempts[n].items)
            && OpenUpTo(codec, request, attempts, broker, maxAttempts, n)
            && !CallsTools(attempts[n]) && !FallsBack(attempts[n])
            && EndsAs(attempts[n].items, r.value.terminal.disposition) && Carries(attempts[n].items, r.value.terminal)
            && Behind(request.system, request.conversation, r.value.requests[0])
            && Behind(request.system, Rebuild(codec, r.value.intents), r.value.requests[n] + Answer(attempts[n].items))
    ensures forall i :: 0 <= i < |r.value.requests| - 1 ==>
              Continues(codec, request.scope, attempts[i], broker, Rounds(attempts, i), r.value.requests[i], r.value.requests[i + 1])
  {
    var n, requests := |r.value.requests| - 1, r.value.requests;
    FirstStopMeans(codec, request, attempts, broker, maxAttempts);
    StopMeans(codec, request, attempts, broker, maxAttempts, n);
    FinalIsRecorded(attempts[n], requests[n], Prompted(request.system, Rebuild(codec, r.value.intents)), r.value.terminal);
    forall i | 0 <= i < n
      ensures Continues(codec, request.scope, attempts[i], broker, Rounds(attempts, i), requests[i], requests[i + 1])
    {
      assert GrewAt(codec, request.scope, attempts, broker, requests, i);
      StepContinues(codec, request.scope, attempts[i], broker, Rounds(attempts, i), requests[i], requests[i + 1]);
    }
  }

  /** The message the last attempt adds, if it finished one. */
  function Answer(items: seq<StreamItem>): seq<ProviderMessage> {
    if LastEvent(items).Some? && LastEvent(items).value.Completion?
    then [AssistantMessage(Some(TextOf(items)), Given(ReasoningOf(items)), [], LastEvent(items).value.data)]
    else []
  }

  lemma FinalIsRecorded(start: AttemptStart, before: seq<ProviderMessage>, after: seq<ProviderMessage>, terminal: TurnTerminal)
    requires FinalStep(start, before, after, terminal)
    ensures after == before + Answer(start.items)
  {
    ConsumedMeaning(start.items);
    LastDecides(start.items);
  }

  /** The broker's rounds are used up one by one, by the attempts that call tools. */
  lemma RoundsAreCounted(attempts: seq<AttemptStart>, i: nat)
    requires i < |attempts| && attempts[i].Streaming? && Readable(attempts[i].items)
    ensures Rounds(attempts, 0) == 0
    ensures Rounds(attempts, i + 1) == Rounds(attempts, i) + if CallsTools(attempts[i]) then 1 else 0
  {
    ConsumedMeaning(attempts[i].items);
    ConclusionMeans(attempts[i].fallbackBeforeOutput, attempts[i].items);
  }
}
