/** One turn of an external worker: what a message amounts to once the worker has seen it
    (`project_worker_input`), and the event loop of `run_inner`, which records the turn in
    Hermes's own terms (`apps/hermesd/src/adapters/codex/engine.rs:225-600`, `739-782`). */
module WorkerTurns {
  import opened Basics
  import opened Conversations
  import opened Projection
  import opened ToolHosts

  datatype Seen = Seen(callId: string, content: string, succeeded: bool)

  /** What a worker knows of the conversation. Display text, reasoning, provider replay data
      and execution keys stay with Hermes. */
  datatype Heard =
    | Said(prompt: string)
    | Replied(response: string)
    | Asked(text: Option<string>, calls: seq<ToolCall>)
    | Got(results: seq<Seen>)

  function ViewResults(results: seq<ToolResult>): (seen: seq<Seen>)
    ensures |seen| == |results|
  {
    seq(|results|, i requires 0 <= i < |results| =>
      Seen(results[i].callId, results[i].content, results[i].status.Succeeded?))
  }

  function View(message: Message): Heard {
    match message
    case User(content, _) => Said(content)
    case Assistant(response, _, _) => Replied(response)
    case Request(text, calls, _, _) => Asked(text, calls)
    case Batch(results) => Got(ViewResults(results))
  }

  function ViewAll(messages: seq<Message>): (heard: seq<Heard>)
    ensures |heard| == |messages|
  {
    seq(|messages|, i requires 0 <= i < |messages| => View(messages[i]))
  }

  lemma ViewAppend(a: seq<Message>, b: seq<Message>)
    ensures ViewAll(a + b) == ViewAll(a) + ViewAll(b)
  {
  }

  /** Recording what the human typed does not change what the worker knows. */
  lemma DisplayIsInvisible(chunk: seq<Message>, display: string)
    requires chunk != [] && chunk[0].User?
    ensures ViewAll([chunk[0].(display := Some(display))] + chunk[1..]) == ViewAll(chunk)
  {
  }

  /** Worker notifications and requests for the bound thread and turn; anything addressed
      elsewhere, or forbidden, is `Foreign`. */
  datatype WorkerEvent =
    | Delta(text: string)
    | ToolCalled(call: ToolCall, plans: BrokerAnswer<seq<Plan>>, resolution: BrokerAnswer<seq<Plan>>,
                 terminals: BrokerAnswer<seq<Terminal>>)
    | Ignored
    | Completed
    | Foreign

  datatype WorkerFailure =
    | InvalidRequest
    | Misaddressed
    | BadCallId
    | HostFailed(host: HostFailure)
    | Interrupted
    | NoText
    | BadTranscript(violation: Violation)

  // ---- What the script of a turn amounts to -----------------------------------------

  /** How many events precede the worker's `turn/completed`, or all of them without one. */
  function EndOf(events: seq<WorkerEvent>): (n: nat)
    ensures n <= |events|
    ensures forall i :: 0 <= i < n ==> !events[i].Completed?
    ensures n < |events| ==> events[n].Completed?
  {
    if events == [] || events[0].Completed? then 0 else 1 + EndOf(events[1..])
  }

  lemma EndsAt(events: seq<WorkerEvent>, n: nat)
    requires n < |events| && events[n].Completed? && forall i :: 0 <= i < n ==> !events[i].Completed?
    ensures EndOf(events) == n
  {
  }

  /** The assistant text streamed in the first `i` events. */
  function Response(events: seq<WorkerEvent>, i: nat): string
    requires i <= |events|
  {
    if i == 0 then ""
    else Response(events, i - 1) + match events[i - 1] { case Delta(text) => text case _ => "" }
  }

  /** The texts of the deltas among these events. */
  function DeltaTexts(events: seq<WorkerEvent>): seq<string> {
    if events == [] then []
    else
      var last := events[|events| - 1];
      DeltaTexts(events[..|events| - 1]) + if last.Delta? then [last.text] else []
  }

  /** The response is the streamed texts, joined. */
  lemma {:induction false} ResponseIsJoined(events: seq<WorkerEvent>, i: nat)
    requires i <= |events|
    ensures Response(events, i) == Flatten(DeltaTexts(events[..i]))
  {
    if i > 0 {
      ResponseIsJoined(events, i - 1);
      assert events[..i][..i - 1] == events[..i - 1];
      if events[i - 1].Delta? {
        FlattenSnoc(DeltaTexts(events[..i - 1]), events[i - 1].text);
      } else {
        assert DeltaTexts(events[..i - 1]) + [] == DeltaTexts(events[..i - 1]);
        assert Response(events, i - 1) + "" == Response(events, i - 1);
      }
    }
  }

  /** The terminal of a requested tool call, when the host produced one. */
  function TerminalIn(event: WorkerEvent): Option<Terminal> {
    if event.ToolCalled? && event.terminals.Ok? && event.terminals.value != [] then Some(event.terminals.value[0]) else None
  }

  function ExchangeIn(event: WorkerEvent): seq<Heard> {
    match TerminalIn(event)
    case Some(terminal) =>
      [Asked(None, [event.call]), Got([Seen(event.call.id, terminal.content, terminal.status.Succeeded?)])]
    case None => []
  }

  /** The tool calls of the first `i` events, each with what came back to the worker. */
  function Exchanges(events: seq<WorkerEvent>, i: nat): seq<Heard>
    requires i <= |events|
  {
    if i == 0 then [] else Exchanges(events, i - 1) + ExchangeIn(events[i - 1])
  }

  /** What the worker lived through in this turn: the prompt, its own tool calls with their
      outcomes, and the reply it streamed. */
  function Lived(prompt: string, events: seq<WorkerEvent>): seq<Heard> {
    [Said(prompt)] + Exchanges(events, EndOf(events)) + [Replied(Response(events, EndOf(events)))]
  }

  function EngineRequest(call: ToolCall, replay: Json): Message {
    Request(None, [call], None, Some(replay))
  }

  function EngineBatch(terminal: Terminal): Message {
    Batch([ToolResult(terminal.callId, terminal.status, terminal.content, Some(terminal.invocationId))])
  }

  function RoundOf(event: WorkerEvent, replay: Json): seq<Message> {
    match TerminalIn(event)
    case Some(terminal) => [EngineRequest(event.call, replay), EngineBatch(terminal)]
    case None => []
  }

  /** The transcript after the first `i` events. */
  function Recorded(prompt: string, events: seq<WorkerEvent>, i: nat, replay: Json): seq<Message>
    requires i <= |events|
  {
    if i == 0 then [User(prompt, None)] else Recorded(prompt, events, i - 1, replay) + RoundOf(events[i - 1], replay)
  }

  /** The turn as Hermes commits it. */
  function TurnMessages(prompt: string, events: seq<WorkerEvent>, replay: Json): seq<Message> {
    var n := EndOf(events);
    Recorded(prompt, events, n, replay) + [Assistant(Response(events, n), None, Some(replay))]
  }

  function KeysOf(scope: string, event: WorkerEvent): set<string> {
    if event.ToolCalled? then Elements(InvocationIds(scope, [event.call])) else {}
  }

  /** The invocation ids issued for the first `i` events. */
  function IssuedBy(scope: string, events: seq<WorkerEvent>, i: nat): set<string>
    requires i <= |events|
  {
    if i == 0 then {} else IssuedBy(scope, events, i - 1) + KeysOf(scope, events[i - 1])
  }

  /** The event is addressed to this turn, and the host carries out the call it asks for. */
  ghost predicate Served(scope: string, event: WorkerEvent, issued: set<string>) {
    match event
    case Foreign => false
    case ToolCalled(call, plans, resolution, terminals) =>
      && ValidId(call.id) && plans.Ok? && resolution.Ok? && terminals.Ok?
      && Issuable(scope, [call], issued) && PlansMatch(scope, [call], plans.value)
      && ApprovalsResolve(plans.value, resolution.value) && TerminalsMatch(resolution.value, terminals.value)
    case _ => true
  }

  ghost predicate AllServed(scope: string, events: seq<WorkerEvent>, n: nat)
    requires n <= |events|
  {
    n > 0 ==> AllServed(scope, events, n - 1) && Served(scope, events[n - 1], IssuedBy(scope, events, n - 1))
  }

  lemma {:induction false} ServedUpTo(scope: string, events: seq<WorkerEvent>, i: nat, n: nat)
    requires i < n <= |events| && AllServed(scope, events, n)
    ensures AllServed(scope, events, i) && Served(scope, events[i], IssuedBy(scope, events, i))
    decreases n
  {
    if i < n - 1 { ServedUpTo(scope, events, i, n - 1); }
  }

  predicate CallNamed(event: WorkerEvent) {
    event.ToolCalled? ==> event.call.name != ""
  }

  predicate CallsNamed(events: seq<WorkerEvent>, n: nat)
    requires n <= |events|
  {
    forall i :: 0 <= i < n ==> CallNamed(events[i])
  }

  /** A one-call batch comes back as the terminal of that call. */
  lemma SingleTerminal(scope: string, call: ToolCall, plans: seq<Plan>, terminals: seq<Terminal>)
    requires PlansMatch(scope, [call], plans) && TerminalsMatch(plans, terminals)
    ensures |terminals| == 1 && terminals[0].callId == call.id
  {
    assert Planned(plans, terminals[0]);
    assert plans[0].callId == [call][0].id;
  }

  lemma ServedTerminal(scope: string, event: WorkerEvent, issued: set<string>)
    requires Served(scope, event, issued) && event.ToolCalled?
    ensures TerminalIn(event).Some? && TerminalIn(event).value.callId == event.call.id
  {
    assert PlansMatch(scope, [event.call], event.resolution.value);
    SingleTerminal(scope, event.call, event.resolution.value, event.terminals.value);
  }

  lemma RoundIsExchange(event: WorkerEvent, replay: Json)
    requires TerminalIn(event).Some? ==> TerminalIn(event).value.callId == event.call.id
    ensures ViewAll(RoundOf(event, replay)) == ExchangeIn(event)
  {
    if TerminalIn(event).Some? {
      var terminal := TerminalIn(event).value;
      var results := [ToolResult(terminal.callId, terminal.status, terminal.content, Some(terminal.invocationId))];
      assert EngineBatch(terminal) == Batch(results);
      assert ViewResults(results) == [Seen(event.call.id, terminal.content, terminal.status.Succeeded?)];
    }
  }

  lemma {:induction false} RecordedIsLived(scope: string, prompt: string, events: seq<WorkerEvent>, i: nat, replay: Json)
    requires i <= |events| && AllServed(scope, events, i)
    ensures ViewAll(Recorded(prompt, events, i, replay)) == [Said(prompt)] + Exchanges(events, i)
    decreases i
  {
    if i > 0 {
      RecordedIsLived(scope, prompt, events, i - 1, replay);
      var event := events[i - 1];
      if event.ToolCalled? { ServedTerminal(scope, event, IssuedBy(scope, events, i - 1)); }
      RoundIsExchange(event, replay);
      ViewAppend(Recorded(prompt, events, i - 1, replay), RoundOf(event, replay));
    }
  }

  /** The turn Hermes records says to a worker exactly what this worker lived through. */
  lemma TurnSaysWhatWasLived(scope: string, prompt: string, events: seq<WorkerEvent>, replay: Json)
    requires AllServed(scope, events, EndOf(events))
    ensures ViewAll(TurnMessages(prompt, events, replay)) == Lived(prompt, events)
  {
    var n := EndOf(events);
    RecordedIsLived(scope, prompt, events, n, replay);
    var last := [Assistant(Response(events, n), None, Some(replay))];
    ViewAppend(Recorded(prompt, events, n, replay), last);
    assert ViewAll(last) == [Replied(Response(events, n))];
  }

  // ---- What is stored of it ----------------------------------------------------------

  /** Tool calls among the first `i` events. */
  function ToolCalls(events: seq<WorkerEvent>, i: nat): nat
    requires i <= |events|
  {
    if i == 0 then 0 else ToolCalls(events, i - 1) + if events[i - 1].ToolCalled? then 1 else 0
  }

  /** The call with its one result: the status and content of the host's terminal, under the
      kernel's own execution key. */
  ghost predicate StoresCall(scope: string, event: WorkerEvent, replay: Json, request: Message, batch: Message)
    requires event.ToolCalled?
  {
    && event.terminals.Ok? && |event.terminals.value| == 1
    && var terminal := event.terminals.value[0];
       && request == Request(None, [event.call], None, Some(replay))
       && batch == Batch([ToolResult(event.call.id, terminal.status, terminal.content, Some(scope + ":" + event.call.id))])
  }

  lemma RoundStoresCall(scope: string, event: WorkerEvent, issued: set<string>, replay: Json)
    requires Served(scope, event, issued) && event.ToolCalled?
    ensures |RoundOf(event, replay)| == 2 && Fit(RoundOf(event, replay))
    ensures StoresCall(scope, event, replay, RoundOf(event, replay)[0], RoundOf(event, replay)[1])
  {
    var resolved, terminals := event.resolution.value, event.terminals.value;
    assert PlansMatch(scope, [event.call], resolved);
    SingleTerminal(scope, event.call, resolved, terminals);
    assert Planned(resolved, terminals[0]);
    assert resolved[0].invocationId == InvocationId(scope, [event.call][0].id);
  }

  lemma {:induction false} RecordedIsFit(scope: string, prompt: string, events: seq<WorkerEvent>, i: nat, replay: Json)
    requires i <= |events| && AllServed(scope, events, i)
    ensures Fit(Recorded(prompt, events, i, replay))
    ensures |Recorded(prompt, events, i, replay)| == 1 + 2 * ToolCalls(events, i)
    decreases i
  {
    if i > 0 {
      RecordedIsFit(scope, prompt, events, i - 1, replay);
      if events[i - 1].ToolCalled? { RoundStoresCall(scope, events[i - 1], IssuedBy(scope, events, i - 1), replay); }
      FitAppend(Recorded(prompt, events, i - 1, replay), RoundOf(events[i - 1], replay));
    }
  }

  lemma {:induction false} RecordedGrows(prompt: string, events: seq<WorkerEvent>, i: nat, n: nat, replay: Json)
    requires i <= n <= |events|
    ensures Recorded(prompt, events, i, replay) <= Recorded(prompt, events, n, replay)
    decreases n
  {
    if i < n { RecordedGrows(prompt, events, i, n - 1, replay); }
  }

  /** A storable history with the turn behind it is storable again. */
  lemma TurnIsStorable(scope: string, history: seq<Message>, prompt: string, events: seq<WorkerEvent>, replay: Json)
    requires Storable(history) && AllServed(scope, events, EndOf(events)) && CallsNamed(events, EndOf(events))
    ensures Storable(history + TurnMessages(prompt, events, replay))
  {
    var n, turn := EndOf(events), TurnMessages(prompt, events, replay);
    RecordedIsFit(scope, prompt, events, n, replay);
    FitAppend(Recorded(prompt, events, n, replay), [Assistant(Response(events, n), None, Some(replay))]);
    FitAppend(history, turn);
    TranscriptIsWellFormed(scope, history, prompt, events, replay);
    RevalidateChunkOnly(history, turn);
  }

  /** Each tool call of the turn is stored, in its place, with its own terminal's status and content
      under its own key, and nothing but the prompt and the reply is stored besides. A worker sees of
      it the content and whether the call succeeded. */
  lemma CallsAreStored(scope: string, prompt: string, events: seq<WorkerEvent>, i: nat, replay: Json)
    requires AllServed(scope, events, EndOf(events)) && i < EndOf(events) && events[i].ToolCalled?
    ensures var turn, p := TurnMessages(prompt, events, replay), 1 + 2 * ToolCalls(events, i);
            && |turn| == 2 + 2 * ToolCalls(events, EndOf(events))
            && p + 1 < |turn| && StoresCall(scope, events[i], replay, turn[p], turn[p + 1])
            && ViewAll(turn)[p] == Asked(None, [events[i].call])
            && var terminal := events[i].terminals.value[0];
               ViewAll(turn)[p + 1] == Got([Seen(events[i].call.id, terminal.content, terminal.status == Succeeded)])
  {
    var n := EndOf(events);
    RecordedIsFit(scope, prompt, events, n, replay);
    CallIsRecorded(scope, prompt, events, i, n, replay);
    var turn, p, terminal := TurnMessages(prompt, events, replay), 1 + 2 * ToolCalls(events, i), events[i].terminals.value[0];
    assert ViewResults(turn[p + 1].results) == [Seen(events[i].call.id, terminal.content, terminal.status == Succeeded)];
  }

  lemma CallIsRecorded(scope: string, prompt: string, events: seq<WorkerEvent>, i: nat, n: nat, replay: Json)
    requires i < n <= |events| && AllServed(scope, events, n) && events[i].ToolCalled?
    ensures var recorded, p := Recorded(prompt, events, n, replay), 1 + 2 * ToolCalls(events, i);
            p + 1 < |recorded| && StoresCall(scope, events[i], replay, recorded[p], recorded[p + 1])
  {
    ServedUpTo(scope, events, i, n);
    RecordedIsFit(scope, prompt, events, i, replay);
    RoundStoresCall(scope, events[i], IssuedBy(scope, events, i), replay);
    RecordedGrows(prompt, events, i + 1, n, replay);
    StandsBehind(Recorded(prompt, events, i, replay), RoundOf(events[i], replay), Recorded(prompt, events, n, replay));
  }

  lemma StandsBehind(front: seq<Message>, round: seq<Message>, whole: seq<Message>)
    requires front + round <= whole && |round| == 2
    ensures |front| + 1 < |whole| && whole[|front|] == round[0] && whole[|front| + 1] == round[1]
  {
    assert (front + round)[|front|] == round[0] && (front + round)[|front| + 1] == round[1];
  }

  // ---- When the recorded turn is well-formed -----------------------------------------

  predicate AwaitsAssistant(messages: seq<Message>) {
    messages != [] && (messages[|messages| - 1].User? || messages[|messages| - 1].Batch?)
  }

  lemma LegalPrefix(messages: seq<Message>, more: seq<Message>, i: nat)
    requires i < |messages|
    ensures LegalAt(messages + more, i) <==> LegalAt(messages, i)
  {
    if i > 0 { assert (messages + more)[i - 1] == messages[i - 1]; }
  }

  lemma WellFormedPrefix(messages: seq<Message>, more: seq<Message>)
    requires WellFormed(messages + more) && (messages != [] ==> !messages[|messages| - 1].Request?)
    ensures WellFormed(messages)
  {
    forall i | 0 <= i < |messages| ensures LegalAt(messages, i) {
      assert LegalAt(messages + more, i);
      LegalPrefix(messages, more, i);
    }
  }

  lemma AssistantCloses(messages: seq<Message>, last: Message)
    requires AwaitsAssistant(messages) && last.Assistant?
    ensures WellFormed(messages + [last]) <==> WellFormed(messages)
  {
    var whole := messages + [last];
    if WellFormed(whole) { WellFormedPrefix(messages, [last]); }
    if WellFormed(messages) {
      forall i | 0 <= i < |whole| ensures LegalAt(whole, i) {
        if i < |messages| { LegalPrefix(messages, [last], i); }
      }
    }
  }

  lemma RoundExtends(messages: seq<Message>, call: ToolCall, terminal: Terminal, replay: Json)
    requires AwaitsAssistant(messages) && terminal.callId == call.id
    ensures var round := [EngineRequest(call, replay), EngineBatch(terminal)];
            && (WellFormed(messages + round) <==> WellFormed(messages) && call.name != "")
            && AwaitsAssistant(messages + round)
  {
    var round := [EngineRequest(call, replay), EngineBatch(terminal)];
    var whole, n := messages + round, |messages|;
    assert whole[n] == EngineRequest(call, replay) && whole[n + 1] == EngineBatch(terminal) && whole[n - 1] == messages[n - 1];
    assert Distinct(CallIds([call])) && [call][0].name == call.name;
    assert LegalAt(whole, n) <==> call.name != "";
    assert ResultIds(whole[n + 1].results) == CallIds([call]);
    assert LegalAt(whole, n + 1);
    if WellFormed(whole) {
      WellFormedPrefix(messages, round);
      assert LegalAt(whole, n);
    }
    if WellFormed(messages) && call.name != "" {
      forall i | 0 <= i < |whole| ensures LegalAt(whole, i) {
        if i < n { LegalPrefix(messages, round, i); }
      }
    }
  }

  lemma {:induction false} RecordedIsWellFormed(scope: string, prompt: string, events: seq<WorkerEvent>, i: nat, replay: Json)
    requires i <= |events| && AllServed(scope, events, i)
    ensures AwaitsAssistant(Recorded(prompt, events, i, replay))
    ensures WellFormed(Recorded(prompt, events, i, replay)) <==> CallsNamed(events, i)
    decreases i
  {
    if i > 0 {
      RecordedIsWellFormed(scope, prompt, events, i - 1, replay);
      var event, before := events[i - 1], Recorded(prompt, events, i - 1, replay);
      if event.ToolCalled? {
        ServedTerminal(scope, event, IssuedBy(scope, events, i - 1));
        RoundExtends(before, event.call, TerminalIn(event).value, replay);
      } else {
        assert before + [] == before;
      }
      assert CallsNamed(events, i) <==> CallsNamed(events, i - 1) && CallNamed(event);
    }
  }

  /** The finished transcript is acceptable exactly when the history was settled and every
      called tool has a name. */
  lemma TranscriptIsWellFormed(scope: string, history: seq<Message>, prompt: string, events: seq<WorkerEvent>, replay: Json)
    requires AllServed(scope, events, EndOf(events))
    ensures WellFormed(history + TurnMessages(prompt, events, replay)) && WellFormed(history) <==>
              Settled(history) && CallsNamed(events, EndOf(events))
    ensures CompleteTurn(TurnMessages(prompt, events, replay)) && TurnMessages(prompt, events, replay)[0] == User(prompt, None)
  {
    var n, turn := EndOf(events), TurnMessages(prompt, events, replay);
    RecordedIsWellFormed(scope, prompt, events, n, replay);
    AssistantCloses(Recorded(prompt, events, n, replay), Assistant(Response(events, n), None, Some(replay)));
    RecordedOpens(prompt, events, n, replay);
    if WellFormed(history) && WellFormed(history + turn) && history != [] {
      assert LegalAt(history + turn, |history|);
      assert (history + turn)[|history| - 1] == history[|history| - 1];
    }
    if Settled(history) { RevalidateChunkOnly(history, turn); }
  }

  lemma {:induction false} RecordedOpens(prompt: string, events: seq<WorkerEvent>, i: nat, replay: Json)
    requires i <= |events|
    ensures Recorded(prompt, events, i, replay) != [] && Recorded(prompt, events, i, replay)[0] == User(prompt, None)
    decreases i
  {
    if i > 0 { RecordedOpens(prompt, events, i - 1, replay); }
  }

  // ---- The event loop ----------------------------------------------------------------

  /** Plan, approve and execute one requested tool call. */
  method HostCall(host: ToolHost, event: WorkerEvent) returns (r: Result<Terminal, HostFailure>)
    requires event.ToolCalled? && ValidId(event.call.id)
    modifies host
    ensures r.Ok? <==> Served(host.scope, event, old(host.seen))
    ensures r.Ok? ==> TerminalIn(event) == Some(r.value) && host.seen == old(host.seen) + KeysOf(host.scope, event)
  {
    var planned :- host.Plan([event.call], event.plans);
    var resolved :- host.ResolveApprovals(planned, event.resolution);
    assert PlansMatch(host.scope, [event.call], resolved);
    var completed :- host.Execute(resolved, event.terminals);
    SingleTerminal(host.scope, event.call, resolved, completed);
    return Ok(completed[0]);
  }

  /** Records one event of the bound turn. */
  method Record(host: ToolHost, event: WorkerEvent, turn: seq<Message>, response: string, replay: Json)
    returns (r: Result<(seq<Message>, string), WorkerFailure>)
    modifies host
    ensures r.Ok? <==> Served(host.scope, event, old(host.seen))
    ensures r.Err? ==> r.error != Interrupted
    ensures r.Ok? ==> r.value.0 == turn + RoundOf(event, replay)
    ensures r.Ok? ==> r.value.1 == response + match event { case Delta(text) => text case _ => "" }
    ensures r.Ok? ==> host.seen == old(host.seen) + KeysOf(host.scope, event)
  {
    match event
    case Delta(text) =>
      return Ok((turn, response + text));
    case Foreign =>
      return Err(Misaddressed);
    case ToolCalled(call, _, _, _) =>
      if !ValidId(call.id) { return Err(BadCallId); }
      var outcome := HostCall(host, event);
      if outcome.Err? { return Err(HostFailed(outcome.error)); }
      return Ok((turn + [EngineRequest(call, replay), EngineBatch(outcome.value)], response));
    case Ignored | Completed =>
      return Ok((turn, response));
  }

  lemma NotServed(scope: string, events: seq<WorkerEvent>, i: nat)
    requires i < |events| && i <= EndOf(events) && !Served(scope, events[i], IssuedBy(scope, events, i))
    ensures !AllServed(scope, events, EndOf(events))
  {
    if AllServed(scope, events, EndOf(events)) && i < EndOf(events) {
      ServedUpTo(scope, events, i, EndOf(events));
    }
  }

  /** The event loop, up to the worker's `turn/completed`. */
  method Drive(scope: string, prompt: string, events: seq<WorkerEvent>, replay: Json)
    returns (r: Result<(seq<Message>, string), WorkerFailure>)
    ensures r.Ok? <==> AllServed(scope, events, EndOf(events)) && EndOf(events) < |events|
    ensures r.Ok? ==> r.value == (Recorded(prompt, events, EndOf(events), replay), Response(events, EndOf(events)))
    ensures r.Err? ==> (r.error == Interrupted <==> AllServed(scope, events, EndOf(events)))
  {
    var host := new ToolHost(scope);
    var turn, response := [User(prompt, None)], "";
    for i := 0 to |events|
      invariant fresh(host) && i <= EndOf(events)
      invariant host.scope == scope && host.seen == IssuedBy(scope, events, i) && AllServed(scope, events, i)
      invariant turn == Recorded(prompt, events, i, replay) && response == Response(events, i)
    {
      var recorded := Record(host, events[i], turn, response, replay);
      if recorded.Err? {
        NotServed(scope, events, i);
        return Err(recorded.error);
      }
      if events[i].Completed? {
        EndsAt(events, i);
        return Ok((turn, response));
      }
      turn, response := recorded.value.0, recorded.value.1;
    }
    return Err(Interrupted);
  }

  /** When a worker turn comes to its proper end. */
  ghost predicate Succeeds(scope: string, history: seq<Message>, prompt: string, events: seq<WorkerEvent>) {
    var n := EndOf(events);
    && scope != "" && !Blank(prompt) && Settled(history)
    && n < |events| && AllServed(scope, events, n)
    && Response(events, n) != "" && CallsNamed(events, n)
  }

  /** `run_inner` from the opened thread on. It succeeds exactly when the request is valid, the
      worker completes, the host could serve everything it asked for, it said something, and the
      transcript is acceptable; the new messages are then those of the script. */
  method RunWorkerTurn(scope: string, history: seq<Message>, prompt: string, events: seq<WorkerEvent>, replay: Json)
    returns (r: Result<seq<Message>, WorkerFailure>)
    ensures r.Ok? <==> Succeeds(scope, history, prompt, events)
    ensures r.Ok? ==> r.value == history + TurnMessages(prompt, events, replay)
    ensures r.Ok? ==>
              && WellFormed(r.value) && CompleteTurn(r.value[|history|..]) && r.value[|history|] == User(prompt, None)
              && ViewAll(r.value[|history|..]) == Lived(prompt, events)
              && r.value[|r.value| - 1] == Assistant(Flatten(DeltaTexts(events[..EndOf(events)])), None, Some(replay))
  {
    if scope == "" || Blank(prompt) { return Err(InvalidRequest); }
    var valid := Create(history);
    if valid.Err? { return Err(InvalidRequest); }
    var driven := Drive(scope, prompt, events, replay);
    if driven.Err? { return Err(driven.error); }
    var (turn, response) := driven.value;
    TranscriptIsWellFormed(scope, history, prompt, events, replay);
    TurnSaysWhatWasLived(scope, prompt, events, replay);
    if response == "" { return Err(NoText); }
    var transcript := history + (turn + [Assistant(response, None, Some(replay))]);
    var checked := Create(transcript);
    if checked.Err? { return Err(BadTranscript(checked.error)); }
    assert transcript[|history|..] == TurnMessages(prompt, events, replay);
    ResponseIsJoined(events, EndOf(events));
    return Ok(transcript);
  }
}
