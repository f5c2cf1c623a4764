/** One complete agent turn: `run_turn_with_limit_observed` of `crates/runtime/src/lib.rs`.

    The provider is an arbitrary script of attempts and the broker an arbitrary script of
    answers. The contract says what the transcript, the requests and the journal are, whatever
    the scripts hold. */
module Turns {
  import opened Basics
  import opened Conversations
  import opened Projection
  import opened Fragments
  import opened ToolHosts
  import opened Attempts
  import opened Journals

  datatype AttemptStart =
    | StartFailed
    | Streaming(fallbackBeforeOutput: bool, items: seq<StreamItem>)

  /** The broker's answers to one plan, approve, execute round. */
  datatype BrokerRound = BrokerRound(
    plans: BrokerAnswer<seq<Plan>>, resolution: BrokerAnswer<seq<Plan>>, terminals: BrokerAnswer<seq<Terminal>>)

  datatype TurnRequest = TurnRequest(
    scope: string, chatCompletions: bool, model: string, system: Option<string>, conversation: seq<ProviderMessage>)
  {
    predicate Valid() {
      && chatCompletions && model != "" && scope != ""
      && conversation != [] && conversation[|conversation| - 1].UserMessage?
    }
  }

  datatype Disposition = TurnCompleted | TurnIncomplete | TurnFailed | TurnCancelled | TurnInterrupted

  datatype TurnTerminal = TurnTerminal(
    disposition: Disposition, response: Option<string>, finishReason: Option<string>,
    reason: Option<string>, visibleOutput: Option<bool>)

  datatype TurnOutcome = TurnOutcome(
    requests: seq<seq<ProviderMessage>>, conversation: seq<Message>, intents: seq<Intent>, terminal: TurnTerminal)

  datatype TurnFailure =
    | InvalidTurnRequest
    | AttemptsExhausted
    | ProviderFailed
    | AttemptFailed(attempt: AttemptFailure)
    | CallsRejected(calls: FragmentFailure)
    | HostRefused(host: HostFailure)
    | UnusedAttempts
    | Unparseable(parse: ParseFailure)

  function Prompted(system: Option<string>, conversation: seq<ProviderMessage>): seq<ProviderMessage> {
    if system.Some? then [SystemMessage(system.value)] + conversation else conversation
  }

  /** How a consumed attempt ends the turn; `None` when the loop goes round again, after a
      fallback or after a tool round. */
  function Conclusion(fallback: bool, state: AttemptState): Option<TurnTerminal> {
    match state.terminal
    case None =>
      Some(TurnTerminal(TurnFailed, None, None, Some("provider_stream_truncated"), Some(state.visible)))
    case Some(EndedInError(reason)) =>
      if fallback && !state.visible then None
      else Some(TurnTerminal(if state.visible then TurnInterrupted else TurnFailed, None, None,
                             Some(reason), Some(state.visible)))
    case Some(EndedCancelled(reason)) => Some(TurnTerminal(TurnCancelled, None, None, Some(reason), None))
    case Some(EndedMalformed(reason)) => Some(TurnTerminal(TurnFailed, None, None, Some(reason), None))
    case Some(EndedNormally(finish, _)) =>
      if state.partials != map[] then None
      else Some(TurnTerminal(if finish == "stop" then TurnCompleted else TurnIncomplete,
                             Some(state.text), Some(finish), None, None))
  }

  // ----- The contract of a turn -----

  ghost predicate AnswersCall(message: ProviderMessage, scope: string, callId: string) {
    && message.ToolMessage?
    && message.toolCallId == callId
    && message.executionKey == InvocationId(scope, callId)
    && ParseStatus(message.status).Some?
  }

  /** The attempt asks for tools. */
  predicate Asks(start: AttemptStart) {
    start.Streaming? && Consumed(start.items).Ok? && EndsAsking(Consumed(start.items).value)
  }

  predicate EndsAsking(state: AttemptState) {
    state.terminal.Some? && state.terminal.value.EndedNormally? && state.partials != map[]
  }

  /** How many of the first `i` attempts ask for tools: the broker round the next one meets. */
  function Rounds(attempts: seq<AttemptStart>, i: nat): nat
    requires i <= |attempts|
  {
    if i == 0 then 0 else Rounds(attempts, i - 1) + if Asks(attempts[i - 1]) then 1 else 0
  }

  /** The calls an attempt asks for. */
  function CallsIn(codec: Codec, start: AttemptStart): seq<ToolCall> {
    if !Asks(start) then []
    else match FinishCalls(codec, Consumed(start.items).value.partials)
      case Ok(calls) => calls
      case Err(_) => []
  }

  /** The invocation ids issued by the first `i` attempts. */
  function Issued(codec: Codec, scope: string, attempts: seq<AttemptStart>, i: nat): set<string>
    requires i <= |attempts|
  {
    if i == 0 then {}
    else Issued(codec, scope, attempts, i - 1) + Elements(InvocationIds(scope, CallsIn(codec, attempts[i - 1])))
  }

  const NO_TERMINAL := Terminal("", "", OutcomeUnknown, "", "", ReadOnly, None)

  function FindTerminal(terminals: seq<Terminal>, callId: string): Terminal {
    if terminals == [] then NO_TERMINAL
    else if terminals[0].callId == callId then terminals[0]
    else FindTerminal(terminals[1..], callId)
  }

  /** The broker's terminals in the order of the calls they answer. */
  function OrderedFor(calls: seq<ToolCall>, terminals: seq<Terminal>): (ordered: seq<Terminal>)
    ensures |ordered| == |calls|
  {
    seq(|calls|, i requires 0 <= i < |calls| => FindTerminal(terminals, calls[i].id))
  }

  /** The host lets this round of the broker through. */
  ghost predicate RoundOk(scope: string, calls: seq<ToolCall>, issued: set<string>, round: BrokerRound) {
    && round.plans.Ok? && round.resolution.Ok? && round.terminals.Ok?
    && Issuable(scope, calls, issued) && PlansMatch(scope, calls, round.plans.value)
    && ApprovalsResolve(round.plans.value, round.resolution.value)
    && TerminalsMatch(round.resolution.value, round.terminals.value)
  }

  /** The tool request made of exactly this attempt's text, reasoning, calls and replay data,
      followed by what the broker's round gave for each call, in call order. */
  ghost predicate ToolRound(codec: Codec, scope: string, state: AttemptState, round: BrokerRound, added: seq<ProviderMessage>) {
    && EndsAsking(state) && round.terminals.Ok?
    && FinishCalls(codec, state.partials).Ok?
    && var calls := FinishCalls(codec, state.partials).value;
       && added == RoundMessages(codec, state, calls, OrderedFor(calls, round.terminals.value))
       && (forall i :: 0 <= i < |calls| ==> AnswersCall(added[1 + i], scope, calls[i].id))
       && (forall i :: 0 <= i < |calls| ==> OrderedFor(calls, round.terminals.value)[i] in round.terminals.value)
  }

  /** From one provider request to the next: unchanged after a fallback, otherwise extended by
      one tool round with the broker's answers to it. */
  ghost predicate RequestStep(codec: Codec, scope: string, start: AttemptStart, broker: seq<BrokerRound>, k: nat,
                              before: seq<ProviderMessage>, after: seq<ProviderMessage>)
  {
    && start.Streaming? && Consumed(start.items).Ok?
    && var state := Consumed(start.items).value;
       && Conclusion(start.fallbackBeforeOutput, state).None?
       && if state.terminal.value.EndedInError? then after == before
          else k < |broker| && before <= after && ToolRound(codec, scope, state, broker[k], after[|before|..])
  }

  /** From the last request to the final provider conversation. */
  ghost predicate FinalStep(start: AttemptStart, before: seq<ProviderMessage>, after: seq<ProviderMessage>,
                            terminal: TurnTerminal)
  {
    && start.Streaming? && Consumed(start.items).Ok?
    && var state := Consumed(start.items).value;
       && Conclusion(start.fallbackBeforeOutput, state) == Some(terminal)
       && after == if state.terminal.Some? && state.terminal.value.EndedNormally?
                   then before + [FinalMessage(state)] else before
  }

  function FinalMessage(state: AttemptState): ProviderMessage
    requires state.terminal.Some? && state.terminal.value.EndedNormally?
  {
    AssistantMessage(Some(state.text), NonEmpty(state.reasoning), [], state.terminal.value.data)
  }

  ghost predicate RequestsGrow(codec: Codec, scope: string, attempts: seq<AttemptStart>, broker: seq<BrokerRound>,
                               requests: seq<seq<ProviderMessage>>)
    requires |requests| <= |attempts|
  {
    forall i {:trigger GrewAt(codec, scope, attempts, broker, requests, i)} :: 0 <= i < |requests| - 1 ==>
      GrewAt(codec, scope, attempts, broker, requests, i)
  }

  ghost predicate GrewAt(codec: Codec, scope: string, attempts: seq<AttemptStart>, broker: seq<BrokerRound>,
                         requests: seq<seq<ProviderMessage>>, i: nat)
    requires |requests| <= |attempts| && i + 1 < |requests|
  {
    RequestStep(codec, scope, attempts[i], broker, Rounds(attempts, i), requests[i], requests[i + 1])
  }

  /** A tool request made by this attempt names every tool. */
  ghost predicate NamedCalls(codec: Codec, start: AttemptStart) {
    start.Streaming? && Consumed(start.items).Ok? ==>
      var state := Consumed(start.items).value;
      state.terminal.Some? && state.terminal.value.EndedNormally? && FinishCalls(codec, state.partials).Ok? ==>
        NamesPresent(FinishCalls(codec, state.partials).value)
  }

  /** The journal entries an attempt adds: its final message, or the plans, starts, terminals
      and results of broker round `k`. */
  function Entries(codec: Codec, start: AttemptStart, broker: seq<BrokerRound>, k: nat): seq<Intent> {
    if !(start.Streaming? && Consumed(start.items).Ok?) then []
    else
      var state := Consumed(start.items).value;
      if !(state.terminal.Some? && state.terminal.value.EndedNormally?) then []
      else if state.partials == map[] then [AppendMessage(FinalMessage(state))]
      else if FinishCalls(codec, state.partials).Ok? && k < |broker| && broker[k].resolution.Ok? && broker[k].terminals.Ok? then
        var calls, terminals := FinishCalls(codec, state.partials).value, broker[k].terminals.value;
        RoundIntents(ToolRequestMessage(codec, state.text, state.reasoning, calls, state.terminal.value.data),
                     broker[k].resolution.value, terminals, OrderedFor(calls, terminals))
      else []
  }

  /** The journal after `i` attempts. */
  function JournalOf(codec: Codec, request: TurnRequest, attempts: seq<AttemptStart>, broker: seq<BrokerRound>, i: nat): seq<Intent>
    requires i <= |attempts|
  {
    if i == 0 then Appends(request.conversation)
    else JournalOf(codec, request, attempts, broker, i - 1) + Entries(codec, attempts[i - 1], broker, Rounds(attempts, i - 1))
  }

  /** The requests start from the caller's conversation, grow attempt by attempt, and lead to the
      final conversation and the turn's terminal. */
  ghost predicate TurnShape(codec: Codec, request: TurnRequest, attempts: seq<AttemptStart>, broker: seq<BrokerRound>,
                            maxAttempts: nat, outcome: TurnOutcome)
  {
    var n := |outcome.requests|;
    && 1 <= n <= maxAttempts && n <= |attempts|
    && outcome.requests[0] == Prompted(request.system, request.conversation)
    && RequestsGrow(codec, request.scope, attempts, broker, outcome.requests)
    && FinalStep(attempts[n - 1], outcome.requests[n - 1],
                 Prompted(request.system, Rebuild(codec, outcome.intents)), outcome.terminal)
  }

  /** The journal is exactly that of the attempts and the broker's answers to them, is lawful, and
      leaves no effect open; the final conversation is what it replays to, parsed. */
  ghost predicate TurnRecord(codec: Codec, request: TurnRequest, attempts: seq<AttemptStart>, broker: seq<BrokerRound>,
                             outcome: TurnOutcome)
  {
    && |outcome.requests| <= |attempts|
    && outcome.intents == JournalOf(codec, request, attempts, broker, |outcome.requests|)
    && WatchAll(map[], outcome.intents).Some?
    && AllEnded(WatchAll(map[], outcome.intents).value)
    && Accepted(codec, Rebuild(codec, outcome.intents))
    && Parse(codec, Rebuild(codec, outcome.intents)) == Ok(outcome.conversation)
  }

  ghost predicate TurnContract(codec: Codec, request: TurnRequest, attempts: seq<AttemptStart>, broker: seq<BrokerRound>,
                               maxAttempts: nat, outcome: TurnOutcome)
  {
    && TurnShape(codec, request, attempts, broker, maxAttempts, outcome)
    && TurnRecord(codec, request, attempts, broker, outcome)
  }

  // ----- How a turn ends -----

  datatype Stop =
    | Exhausted
    | Unavailable
    | Broken(attempt: AttemptFailure)
    | Garbled(calls: FragmentFailure)
    | Refused
    | Concludes(terminal: TurnTerminal)

  /** What stops the loop before it goes on to attempt `i + 1`, if anything does. */
  ghost function StopAt(codec: Codec, request: TurnRequest, attempts: seq<AttemptStart>, broker: seq<BrokerRound>,
                        maxAttempts: nat, i: nat): Option<Stop>
    requires i <= |attempts|
  {
    if maxAttempts <= i then Some(Exhausted)
    else if i == |attempts| || attempts[i].StartFailed? then Some(Unavailable)
    else match Consumed(attempts[i].items)
      case Err(failure) => Some(Broken(failure))
      case Ok(state) =>
        match Conclusion(attempts[i].fallbackBeforeOutput, state)
        case Some(terminal) => Some(Concludes(terminal))
        case None =>
          if !EndsAsking(state) then None
          else match FinishCalls(codec, state.partials)
            case Err(failure) => Some(Garbled(failure))
            case Ok(calls) =>
              var k := Rounds(attempts, i);
              if k < |broker| && RoundOk(request.scope, calls, Issued(codec, request.scope, attempts, i), broker[k]) then None
              else Some(Refused)
  }

  ghost predicate GoesOn(codec: Codec, request: TurnRequest, attempts: seq<AttemptStart>, broker: seq<BrokerRound>,
                         maxAttempts: nat, n: nat)
    requires n <= |attempts|
    decreases n
  {
    n > 0 ==>
      && GoesOn(codec, request, attempts, broker, maxAttempts, n - 1)
      && StopAt(codec, request, attempts, broker, maxAttempts, n - 1).None?
  }

  lemma {:induction false} GoesOnAt(codec: Codec, request: TurnRequest, attempts: seq<AttemptStart>, broker: seq<BrokerRound>,
                                    maxAttempts: nat, i: nat, n: nat)
    requires i < n <= |attempts| && GoesOn(codec, request, attempts, broker, maxAttempts, n)
    ensures StopAt(codec, request, attempts, broker, maxAttempts, i).None?
    decreases n
  {
    if i < n - 1 { GoesOnAt(codec, request, attempts, broker, maxAttempts, i, n - 1); }
  }

  lemma EndStops(codec: Codec, request: TurnRequest, attempts: seq<AttemptStart>, broker: seq<BrokerRound>, maxAttempts: nat)
    ensures StopAt(codec, request, attempts, broker, maxAttempts, |attempts|).Some?
  {
  }

  ghost function StopFrom(codec: Codec, request: TurnRequest, attempts: seq<AttemptStart>, broker: seq<BrokerRound>,
                          maxAttempts: nat, i: nat): (n: nat)
    requires i <= |attempts| && GoesOn(codec, request, attempts, broker, maxAttempts, i)
    ensures i <= n <= |attempts| && GoesOn(codec, request, attempts, broker, maxAttempts, n)
    ensures StopAt(codec, request, attempts, broker, maxAttempts, n).Some?
    decreases |attempts| - i
  {
    EndStops(codec, request, attempts, broker, maxAttempts);
    if StopAt(codec, request, attempts, broker, maxAttempts, i).Some? then i
    else StopFrom(codec, request, attempts, broker, maxAttempts, i + 1)
  }

  /** The first attempt that stops the loop. */
  ghost function FirstStop(codec: Codec, request: TurnRequest, attempts: seq<AttemptStart>, broker: seq<BrokerRound>,
                           maxAttempts: nat): (n: nat)
    ensures n <= |attempts| && GoesOn(codec, request, attempts, broker, maxAttempts, n)
    ensures StopAt(codec, request, attempts, broker, maxAttempts, n).Some?
  {
    StopFrom(codec, request, attempts, broker, maxAttempts, 0)
  }

  lemma FirstStopIs(codec: Codec, request: TurnRequest, attempts: seq<AttemptStart>, broker: seq<BrokerRound>, maxAttempts: nat, n: nat)
    requires n <= |attempts| && GoesOn(codec, request, attempts, broker, maxAttempts, n)
    requires StopAt(codec, request, attempts, broker, maxAttempts, n).Some?
    ensures FirstStop(codec, request, attempts, broker, maxAttempts) == n
  {
    var m := FirstStop(codec, request, attempts, broker, maxAttempts);
    if m < n {
      GoesOnAt(codec, request, attempts, broker, maxAttempts, m, n);
    } else if n < m {
      GoesOnAt(codec, request, attempts, broker, maxAttempts, n, m);
    }
  }

  /** The whole turn, `n` being the first attempt that stops the loop: the result is what that
      stop calls for. The transcript parses exactly when the caller's history is acceptable and
      every attempt up to there named the tools it called. */
  ghost predicate TurnRun(codec: Codec, request: TurnRequest, attempts: seq<AttemptStart>, scripted: bool,
                          broker: seq<BrokerRound>, maxAttempts: nat, n: nat, r: Result<TurnOutcome, TurnFailure>)
  {
    if maxAttempts == 0 || !request.Valid() then r == Err(InvalidTurnRequest)
    else
      && n == FirstStop(codec, request, attempts, broker, maxAttempts)
      && match StopAt(codec, request, attempts, broker, maxAttempts, n)
         case None => false
         case Some(Concludes(terminal)) =>
           if scripted && n + 1 != |attempts| then r == Err(UnusedAttempts)
           else if n < |attempts| && Accepted(codec, request.conversation) && AllNamed(codec, attempts, n + 1) then
             && r.Ok? && |r.value.requests| == n + 1 && r.value.terminal == terminal
             && TurnContract(codec, request, attempts, broker, maxAttempts, r.value)
           else r.Err? && r.error.Unparseable?
         case Some(stop) => r.Err? && FailsAs(stop, r.error)
  }

  /** The failure a stop other than a conclusion gives. */
  predicate FailsAs(stop: Stop, failure: TurnFailure) {
    match stop
    case Exhausted => failure == AttemptsExhausted
    case Unavailable => failure == ProviderFailed
    case Broken(attempt) => failure == AttemptFailed(attempt)
    case Garbled(calls) => failure == CallsRejected(calls)
    case Refused => failure.HostRefused? && failure.host != NoTerminalOutcome
    case Concludes(_) => false
  }

  // ----- Parsing what the loop builds -----

  ghost predicate Open(codec: Codec, raw: seq<ProviderMessage>) {
    Parse(codec, raw).Ok? ==>
      var m := Parse(codec, raw).value;
      m != [] && (m[|m| - 1].User? || m[|m| - 1].Batch?)
  }

  lemma PromptIsOpen(codec: Codec, conversation: seq<ProviderMessage>)
    requires conversation != [] && conversation[|conversation| - 1].UserMessage?
    ensures Open(codec, conversation)
  {
    var front, last := conversation[..|conversation| - 1], conversation[|conversation| - 1];
    assert conversation == front + [last];
    ParseAppend(codec, front, [last]);
    assert [last][1..] == [];
  }

  function TerminalResult(codec: Codec, terminal: Terminal): ToolResult {
    ToolResult(terminal.callId, terminal.status, ResultMessage(codec, terminal).result, Some(terminal.invocationId))
  }

  function TerminalResults(codec: Codec, terminals: seq<Terminal>): (results: seq<ToolResult>)
    ensures |results| == |terminals|
  {
    seq(|terminals|, i requires 0 <= i < |terminals| => TerminalResult(codec, terminals[i]))
  }

  /** Do the terminals answer these calls, one each, in order? */
  ghost predicate Answered(calls: seq<ToolCall>, ordered: seq<Terminal>) {
    |ordered| == |calls| && forall i :: 0 <= i < |calls| ==> ordered[i].callId == calls[i].id
  }

  function RoundMessages(codec: Codec, state: AttemptState, calls: seq<ToolCall>, ordered: seq<Terminal>): seq<ProviderMessage>
    requires state.terminal.Some? && state.terminal.value.EndedNormally?
  {
    [ToolRequestMessage(codec, state.text, state.reasoning, calls, state.terminal.value.data)] + ResultMessages(codec, ordered)
  }

  function RoundRequest(state: AttemptState, calls: seq<ToolCall>): Message
    requires state.terminal.Some? && state.terminal.value.EndedNormally?
  {
    Request(NonEmpty(state.text), calls, NonEmpty(state.reasoning), state.terminal.value.data)
  }

  lemma RoundParses(codec: Codec, state: AttemptState, calls: seq<ToolCall>, ordered: seq<Terminal>)
    requires codec.Faithful() && state.terminal.Some? && state.terminal.value.EndedNormally?
    requires calls != [] && Answered(calls, ordered) && forall i :: 0 <= i < |calls| ==> ValidId(calls[i].id)
    ensures Parse(codec, RoundMessages(codec, state, calls, ordered)) ==
            Ok([RoundRequest(state, calls), Batch(TerminalResults(codec, ordered))])
  {
    var request, batch := RoundRequest(state, calls), Batch(TerminalResults(codec, ordered));
    assert ResultIds(batch.results) == CallIds(calls);
    assert ProjectResults(batch.results) == ResultMessages(codec, ordered);
    RoundReadBack(codec, request, batch, []);
    assert [request, batch] + [] == [request, batch];
    assert ProjectMessage(codec, request) + ProjectMessage(codec, batch) + [] == RoundMessages(codec, state, calls, ordered);
  }

  lemma ExtendByRound(m: seq<Message>, request: Message, batch: Message)
    requires m != [] && (m[|m| - 1].User? || m[|m| - 1].Batch?)
    requires request.Request? && batch.Batch? && ResultIds(batch.results) == CallIds(request.calls)
    requires request.calls != [] && Distinct(CallIds(request.calls))
    ensures WellFormed(m + [request, batch]) <==> WellFormed(m) && NamesPresent(request.calls)
  {
    var whole := m + [request, batch];
    var n := |m|;
    assert whole[n] == request && whole[n + 1] == batch && whole[n - 1] == m[n - 1];
    forall i | 0 <= i < n ensures LegalAt(whole, i) <==> LegalAt(m, i) {
      if i > 0 { assert whole[i - 1] == m[i - 1]; }
    }
    assert LegalAt(whole, n) <==> NamesPresent(request.calls);
    assert LegalAt(whole, n + 1);
    if WellFormed(whole) {
      forall i | 0 <= i < n ensures LegalAt(m, i) { assert LegalAt(whole, i); }
    }
  }

  lemma ExtendByFinal(m: seq<Message>, final: Message)
    requires m != [] && (m[|m| - 1].User? || m[|m| - 1].Batch?) && final.Assistant?
    ensures WellFormed(m + [final]) <==> WellFormed(m)
  {
    var whole := m + [final];
    var n := |m|;
    assert whole[n] == final && whole[n - 1] == m[n - 1];
    forall i | 0 <= i < n ensures LegalAt(whole, i) <==> LegalAt(m, i) {
      if i > 0 { assert whole[i - 1] == m[i - 1]; }
    }
    assert LegalAt(whole, n);
    if WellFormed(whole) {
      forall i | 0 <= i < n ensures LegalAt(m, i) { assert LegalAt(whole, i); }
    }
  }

  /** One more tool round keeps the transcript open, and acceptable unless a tool name is empty. */
  lemma RoundKeepsTranscript(codec: Codec, raw: seq<ProviderMessage>, state: AttemptState, calls: seq<ToolCall>, ordered: seq<Terminal>)
    requires codec.Faithful() && Open(codec, raw)
    requires state.terminal.Some? && state.terminal.value.EndedNormally?
    requires calls != [] && Distinct(CallIds(calls)) && Answered(calls, ordered)
    requires forall i :: 0 <= i < |calls| ==> ValidId(calls[i].id)
    ensures Open(codec, raw + RoundMessages(codec, state, calls, ordered))
    ensures Accepted(codec, raw + RoundMessages(codec, state, calls, ordered)) <==>
            Accepted(codec, raw) && NamesPresent(calls)
  {
    var round := RoundMessages(codec, state, calls, ordered);
    RoundParses(codec, state, calls, ordered);
    ParseAppend(codec, raw, round);
    if Parse(codec, raw).Ok? {
      var request, batch := RoundRequest(state, calls), Batch(TerminalResults(codec, ordered));
      assert ResultIds(batch.results) == CallIds(calls);
      ExtendByRound(Parse(codec, raw).value, request, batch);
    }
  }

  lemma FinalKeepsTranscript(codec: Codec, raw: seq<ProviderMessage>, state: AttemptState)
    requires Open(codec, raw) && state.terminal.Some? && state.terminal.value.EndedNormally?
    ensures Accepted(codec, raw + [FinalMessage(state)]) <==> Accepted(codec, raw)
  {
    var final := FinalMessage(state);
    ParseAppend(codec, raw, [final]);
    var parsed := Assistant(state.text, NonEmpty(state.reasoning), state.terminal.value.data);
    assert [final][1..] == [] && [parsed] + [] == [parsed];
    assert Parse(codec, [final]) == Ok([parsed]);
    if Parse(codec, raw).Ok? {
      ExtendByFinal(Parse(codec, raw).value, parsed);
    }
  }

  // ----- Running -----

  lemma FinishedCallsAreValid(codec: Codec, partials: Partials)
    requires FinishCalls(codec, partials).Ok?
    ensures forall i :: 0 <= i < |FinishCalls(codec, partials).value| ==> ValidId(FinishCalls(codec, partials).value[i].id)
    ensures partials != map[] ==> FinishCalls(codec, partials).value != []
  {
    var calls := FinishCalls(codec, partials).value;
    forall i | 0 <= i < |calls| ensures ValidId(calls[i].id) {
      assert FinishCall(codec, i, partials[i]) == Ok(calls[i]);
    }
    if partials != map[] {
      var key :| key in partials;
      assert key in partials.Keys;
    }
  }

  lemma {:induction false} FoundIfThere(terminals: seq<Terminal>, terminal: Terminal)
    requires Distinct(TerminalIds(terminals)) && terminal in terminals
    ensures FindTerminal(terminals, terminal.callId) == terminal
  {
    var rest := terminals[1..];
    if terminals[0].callId == terminal.callId {
      SameCallSameTerminal(terminals, terminals[0], terminal);
    } else {
      assert terminals == [terminals[0]] + rest;
      assert TerminalIds(rest) == TerminalIds(terminals)[1..];
      FoundIfThere(rest, terminal);
    }
  }

  /** Putting validated terminals in call order is looking each call's terminal up. */
  lemma OrderIsLookup(scope: string, calls: seq<ToolCall>, resolved: seq<Plan>, terminals: seq<Terminal>, ordered: seq<Terminal>)
    requires PlansMatch(scope, calls, resolved) && Distinct(TerminalIds(terminals))
    requires InCallOrder(resolved, ordered) && forall terminal :: terminal in ordered ==> terminal in terminals
    ensures ordered == OrderedFor(calls, terminals)
  {
    forall i | 0 <= i < |calls| ensures ordered[i] == OrderedFor(calls, terminals)[i] {
      assert TerminalOf(resolved[i], ordered[i]) && ordered[i] in ordered;
      FoundIfThere(terminals, ordered[i]);
    }
  }

  /** Plan, approve, execute and reorder one batch; the journal entries it adds. */
  method RunRound(host: ToolHost, calls: seq<ToolCall>, round: BrokerRound, request: ProviderMessage)
    returns (r: Result<(seq<Terminal>, seq<Intent>), HostFailure>)
    modifies host
    ensures r.Ok? <==> RoundOk(host.scope, calls, old(host.seen), round)
    ensures r.Err? ==> r.error != NoTerminalOutcome
    ensures r.Ok? ==>
              && r.value.0 == OrderedFor(calls, round.terminals.value) && InCallOrder(round.resolution.value, r.value.0)
              && r.value.1 == RoundIntents(request, round.resolution.value, round.terminals.value, r.value.0)
              && (forall terminal :: terminal in r.value.0 ==> terminal in round.terminals.value)
              && host.seen == old(host.seen) + Elements(InvocationIds(host.scope, calls))
  {
    var planned := host.Plan(calls, round.plans);
    if planned.Err? {
      return Err(planned.error);
    }
    var approved := host.ResolveApprovals(planned.value, round.resolution);
    if approved.Err? {
      return Err(approved.error);
    }
    IssuedCallsAreDistinct(host.scope, calls, old(host.seen));
    assert PlansMatch(host.scope, calls, approved.value);
    assert PlanIds(approved.value) == CallIds(calls);
    var dispatch := JournalPlans(approved.value);
    var executed := host.Execute(approved.value, round.terminals);
    if executed.Err? {
      return Err(executed.error);
    }
    var ends := JournalTerminals(executed.value);
    var ordered := OrderTerminals(approved.value, executed.value);
    OrderIsLookup(host.scope, calls, approved.value, executed.value, ordered.value);
    var intents := [AppendToolRequest(request)] + dispatch + ends + [AppendResultBatch(ordered.value)];
    return Ok((ordered.value, intents));
  }

  ghost predicate JournalMatches(codec: Codec, scope: string, intents: seq<Intent>, raw: seq<ProviderMessage>, seen: set<string>) {
    && Rebuild(codec, intents) == raw
    && WatchAll(map[], intents).Some?
    && AllEnded(WatchAll(map[], intents).value)
    && (forall key :: key in WatchAll(map[], intents).value <==> key in seen)
  }

  /** What one successful tool round does to the transcript and the journal. */
  lemma RoundExtends(codec: Codec, scope: string, intents: seq<Intent>, raw: seq<ProviderMessage>, seen: set<string>,
                     state: AttemptState, calls: seq<ToolCall>, resolved: seq<Plan>, completed: seq<Terminal>, ordered: seq<Terminal>)
    requires state.terminal.Some? && state.terminal.value.EndedNormally?
    requires JournalMatches(codec, scope, intents, raw, seen)
    requires Issuable(scope, calls, seen) && PlansMatch(scope, calls, resolved)
    requires TerminalsMatch(resolved, completed) && InCallOrder(resolved, ordered)
    ensures var request := ToolRequestMessage(codec, state.text, state.reasoning, calls, state.terminal.value.data);
            JournalMatches(codec, scope, intents + RoundIntents(request, resolved, completed, ordered),
                           raw + RoundMessages(codec, state, calls, ordered), seen + Elements(InvocationIds(scope, calls)))
  {
    var request := ToolRequestMessage(codec, state.text, state.reasoning, calls, state.terminal.value.data);
    var round := RoundIntents(request, resolved, completed, ordered);
    assert PlanKeys(resolved) == InvocationIds(scope, calls);
    forall i, j | 0 <= i < j < |resolved| ensures resolved[i].invocationId != resolved[j].invocationId {
      assert InvocationIds(scope, calls)[i] != InvocationIds(scope, calls)[j];
    }
    IssuedCallsAreDistinct(scope, calls, seen);
    assert PlanIds(resolved) == CallIds(calls);
    RoundIsLawful(WatchAll(map[], intents).value, request, resolved, completed, ordered);
    WatchAppend(map[], intents, round);
    RebuildAppend(codec, intents, round);
    RoundRebuilds(codec, request, resolved, completed, ordered);
  }

  lemma RoundAnswers(scope: string, calls: seq<ToolCall>, resolved: seq<Plan>, ordered: seq<Terminal>)
    requires PlansMatch(scope, calls, resolved) && InCallOrder(resolved, ordered)
    ensures Answered(calls, ordered)
    ensures forall i :: 0 <= i < |calls| ==> ordered[i].invocationId == InvocationId(scope, calls[i].id)
  {
  }

  lemma AnswersInOrder(codec: Codec, scope: string, calls: seq<ToolCall>, ordered: seq<Terminal>)
    requires Answered(calls, ordered)
    requires forall i :: 0 <= i < |calls| ==> ordered[i].invocationId == InvocationId(scope, calls[i].id)
    ensures |ResultMessages(codec, ordered)| == |calls|
    ensures forall i :: 0 <= i < |calls| ==> AnswersCall(ResultMessages(codec, ordered)[i], scope, calls[i].id)
  {
    forall i | 0 <= i < |calls| ensures AnswersCall(ResultMessages(codec, ordered)[i], scope, calls[i].id) {
      assert ResultMessages(codec, ordered)[i] == ResultMessage(codec, ordered[i]);
    }
  }

  lemma RoundIsToolRound(codec: Codec, scope: string, state: AttemptState, calls: seq<ToolCall>, round: BrokerRound, ordered: seq<Terminal>)
    requires EndsAsking(state) && FinishCalls(codec, state.partials) == Ok(calls)
    requires round.resolution.Ok? && round.terminals.Ok?
    requires PlansMatch(scope, calls, round.resolution.value) && InCallOrder(round.resolution.value, ordered)
    requires ordered == OrderedFor(calls, round.terminals.value)
    requires forall terminal :: terminal in ordered ==> terminal in round.terminals.value
    ensures ToolRound(codec, scope, state, round, RoundMessages(codec, state, calls, ordered))
    ensures Answered(calls, ordered)
  {
    RoundAnswers(scope, calls, round.resolution.value, ordered);
    AnswersInOrder(codec, scope, calls, ordered);
    var added := RoundMessages(codec, state, calls, ordered);
    forall i | 0 <= i < |calls| ensures AnswersCall(added[1 + i], scope, calls[i].id) {
      assert added[1 + i] == ResultMessages(codec, ordered)[i];
    }
  }

  lemma PromptedExtends(system: Option<string>, raw: seq<ProviderMessage>, added: seq<ProviderMessage>)
    ensures Prompted(system, raw + added) == Prompted(system, raw) + added
  {
  }

  lemma ExtensionIsPrefixed(before: seq<ProviderMessage>, added: seq<ProviderMessage>)
    ensures before <= before + added && (before + added)[|before|..] == added
  {
  }

  /** Seen from the requests: a tool round extends the last one. */
  lemma RoundIsRequestStep(codec: Codec, scope: string, start: AttemptStart, broker: seq<BrokerRound>, k: nat,
                           system: Option<string>, raw: seq<ProviderMessage>, state: AttemptState, added: seq<ProviderMessage>)
    requires start.Streaming? && Consumed(start.items) == Ok(state) && k < |broker|
    requires ToolRound(codec, scope, state, broker[k], added)
    ensures RequestStep(codec, scope, start, broker, k, Prompted(system, raw), Prompted(system, raw + added))
  {
    PromptedExtends(system, raw, added);
    ExtensionIsPrefixed(Prompted(system, raw), added);
  }

  lemma NamedCallsAre(codec: Codec, start: AttemptStart, state: AttemptState, calls: seq<ToolCall>)
    requires start.Streaming? && Consumed(start.items) == Ok(state)
    requires state.terminal.Some? && state.terminal.value.EndedNormally?
    requires FinishCalls(codec, state.partials) == Ok(calls)
    ensures NamedCalls(codec, start) <==> NamesPresent(calls)
  {
  }

  // ----- The transcript, attempt by attempt -----

  ghost predicate AllNamed(codec: Codec, attempts: seq<AttemptStart>, n: nat)
    requires n <= |attempts|
  {
    n > 0 ==> AllNamed(codec, attempts, n - 1) && NamedCalls(codec, attempts[n - 1])
  }

  /** The provider conversation after `i` attempts. */
  function RawOf(codec: Codec, request: TurnRequest, attempts: seq<AttemptStart>, broker: seq<BrokerRound>, i: nat): seq<ProviderMessage>
    requires i <= |attempts|
  {
    Rebuild(codec, JournalOf(codec, request, attempts, broker, i))
  }

  function RequestOf(codec: Codec, request: TurnRequest, attempts: seq<AttemptStart>, broker: seq<BrokerRound>, i: nat): seq<ProviderMessage>
    requires i <= |attempts|
  {
    Prompted(request.system, RawOf(codec, request, attempts, broker, i))
  }

  /** The first `n` provider requests. */
  function RequestsOf(codec: Codec, request: TurnRequest, attempts: seq<AttemptStart>, broker: seq<BrokerRound>, n: nat)
    : (requests: seq<seq<ProviderMessage>>)
    requires n <= |attempts|
    ensures |requests| == n
  {
    seq(n, i requires 0 <= i < n => RequestOf(codec, request, attempts, broker, i))
  }

  /** The journal replays to the transcript and is lawful, and every effect has ended. */
  ghost predicate Sound(codec: Codec, request: TurnRequest, attempts: seq<AttemptStart>, broker: seq<BrokerRound>, n: nat)
    requires n <= |attempts|
  {
    JournalMatches(codec, request.scope, JournalOf(codec, request, attempts, broker, n),
                   RawOf(codec, request, attempts, broker, n), Issued(codec, request.scope, attempts, n))
  }

  /** The transcript is acceptable exactly when the caller's was and every called tool is named. */
  ghost predicate Faultless(codec: Codec, request: TurnRequest, attempts: seq<AttemptStart>, broker: seq<BrokerRound>, n: nat)
    requires n <= |attempts|
  {
    Accepted(codec, RawOf(codec, request, attempts, broker, n)) <==> Accepted(codec, request.conversation) && AllNamed(codec, attempts, n)
  }

  lemma StartIsSound(codec: Codec, request: TurnRequest, attempts: seq<AttemptStart>, broker: seq<BrokerRound>)
    requires request.Valid()
    ensures RawOf(codec, request, attempts, broker, 0) == request.conversation
    ensures Sound(codec, request, attempts, broker, 0) && Faultless(codec, request, attempts, broker, 0)
    ensures Open(codec, RawOf(codec, request, attempts, broker, 0))
  {
    RebuildAppends(codec, request.conversation);
    WatchAppends(map[], request.conversation);
    PromptIsOpen(codec, request.conversation);
  }

  /** What attempt `n` adds to the transcript is what its entries replay to. */
  lemma RawGrows(codec: Codec, request: TurnRequest, attempts: seq<AttemptStart>, broker: seq<BrokerRound>, n: nat)
    requires n < |attempts|
    ensures RawOf(codec, request, attempts, broker, n + 1)
            == RawOf(codec, request, attempts, broker, n) + Rebuild(codec, Entries(codec, attempts[n], broker, Rounds(attempts, n)))
  {
    RebuildAppend(codec, JournalOf(codec, request, attempts, broker, n), Entries(codec, attempts[n], broker, Rounds(attempts, n)));
  }

  /** The attempt ended without a final message and without asking for tools. */
  predicate Mute(start: AttemptStart) {
    && start.Streaming? && Consumed(start.items).Ok?
    && var state := Consumed(start.items).value; !(state.terminal.Some? && state.terminal.value.EndedNormally?)
  }

  /** The attempt ended with a final message. */
  predicate Replies(start: AttemptStart) {
    && start.Streaming? && Consumed(start.items).Ok?
    && var state := Consumed(start.items).value;
       state.terminal.Some? && state.terminal.value.EndedNormally? && state.partials == map[]
  }

  /** The attempt asks for tools and the broker's round for it is let through. */
  ghost predicate AsksAndGets(codec: Codec, request: TurnRequest, attempts: seq<AttemptStart>, broker: seq<BrokerRound>, n: nat)
    requires n < |attempts|
  {
    && Asks(attempts[n]) && FinishCalls(codec, Consumed(attempts[n].items).value.partials).Ok?
    && Rounds(attempts, n) < |broker|
    && RoundOk(request.scope, CallsIn(codec, attempts[n]), Issued(codec, request.scope, attempts, n), broker[Rounds(attempts, n)])
  }

  lemma ThreeWays(codec: Codec, request: TurnRequest, attempts: seq<AttemptStart>, broker: seq<BrokerRound>, maxAttempts: nat, n: nat)
    requires n < |attempts|
    ensures StopAt(codec, request, attempts, broker, maxAttempts, n).None? ==>
              Mute(attempts[n]) || AsksAndGets(codec, request, attempts, broker, n)
    ensures var stop := StopAt(codec, request, attempts, broker, maxAttempts, n);
            stop.Some? && stop.value.Concludes? ==> Mute(attempts[n]) || Replies(attempts[n])
  {
  }

  /** A mute attempt leaves transcript and journal alone. */
  lemma MuteAddsNothing(codec: Codec, request: TurnRequest, attempts: seq<AttemptStart>, broker: seq<BrokerRound>, n: nat)
    requires n < |attempts| && Mute(attempts[n])
    ensures JournalOf(codec, request, attempts, broker, n + 1) == JournalOf(codec, request, attempts, broker, n)
    ensures RawOf(codec, request, attempts, broker, n + 1) == RawOf(codec, request, attempts, broker, n)
    ensures Issued(codec, request.scope, attempts, n + 1) == Issued(codec, request.scope, attempts, n)
    ensures Rounds(attempts, n + 1) == Rounds(attempts, n)
    ensures NamedCalls(codec, attempts[n])
  {
    assert Entries(codec, attempts[n], broker, Rounds(attempts, n)) == [];
    assert Elements(InvocationIds(request.scope, [])) == {};
  }

  lemma MuteKeepsSound(codec: Codec, request: TurnRequest, attempts: seq<AttemptStart>, broker: seq<BrokerRound>, n: nat)
    requires n < |attempts| && Mute(attempts[n])
    requires Sound(codec, request, attempts, broker, n) && Faultless(codec, request, attempts, broker, n)
    ensures Sound(codec, request, attempts, broker, n + 1) && Faultless(codec, request, attempts, broker, n + 1)
  {
    MuteAddsNothing(codec, request, attempts, broker, n);
  }

  lemma AnswerEntry(codec: Codec, request: TurnRequest, attempts: seq<AttemptStart>, broker: seq<BrokerRound>, n: nat)
    requires n < |attempts| && Replies(attempts[n])
    ensures var final := FinalMessage(Consumed(attempts[n].items).value);
            && JournalOf(codec, request, attempts, broker, n + 1) == JournalOf(codec, request, attempts, broker, n) + [AppendMessage(final)]
            && RawOf(codec, request, attempts, broker, n + 1) == RawOf(codec, request, attempts, broker, n) + [final]
    ensures Issued(codec, request.scope, attempts, n + 1) == Issued(codec, request.scope, attempts, n)
    ensures NamedCalls(codec, attempts[n])
  {
    var final := FinalMessage(Consumed(attempts[n].items).value);
    assert Entries(codec, attempts[n], broker, Rounds(attempts, n)) == [AppendMessage(final)];
    RawGrows(codec, request, attempts, broker, n);
    assert Rebuild(codec, [AppendMessage(final)]) == [final];
    assert Elements(InvocationIds(request.scope, [])) == {};
  }

  lemma FinalIsJournaled(codec: Codec, scope: string, intents: seq<Intent>, raw: seq<ProviderMessage>, seen: set<string>, final: ProviderMessage)
    requires JournalMatches(codec, scope, intents, raw, seen)
    ensures JournalMatches(codec, scope, intents + [AppendMessage(final)], raw + [final], seen)
  {
    RebuildAppend(codec, intents, [AppendMessage(final)]);
    WatchAppend(map[], intents, [AppendMessage(final)]);
    assert Rebuild(codec, [AppendMessage(final)]) == [final];
    var stages := WatchAll(map[], intents).value;
    assert WatchAll(stages, [AppendMessage(final)]) == Some(stages);
  }

  lemma AnswerKeepsSound(codec: Codec, request: TurnRequest, attempts: seq<AttemptStart>, broker: seq<BrokerRound>, n: nat)
    requires n < |attempts| && Replies(attempts[n]) && Open(codec, RawOf(codec, request, attempts, broker, n))
    requires Sound(codec, request, attempts, broker, n) && Faultless(codec, request, attempts, broker, n)
    ensures Sound(codec, request, attempts, broker, n + 1) && Faultless(codec, request, attempts, broker, n + 1)
  {
    var state := Consumed(attempts[n].items).value;
    AnswerEntry(codec, request, attempts, broker, n);
    FinalKeepsTranscript(codec, RawOf(codec, request, attempts, broker, n), state);
    FinalIsJournaled(codec, request.scope, JournalOf(codec, request, attempts, broker, n), RawOf(codec, request, attempts, broker, n),
                     Issued(codec, request.scope, attempts, n), FinalMessage(state));
  }

  function RoundAdded(codec: Codec, start: AttemptStart, round: BrokerRound): seq<ProviderMessage>
    requires Asks(start) && round.terminals.Ok?
  {
    RoundMessages(codec, Consumed(start.items).value, CallsIn(codec, start), OrderedFor(CallsIn(codec, start), round.terminals.value))
  }

  lemma ToolEntries(codec: Codec, request: TurnRequest, attempts: seq<AttemptStart>, broker: seq<BrokerRound>, n: nat)
    requires n < |attempts| && AsksAndGets(codec, request, attempts, broker, n)
    ensures var start, round := attempts[n], broker[Rounds(attempts, n)];
            var state, calls := Consumed(start.items).value, CallsIn(codec, start);
            && FinishCalls(codec, state.partials) == Ok(calls)
            && JournalOf(codec, request, attempts, broker, n + 1)
               == JournalOf(codec, request, attempts, broker, n)
                  + RoundIntents(ToolRequestMessage(codec, state.text, state.reasoning, calls, state.terminal.value.data),
                                 round.resolution.value, round.terminals.value, OrderedFor(calls, round.terminals.value))
            && RawOf(codec, request, attempts, broker, n + 1)
               == RawOf(codec, request, attempts, broker, n) + RoundAdded(codec, start, round)
            && Issued(codec, request.scope, attempts, n + 1)
               == Issued(codec, request.scope, attempts, n) + Elements(InvocationIds(request.scope, calls))
            && Rounds(attempts, n + 1) == Rounds(attempts, n) + 1
  {
    var start, round := attempts[n], broker[Rounds(attempts, n)];
    var state, calls := Consumed(start.items).value, CallsIn(codec, start);
    RawGrows(codec, request, attempts, broker, n);
    RoundRebuilds(codec, ToolRequestMessage(codec, state.text, state.reasoning, calls, state.terminal.value.data),
                  round.resolution.value, round.terminals.value, OrderedFor(calls, round.terminals.value));
  }

  /** The lookup finds every call's own terminal among those the broker gave. */
  lemma LookupOrders(scope: string, calls: seq<ToolCall>, issued: set<string>, round: BrokerRound)
    requires RoundOk(scope, calls, issued, round)
    ensures PlansMatch(scope, calls, round.resolution.value)
    ensures InCallOrder(round.resolution.value, OrderedFor(calls, round.terminals.value))
    ensures forall terminal :: terminal in OrderedFor(calls, round.terminals.value) ==> terminal in round.terminals.value
  {
    var resolved, terminals := round.resolution.value, round.terminals.value;
    assert PlansMatch(scope, calls, resolved);
    IssuedCallsAreDistinct(scope, calls, issued);
    assert PlanIds(resolved) == CallIds(calls);
    EveryPlanHasATerminal(resolved, terminals);
    forall i | 0 <= i < |calls|
      ensures TerminalOf(resolved[i], OrderedFor(calls, terminals)[i]) && OrderedFor(calls, terminals)[i] in terminals
    {
      var j :| 0 <= j < |terminals| && TerminalIds(terminals)[j] == resolved[i].callId;
      FoundIfThere(terminals, terminals[j]);
      TerminalMatchesItsPlan(resolved, terminals, i, terminals[j]);
    }
  }

  lemma ToolsKeepSound(codec: Codec, request: TurnRequest, attempts: seq<AttemptStart>, broker: seq<BrokerRound>, n: nat)
    requires codec.Faithful() && n < |attempts| && AsksAndGets(codec, request, attempts, broker, n)
    requires Sound(codec, request, attempts, broker, n)
    ensures Sound(codec, request, attempts, broker, n + 1)
  {
    var start, round := attempts[n], broker[Rounds(attempts, n)];
    var calls := CallsIn(codec, start);
    ToolEntries(codec, request, attempts, broker, n);
    LookupOrders(request.scope, calls, Issued(codec, request.scope, attempts, n), round);
    RoundExtends(codec, request.scope, JournalOf(codec, request, attempts, broker, n), RawOf(codec, request, attempts, broker, n),
                 Issued(codec, request.scope, attempts, n), Consumed(start.items).value, calls, round.resolution.value,
                 round.terminals.value, OrderedFor(calls, round.terminals.value));
  }

  lemma ToolsKeepTranscript(codec: Codec, request: TurnRequest, attempts: seq<AttemptStart>, broker: seq<BrokerRound>, n: nat)
    requires codec.Faithful() && n < |attempts| && AsksAndGets(codec, request, attempts, broker, n)
    requires Open(codec, RawOf(codec, request, attempts, broker, n)) && Faultless(codec, request, attempts, broker, n)
    ensures Open(codec, RawOf(codec, request, attempts, broker, n + 1)) && Faultless(codec, request, attempts, broker, n + 1)
  {
    var start, round := attempts[n], broker[Rounds(attempts, n)];
    var state, calls := Consumed(start.items).value, CallsIn(codec, start);
    ToolEntries(codec, request, attempts, broker, n);
    LookupOrders(request.scope, calls, Issued(codec, request.scope, attempts, n), round);
    FinishedCallsAreValid(codec, state.partials);
    IssuedCallsAreDistinct(request.scope, calls, Issued(codec, request.scope, attempts, n));
    RoundAnswers(request.scope, calls, round.resolution.value, OrderedFor(calls, round.terminals.value));
    RoundKeepsTranscript(codec, RawOf(codec, request, attempts, broker, n), state, calls, OrderedFor(calls, round.terminals.value));
    NamedCallsAre(codec, start, state, calls);
  }

  /** While the loop goes on, journal and transcript are as they should be. */
  lemma {:induction false} SoundWhileGoing(codec: Codec, request: TurnRequest, attempts: seq<AttemptStart>, broker: seq<BrokerRound>,
                                           maxAttempts: nat, n: nat)
    requires codec.Faithful() && request.Valid() && n <= |attempts|
    requires GoesOn(codec, request, attempts, broker, maxAttempts, n)
    ensures Sound(codec, request, attempts, broker, n) && Faultless(codec, request, attempts, broker, n)
    ensures Open(codec, RawOf(codec, request, attempts, broker, n))
    decreases n
  {
    if n == 0 {
      StartIsSound(codec, request, attempts, broker);
    } else {
      SoundWhileGoing(codec, request, attempts, broker, maxAttempts, n - 1);
      SoundOnward(codec, request, attempts, broker, maxAttempts, n - 1);
    }
  }

  lemma SoundOnward(codec: Codec, request: TurnRequest, attempts: seq<AttemptStart>, broker: seq<BrokerRound>, maxAttempts: nat, n: nat)
    requires codec.Faithful() && n < |attempts| && StopAt(codec, request, attempts, broker, maxAttempts, n).None?
    requires Sound(codec, request, attempts, broker, n) && Faultless(codec, request, attempts, broker, n)
    requires Open(codec, RawOf(codec, request, attempts, broker, n))
    ensures Sound(codec, request, attempts, broker, n + 1) && Faultless(codec, request, attempts, broker, n + 1)
    ensures Open(codec, RawOf(codec, request, attempts, broker, n + 1))
  {
    ThreeWays(codec, request, attempts, broker, maxAttempts, n);
    if Mute(attempts[n]) {
      MuteKeepsSound(codec, request, attempts, broker, n);
      MuteAddsNothing(codec, request, attempts, broker, n);
    } else {
      ToolsKeepSound(codec, request, attempts, broker, n);
      ToolsKeepTranscript(codec, request, attempts, broker, n);
    }
  }

  /** An attempt that does not stop the loop leads from its request to the next. */
  lemma StepBetweenRequests(codec: Codec, request: TurnRequest, attempts: seq<AttemptStart>, broker: seq<BrokerRound>,
                            maxAttempts: nat, i: nat)
    requires i < |attempts| && StopAt(codec, request, attempts, broker, maxAttempts, i).None?
    ensures RequestStep(codec, request.scope, attempts[i], broker, Rounds(attempts, i),
                        RequestOf(codec, request, attempts, broker, i), RequestOf(codec, request, attempts, broker, i + 1))
  {
    ThreeWays(codec, request, attempts, broker, maxAttempts, i);
    if Mute(attempts[i]) {
      MuteAddsNothing(codec, request, attempts, broker, i);
    } else {
      ToolStepBetween(codec, request, attempts, broker, i);
    }
  }

  lemma ToolStepBetween(codec: Codec, request: TurnRequest, attempts: seq<AttemptStart>, broker: seq<BrokerRound>, i: nat)
    requires i < |attempts| && AsksAndGets(codec, request, attempts, broker, i)
    ensures RequestStep(codec, request.scope, attempts[i], broker, Rounds(attempts, i),
                        RequestOf(codec, request, attempts, broker, i), RequestOf(codec, request, attempts, broker, i + 1))
  {
    var start, round := attempts[i], broker[Rounds(attempts, i)];
    var calls := CallsIn(codec, start);
    ToolEntries(codec, request, attempts, broker, i);
    LookupOrders(request.scope, calls, Issued(codec, request.scope, attempts, i), round);
    RoundIsToolRound(codec, request.scope, Consumed(start.items).value, calls, round, OrderedFor(calls, round.terminals.value));
    RoundIsRequestStep(codec, request.scope, start, broker, Rounds(attempts, i), request.system,
                       RawOf(codec, request, attempts, broker, i), Consumed(start.items).value, RoundAdded(codec, start, round));
  }

  /** The attempt that concludes leads from its request to the final conversation. */
  lemma StepToTheEnd(codec: Codec, request: TurnRequest, attempts: seq<AttemptStart>, broker: seq<BrokerRound>,
                     maxAttempts: nat, n: nat, terminal: TurnTerminal)
    requires n < |attempts| && StopAt(codec, request, attempts, broker, maxAttempts, n) == Some(Concludes(terminal))
    ensures FinalStep(attempts[n], RequestOf(codec, request, attempts, broker, n), RequestOf(codec, request, attempts, broker, n + 1), terminal)
  {
    ThreeWays(codec, request, attempts, broker, maxAttempts, n);
    if Mute(attempts[n]) {
      MuteAddsNothing(codec, request, attempts, broker, n);
    } else {
      AnswerEntry(codec, request, attempts, broker, n);
      PromptedExtends(request.system, RawOf(codec, request, attempts, broker, n), [FinalMessage(Consumed(attempts[n].items).value)]);
    }
  }

  lemma RequestsChain(codec: Codec, request: TurnRequest, attempts: seq<AttemptStart>, broker: seq<BrokerRound>,
                      maxAttempts: nat, n: nat)
    requires n < |attempts| && GoesOn(codec, request, attempts, broker, maxAttempts, n)
    ensures RequestsGrow(codec, request.scope, attempts, broker, RequestsOf(codec, request, attempts, broker, n + 1))
  {
    var requests := RequestsOf(codec, request, attempts, broker, n + 1);
    forall i {:trigger GrewAt(codec, request.scope, attempts, broker, requests, i)} | 0 <= i < |requests| - 1
      ensures GrewAt(codec, request.scope, attempts, broker, requests, i)
    {
      ChainAt(codec, request, attempts, broker, maxAttempts, n, i);
    }
  }

  lemma ChainAt(codec: Codec, request: TurnRequest, attempts: seq<AttemptStart>, broker: seq<BrokerRound>,
                maxAttempts: nat, n: nat, i: nat)
    requires i < n < |attempts| && GoesOn(codec, request, attempts, broker, maxAttempts, n)
    ensures GrewAt(codec, request.scope, attempts, broker, RequestsOf(codec, request, attempts, broker, n + 1), i)
  {
    GoesOnAt(codec, request, attempts, broker, maxAttempts, i, n);
    StepBetweenRequests(codec, request, attempts, broker, maxAttempts, i);
    RequestAt(codec, request, attempts, broker, n + 1, i);
    RequestAt(codec, request, attempts, broker, n + 1, i + 1);
  }

  lemma RequestAt(codec: Codec, request: TurnRequest, attempts: seq<AttemptStart>, broker: seq<BrokerRound>, n: nat, i: nat)
    requires i < n <= |attempts|
    ensures RequestsOf(codec, request, attempts, broker, n)[i] == RequestOf(codec, request, attempts, broker, i)
  {
  }

  lemma EndIsSound(codec: Codec, request: TurnRequest, attempts: seq<AttemptStart>, broker: seq<BrokerRound>,
                   maxAttempts: nat, n: nat, terminal: TurnTerminal)
    requires codec.Faithful() && request.Valid() && n < |attempts|
    requires GoesOn(codec, request, attempts, broker, maxAttempts, n)
    requires StopAt(codec, request, attempts, broker, maxAttempts, n) == Some(Concludes(terminal))
    ensures Sound(codec, request, attempts, broker, n + 1) && Faultless(codec, request, attempts, broker, n + 1)
  {
    SoundWhileGoing(codec, request, attempts, broker, maxAttempts, n);
    ThreeWays(codec, request, attempts, broker, maxAttempts, n);
    if Mute(attempts[n]) {
      MuteKeepsSound(codec, request, attempts, broker, n);
    } else {
      AnswerKeepsSound(codec, request, attempts, broker, n);
    }
  }

  /** A concluded turn that parses meets the contract. */
  lemma ConclusionMeetsContract(codec: Codec, request: TurnRequest, attempts: seq<AttemptStart>, broker: seq<BrokerRound>,
                                maxAttempts: nat, n: nat, outcome: TurnOutcome)
    requires codec.Faithful() && request.Valid() && n < |attempts|
    requires GoesOn(codec, request, attempts, broker, maxAttempts, n)
    requires StopAt(codec, request, attempts, broker, maxAttempts, n) == Some(Concludes(outcome.terminal))
    requires outcome.requests == RequestsOf(codec, request, attempts, broker, n + 1)
    requires outcome.intents == JournalOf(codec, request, attempts, broker, n + 1)
    requires Accepted(codec, RawOf(codec, request, attempts, broker, n + 1))
    requires Parse(codec, RawOf(codec, request, attempts, broker, n + 1)) == Ok(outcome.conversation)
    ensures TurnContract(codec, request, attempts, broker, maxAttempts, outcome)
  {
    StartIsSound(codec, request, attempts, broker);
    RequestsChain(codec, request, attempts, broker, maxAttempts, n);
    StepToTheEnd(codec, request, attempts, broker, maxAttempts, n, outcome.terminal);
    EndIsSound(codec, request, attempts, broker, maxAttempts, n, outcome.terminal);
    WithinBudget(codec, request, attempts, broker, maxAttempts, n, outcome.terminal);
  }

  lemma WithinBudget(codec: Codec, request: TurnRequest, attempts: seq<AttemptStart>, broker: seq<BrokerRound>,
                     maxAttempts: nat, n: nat, terminal: TurnTerminal)
    requires n < |attempts| && StopAt(codec, request, attempts, broker, maxAttempts, n) == Some(Concludes(terminal))
    ensures n < maxAttempts
  {
  }

  // ----- Running -----

  /** The loop's variables after `n` attempts. */
  ghost predicate AfterAttempts(codec: Codec, request: TurnRequest, attempts: seq<AttemptStart>, broker: seq<BrokerRound>, n: nat,
                                requests: seq<seq<ProviderMessage>>, raw: seq<ProviderMessage>, intents: seq<Intent>)
  {
    && n <= |attempts|
    && requests == RequestsOf(codec, request, attempts, broker, n)
    && raw == RawOf(codec, request, attempts, broker, n)
    && intents == JournalOf(codec, request, attempts, broker, n)
  }

  lemma Submitted(codec: Codec, request: TurnRequest, attempts: seq<AttemptStart>, broker: seq<BrokerRound>, n: nat)
    requires n < |attempts|
    ensures RequestsOf(codec, request, attempts, broker, n + 1)
            == RequestsOf(codec, request, attempts, broker, n) + [RequestOf(codec, request, attempts, broker, n)]
  {
  }

  /** The tool round an attempt asks for. */
  method RunTools(codec: Codec, request: TurnRequest, attempts: seq<AttemptStart>, broker: seq<BrokerRound>, ghost maxAttempts: nat,
                  host: ToolHost, n: nat, rounds: nat, raw: seq<ProviderMessage>, intents: seq<Intent>, state: AttemptState)
    returns (failure: Option<TurnFailure>, raw': seq<ProviderMessage>, intents': seq<Intent>)
    requires host.scope == request.scope && n < |attempts| && n < maxAttempts
    requires Asks(attempts[n]) && Consumed(attempts[n].items) == Ok(state)
    requires host.seen == Issued(codec, request.scope, attempts, n) && rounds == Rounds(attempts, n) <= |broker|
    requires raw == RawOf(codec, request, attempts, broker, n) && intents == JournalOf(codec, request, attempts, broker, n)
    modifies host
    ensures var stop := StopAt(codec, request, attempts, broker, maxAttempts, n);
            match failure
            case Some(f) => stop.Some? && FailsAs(stop.value, f)
            case None => stop.None? && AsksAndGets(codec, request, attempts, broker, n)
    ensures failure.None? ==>
              && host.seen == Issued(codec, request.scope, attempts, n + 1) && Rounds(attempts, n + 1) <= |broker|
              && raw' == RawOf(codec, request, attempts, broker, n + 1) && intents' == JournalOf(codec, request, attempts, broker, n + 1)
  {
    raw', intents' := raw, intents;
    var finished := FinishCalls(codec, state.partials);
    if finished.Err? {
      return Some(CallsRejected(finished.error)), raw, intents;
    }
    if rounds == |broker| {
      return Some(HostRefused(BrokerFailed)), raw, intents;
    }
    var calls := finished.value;
    var message := ToolRequestMessage(codec, state.text, state.reasoning, calls, state.terminal.value.data);
    var outcome := RunRound(host, calls, broker[rounds], message);
    if outcome.Err? {
      return Some(HostRefused(outcome.error)), raw, intents;
    }
    var (ordered, added) := outcome.value;
    ToolEntries(codec, request, attempts, broker, n);
    failure, raw', intents' := None, raw + ([message] + ResultMessages(codec, ordered)), intents + added;
  }

  /** One attempt: it fails the turn, concludes it, or the loop goes round again. */
  method RunAttempt(codec: Codec, request: TurnRequest, attempts: seq<AttemptStart>, broker: seq<BrokerRound>, maxAttempts: nat,
                    host: ToolHost, n: nat, rounds: nat, raw: seq<ProviderMessage>, intents: seq<Intent>)
    returns (failure: Option<TurnFailure>, conclusion: Option<TurnTerminal>, raw': seq<ProviderMessage>, intents': seq<Intent>,
             rounds': nat)
    requires host.scope == request.scope && n <= |attempts|
    requires host.seen == Issued(codec, request.scope, attempts, n) && rounds == Rounds(attempts, n) <= |broker|
    requires raw == RawOf(codec, request, attempts, broker, n) && intents == JournalOf(codec, request, attempts, broker, n)
    modifies host
    ensures var stop := StopAt(codec, request, attempts, broker, maxAttempts, n);
            match failure
            case Some(f) => stop.Some? && FailsAs(stop.value, f)
            case None => n < |attempts| && n < maxAttempts
                         && stop == match conclusion { case Some(terminal) => Some(Concludes(terminal)) case None => None }
    ensures failure.None? ==>
              raw' == RawOf(codec, request, attempts, broker, n + 1) && intents' == JournalOf(codec, request, attempts, broker, n + 1)
    ensures failure.None? && conclusion.None? ==>
              host.seen == Issued(codec, request.scope, attempts, n + 1) && rounds' == Rounds(attempts, n + 1) <= |broker|
  {
    conclusion, raw', intents', rounds' := None, raw, intents, rounds;
    if maxAttempts <= n {
      failure := Some(AttemptsExhausted);
      return;
    }
    if n == |attempts| || attempts[n].StartFailed? {
      failure := Some(ProviderFailed);
      return;
    }
    var attempt := attempts[n];
    var consumed := Consume(attempt.items);
    if consumed.Err? {
      failure := Some(AttemptFailed(consumed.error));
      return;
    }
    var state := consumed.value;
    failure, conclusion := None, Conclusion(attempt.fallbackBeforeOutput, state);
    if !(state.terminal.Some? && state.terminal.value.EndedNormally?) {
      MuteAddsNothing(codec, request, attempts, broker, n);
    } else if state.partials == map[] {
      AnswerEntry(codec, request, attempts, broker, n);
      var final := FinalMessage(state);
      raw', intents' := raw + [final], intents + [AppendMessage(final)];
    } else {
      failure, raw', intents' := RunTools(codec, request, attempts, broker, maxAttempts, host, n, rounds, raw, intents, state);
      rounds' := rounds + 1;
    }
  }

  lemma FailsTheTurn(codec: Codec, request: TurnRequest, attempts: seq<AttemptStart>, scripted: bool, broker: seq<BrokerRound>,
                     maxAttempts: nat, n: nat, failure: TurnFailure)
    requires maxAttempts > 0 && request.Valid()
    requires n <= |attempts| && GoesOn(codec, request, attempts, broker, maxAttempts, n)
    requires var stop := StopAt(codec, request, attempts, broker, maxAttempts, n); stop.Some? && FailsAs(stop.value, failure)
    ensures TurnRun(codec, request, attempts, scripted, broker, maxAttempts, FirstStop(codec, request, attempts, broker, maxAttempts),
                    Err(failure))
  {
    FirstStopIs(codec, request, attempts, broker, maxAttempts, n);
  }

  /** The turn after its conclusion: the unused attempts, then the closing parse. */
  method Close(codec: Codec, request: TurnRequest, attempts: seq<AttemptStart>, scripted: bool, broker: seq<BrokerRound>,
               ghost maxAttempts: nat, ghost n: nat, requests: seq<seq<ProviderMessage>>, raw: seq<ProviderMessage>,
               intents: seq<Intent>, terminal: TurnTerminal)
    returns (r: Result<TurnOutcome, TurnFailure>)
    requires codec.Faithful() && request.Valid() && n < |attempts| && n < maxAttempts
    requires GoesOn(codec, request, attempts, broker, maxAttempts, n)
    requires StopAt(codec, request, attempts, broker, maxAttempts, n) == Some(Concludes(terminal))
    requires AfterAttempts(codec, request, attempts, broker, n + 1, requests, raw, intents)
    ensures TurnRun(codec, request, attempts, scripted, broker, maxAttempts, FirstStop(codec, request, attempts, broker, maxAttempts), r)
  {
    FirstStopIs(codec, request, attempts, broker, maxAttempts, n);
    if scripted && |requests| != |attempts| {
      return Err(UnusedAttempts);
    }
    var semantic := Semanticize(codec, raw);
    EndIsSound(codec, request, attempts, broker, maxAttempts, n, terminal);
    match semantic
    case Err(failure) => return Err(Unparseable(failure));
    case Ok(conversation) =>
      ConclusionMeetsContract(codec, request, attempts, broker, maxAttempts, n, TurnOutcome(requests, conversation, intents, terminal));
      return Ok(TurnOutcome(requests, conversation, intents, terminal));
  }

  lemma NothingYet(codec: Codec, request: TurnRequest, attempts: seq<AttemptStart>, broker: seq<BrokerRound>, maxAttempts: nat)
    ensures AfterAttempts(codec, request, attempts, broker, 0, [], request.conversation, Appends(request.conversation))
    ensures GoesOn(codec, request, attempts, broker, maxAttempts, 0)
    ensures Issued(codec, request.scope, attempts, 0) == {} && Rounds(attempts, 0) == 0
  {
    RebuildAppends(codec, request.conversation);
  }

  /** Attempt `n` of a turn that got that far: it fails the turn, concludes it, or the turn goes on. */
  ghost predicate Attempted(codec: Codec, request: TurnRequest, attempts: seq<AttemptStart>, broker: seq<BrokerRound>,
                            maxAttempts: nat, n: nat, failure: Option<TurnFailure>, conclusion: Option<TurnTerminal>)
  {
    && n <= |attempts| && GoesOn(codec, request, attempts, broker, maxAttempts, n)
    && var stop := StopAt(codec, request, attempts, broker, maxAttempts, n);
       match failure
       case Some(f) => stop.Some? && FailsAs(stop.value, f)
       case None => n < |attempts| && n < maxAttempts
                    && stop == match conclusion { case Some(terminal) => Some(Concludes(terminal)) case None => None }
  }

  lemma OneMore(codec: Codec, request: TurnRequest, attempts: seq<AttemptStart>, broker: seq<BrokerRound>, maxAttempts: nat, n: nat,
                requests: seq<seq<ProviderMessage>>, raw: seq<ProviderMessage>, intents: seq<Intent>,
                raw': seq<ProviderMessage>, intents': seq<Intent>, conclusion: Option<TurnTerminal>)
    requires Attempted(codec, request, attempts, broker, maxAttempts, n, None, conclusion)
    requires AfterAttempts(codec, request, attempts, broker, n, requests, raw, intents)
    requires raw' == RawOf(codec, request, attempts, broker, n + 1) && intents' == JournalOf(codec, request, attempts, broker, n + 1)
    ensures AfterAttempts(codec, request, attempts, broker, n + 1, requests + [Prompted(request.system, raw)], raw', intents')
    ensures conclusion.None? ==> GoesOn(codec, request, attempts, broker, maxAttempts, n + 1)
  {
    Submitted(codec, request, attempts, broker, n);
  }

  /** One attempt, together with the request it submits. */
  method Iterate(codec: Codec, request: TurnRequest, attempts: seq<AttemptStart>, broker: seq<BrokerRound>, maxAttempts: nat,
                 host: ToolHost, n: nat, rounds: nat, requests: seq<seq<ProviderMessage>>, raw: seq<ProviderMessage>, intents: seq<Intent>)
    returns (failure: Option<TurnFailure>, conclusion: Option<TurnTerminal>, requests': seq<seq<ProviderMessage>>,
             raw': seq<ProviderMessage>, intents': seq<Intent>, rounds': nat)
    requires host.scope == request.scope && n <= |attempts| && GoesOn(codec, request, attempts, broker, maxAttempts, n)
    requires host.seen == Issued(codec, request.scope, attempts, n) && rounds == Rounds(attempts, n) <= |broker|
    requires AfterAttempts(codec, request, attempts, broker, n, requests, raw, intents)
    modifies host
    ensures Attempted(codec, request, attempts, broker, maxAttempts, n, failure, conclusion)
    ensures failure.None? ==> AfterAttempts(codec, request, attempts, broker, n + 1, requests', raw', intents')
    ensures failure.None? && conclusion.None? ==>
              && n < maxAttempts && GoesOn(codec, request, attempts, broker, maxAttempts, n + 1)
              && host.seen == Issued(codec, request.scope, attempts, n + 1) && rounds' == Rounds(attempts, n + 1) <= |broker|
  {
    requests' := requests;
    failure, conclusion, raw', intents', rounds' :=
      RunAttempt(codec, request, attempts, broker, maxAttempts, host, n, rounds, raw, intents);
    if failure.None? {
      OneMore(codec, request, attempts, broker, maxAttempts, n, requests, raw, intents, raw', intents', conclusion);
      requests' := requests + [Prompted(request.system, raw)];
    }
  }

  /** Goes round until an attempt fails or concludes the turn: attempt `n`. */
  method RunAttempts(codec: Codec, request: TurnRequest, attempts: seq<AttemptStart>, broker: seq<BrokerRound>, maxAttempts: nat)
    returns (failure: Option<TurnFailure>, conclusion: Option<TurnTerminal>, n: nat, requests: seq<seq<ProviderMessage>>,
             raw: seq<ProviderMessage>, intents: seq<Intent>)
    ensures failure.Some? || conclusion.Some?
    ensures Attempted(codec, request, attempts, broker, maxAttempts, n, failure, conclusion)
    ensures failure.None? ==> AfterAttempts(codec, request, attempts, broker, n + 1, requests, raw, intents)
  {
    n, requests, raw, intents := 0, [], request.conversation, Appends(request.conversation);
    var host := new ToolHost(request.scope);
    var rounds := 0;
    NothingYet(codec, request, attempts, broker, maxAttempts);
    while true
      invariant host.scope == request.scope && fresh(host)
      invariant n <= maxAttempts && n <= |attempts| && GoesOn(codec, request, attempts, broker, maxAttempts, n)
      invariant AfterAttempts(codec, request, attempts, broker, n, requests, raw, intents)
      invariant host.seen == Issued(codec, request.scope, attempts, n) && rounds == Rounds(attempts, n) <= |broker|
      decreases maxAttempts - n
    {
      failure, conclusion, requests, raw, intents, rounds :=
        Iterate(codec, request, attempts, broker, maxAttempts, host, n, rounds, requests, raw, intents);
      if failure.Some? || conclusion.Some? {
        return;
      }
      n := n + 1;
    }
  }

  /** Runs a turn, whatever the provider and the broker answer. */
  method RunTurn(codec: Codec, request: TurnRequest, attempts: seq<AttemptStart>, scripted: bool,
                 broker: seq<BrokerRound>, maxAttempts: nat)
    returns (r: Result<TurnOutcome, TurnFailure>)
    requires codec.Faithful()
    ensures TurnRun(codec, request, attempts, scripted, broker, maxAttempts, FirstStop(codec, request, attempts, broker, maxAttempts), r)
  {
    if maxAttempts == 0 || !request.Valid() {
      return Err(InvalidTurnRequest);
    }
    var failure, conclusion, n, requests, raw, intents := RunAttempts(codec, request, attempts, broker, maxAttempts);
    if failure.Some? {
      FailsTheTurn(codec, request, attempts, scripted, broker, maxAttempts, n, failure.value);
      return Err(failure.value);
    }
    r := Close(codec, request, attempts, scripted, broker, maxAttempts, n, requests, raw, intents, conclusion.value);
  }
}
