/** Printing a semantic conversation as provider messages and parsing it back:
    `project_conversation` and `semanticize` of `crates/runtime/src/lib.rs`. */
module Projection {
  import opened Basics
  import opened Conversations

  datatype ProviderToolCall = ProviderToolCall(id: string, name: string, arguments: string)

  datatype ProviderMessage =
    | SystemMessage(prompt: string)
    | UserMessage(content: string)
    | AssistantMessage(text: Option<string>, reasoning: Option<string>,
                       toolCalls: seq<ProviderToolCall>, replay: Option<Json>)
    | ToolMessage(toolCallId: string, status: string, result: string, executionKey: string)

  /** The JSON text codec for tool arguments and for unsuccessful tool results. */
  datatype Codec = Codec(
    encode: Arguments -> string,
    decode: string -> Option<Arguments>,
    failure: (string, string, string) -> string)
  {
    /** Reading back what was written yields the same arguments, and no JSON text is empty. */
    ghost predicate Faithful() {
      forall a :: decode(encode(a)) == Some(a) && encode(a) != ""
    }
  }

  datatype ParseFailure =
    | InvalidCallId
    | MalformedArguments
    | UnknownStatus
    | ResultsOutOfOrder
    | OrphanedResult
    | InvalidConversation(violation: Violation)

  function StatusName(status: ToolStatus): string {
    match status
    case Succeeded => "succeeded"
    case Failed => "failed"
    case Cancelled => "cancelled"
    case Rejected => "rejected"
    case OutcomeUnknown => "outcome_unknown"
    case Observed => "observed"
  }

  function ParseStatus(name: string): Option<ToolStatus> {
    match name
    case "succeeded" => Some(Succeeded)
    case "failed" => Some(Failed)
    case "cancelled" => Some(Cancelled)
    case "rejected" => Some(Rejected)
    case "outcome_unknown" => Some(OutcomeUnknown)
    case "observed" => Some(Observed)
    case _ => None
  }

  function NonEmpty(text: string): Option<string> {
    if text == "" then None else Some(text)
  }

  // ----- Printing -----

  function EncodeCalls(codec: Codec, calls: seq<ToolCall>): (encoded: seq<ProviderToolCall>)
    ensures |encoded| == |calls|
  {
    seq(|calls|, i requires 0 <= i < |calls| =>
      ProviderToolCall(calls[i].id, calls[i].name, codec.encode(calls[i].arguments)))
  }

  function ToolRequestMessage(codec: Codec, text: string, reasoning: string, calls: seq<ToolCall>,
                              replay: Option<Json>): ProviderMessage
  {
    AssistantMessage(NonEmpty(text), NonEmpty(reasoning), EncodeCalls(codec, calls), replay)
  }

  predicate Keyed(results: seq<ToolResult>) {
    forall i :: 0 <= i < |results| ==> results[i].executionKey.Some?
  }

  function ProjectResults(results: seq<ToolResult>): (messages: seq<ProviderMessage>)
    requires Keyed(results)
    ensures |messages| == |results|
  {
    seq(|results|, i requires 0 <= i < |results| =>
      ToolMessage(results[i].callId, StatusName(results[i].status), results[i].content, results[i].executionKey.value))
  }

  predicate Printable(message: Message) {
    message.Batch? ==> Keyed(message.results)
  }

  function ProjectMessage(codec: Codec, message: Message): seq<ProviderMessage>
    requires Printable(message)
  {
    match message
    case User(content, _) => [UserMessage(content)]
    case Assistant(content, reasoning, replay) => [AssistantMessage(Some(content), reasoning, [], replay)]
    case Request(text, calls, reasoning, replay) =>
      [ToolRequestMessage(codec, text.GetOr(""), reasoning.GetOr(""), calls, replay)]
    case Batch(results) => ProjectResults(results)
  }

  predicate AllPrintable(messages: seq<Message>) {
    forall i :: 0 <= i < |messages| ==> Printable(messages[i])
  }

  function ProjectAll(codec: Codec, messages: seq<Message>): seq<ProviderMessage>
    requires AllPrintable(messages)
  {
    if messages == [] then [] else ProjectMessage(codec, messages[0]) + ProjectAll(codec, messages[1..])
  }

  lemma {:induction false} ProjectAppend(codec: Codec, a: seq<Message>, b: seq<Message>)
    requires AllPrintable(a) && AllPrintable(b)
    ensures AllPrintable(a + b)
    ensures ProjectAll(codec, a + b) == ProjectAll(codec, a) + ProjectAll(codec, b)
  {
    if a == [] {
      assert a + b == b;
    } else {
      assert (a + b)[1..] == a[1..] + b;
      ProjectAppend(codec, a[1..], b);
    }
  }

  lemma ProjectSnoc(codec: Codec, front: seq<Message>, last: Message)
    requires AllPrintable(front) && Printable(last)
    ensures AllPrintable(front + [last])
    ensures ProjectAll(codec, front + [last]) == ProjectAll(codec, front) + ProjectMessage(codec, last)
  {
    ProjectAppend(codec, front, [last]);
    assert ProjectAll(codec, [last]) == ProjectMessage(codec, last);
  }

  datatype ProjectFailure = Unordered(violation: Violation) | MissingExecutionKey(callId: string)

  method ProjectBatch(results: seq<ToolResult>) returns (r: Result<seq<ProviderMessage>, ProjectFailure>)
    ensures r.Ok? <==> Keyed(results)
    ensures r.Ok? ==> r.value == ProjectResults(results)
  {
    var projected: seq<ProviderMessage> := [];
    for k := 0 to |results|
      invariant Keyed(results[..k])
      invariant projected == ProjectResults(results[..k])
    {
      var result := results[k];
      if result.executionKey.None? {
        return Err(MissingExecutionKey(result.callId));
      }
      projected := projected +
        [ToolMessage(result.callId, StatusName(result.status), result.content, result.executionKey.value)];
    }
    assert results[..|results|] == results;
    return Ok(projected);
  }

  /** `project_conversation`: prints exactly the well-formed conversations whose results all
      carry an execution key. */
  method ProjectConversation(codec: Codec, messages: seq<Message>)
    returns (r: Result<seq<ProviderMessage>, ProjectFailure>)
    ensures r.Ok? <==> WellFormed(messages) && AllPrintable(messages)
    ensures r.Ok? ==> r.value == ProjectAll(codec, messages)
  {
    var checked := Create(messages);
    if checked.Err? {
      return Err(Unordered(checked.error));
    }
    var projected: seq<ProviderMessage> := [];
    for i := 0 to |messages|
      invariant AllPrintable(messages[..i])
      invariant projected == ProjectAll(codec, messages[..i])
    {
      var next: seq<ProviderMessage>;
      match messages[i] {
        case User(content, _) =>
          next := [UserMessage(content)];
        case Assistant(content, reasoning, replay) =>
          next := [AssistantMessage(Some(content), reasoning, [], replay)];
        case Request(text, calls, reasoning, replay) =>
          next := [ToolRequestMessage(codec, text.GetOr(""), reasoning.GetOr(""), calls, replay)];
        case Batch(results) =>
          var batch := ProjectBatch(results);
          if batch.Err? {
            assert !Printable(messages[i]);
            return Err(batch.error);
          }
          next := batch.value;
      }
      assert next == ProjectMessage(codec, messages[i]);
      ProjectSnoc(codec, messages[..i], messages[i]);
      assert messages[..i + 1] == messages[..i] + [messages[i]];
      projected := projected + next;
    }
    assert messages[..|messages|] == messages;
    return Ok(projected);
  }

  // ----- Parsing -----

  function Prepend<T, E>(front: seq<T>, rest: Result<seq<T>, E>): (r: Result<seq<T>, E>)
    ensures front == [] ==> r == rest
  {
    match rest
    case Ok(items) => assert [] + items == items; Ok(front + items)
    case Err(_) => rest
  }

  lemma PrependTwice<T, E>(a: seq<T>, b: seq<T>, rest: Result<seq<T>, E>)
    ensures Prepend(a, Prepend(b, rest)) == Prepend(a + b, rest)
  {
    if rest.Ok? { assert a + (b + rest.value) == (a + b) + rest.value; }
  }

  function DecodeCall(codec: Codec, call: ProviderToolCall): Result<ToolCall, ParseFailure> {
    if !ValidId(call.id) then Err(InvalidCallId)
    else match codec.decode(call.arguments)
      case None => Err(MalformedArguments)
      case Some(arguments) => Ok(ToolCall(call.id, call.name, arguments))
  }

  function DecodeCalls(codec: Codec, calls: seq<ProviderToolCall>): Result<seq<ToolCall>, ParseFailure> {
    if calls == [] then Ok([])
    else
      var first :- DecodeCall(codec, calls[0]);
      Prepend([first], DecodeCalls(codec, calls[1..]))
  }

  /** How many tool messages come first? */
  function ToolRun(messages: seq<ProviderMessage>): (n: nat)
    ensures n <= |messages|
    ensures forall i :: 0 <= i < n ==> messages[i].ToolMessage?
    ensures n < |messages| ==> !messages[n].ToolMessage?
  {
    if messages == [] || !messages[0].ToolMessage? then 0 else 1 + ToolRun(messages[1..])
  }

  /** The tool messages that come first. */
  function Answers(messages: seq<ProviderMessage>): (answers: seq<ProviderMessage>)
    ensures forall i :: 0 <= i < |answers| ==> answers[i].ToolMessage?
  {
    messages[..ToolRun(messages)]
  }

  function DecodeResult(message: ProviderMessage): Result<ToolResult, ParseFailure>
    requires message.ToolMessage?
  {
    if !ValidId(message.toolCallId) then Err(InvalidCallId)
    else match ParseStatus(message.status)
      case None => Err(UnknownStatus)
      case Some(status) => Ok(ToolResult(message.toolCallId, status, message.result, Some(message.executionKey)))
  }

  function DecodeResults(messages: seq<ProviderMessage>): Result<seq<ToolResult>, ParseFailure>
    requires forall i :: 0 <= i < |messages| ==> messages[i].ToolMessage?
  {
    if messages == [] then Ok([])
    else
      var first :- DecodeResult(messages[0]);
      Prepend([first], DecodeResults(messages[1..]))
  }

  /** One assistant tool request and the tool messages answering it. */
  function ParseRound(codec: Codec, request: ProviderMessage, answers: seq<ProviderMessage>)
    : Result<seq<Message>, ParseFailure>
    requires request.AssistantMessage?
    requires forall i :: 0 <= i < |answers| ==> answers[i].ToolMessage?
  {
    var calls :- DecodeCalls(codec, request.toolCalls);
    var results :- DecodeResults(answers);
    if ResultIds(results) != CallIds(calls) then Err(ResultsOutOfOrder)
    else Ok([Request(request.text, calls, request.reasoning, request.replay), Batch(results)])
  }

  /** The grammar `semanticize` reads, before the ordering check. */
  function Parse(codec: Codec, messages: seq<ProviderMessage>): Result<seq<Message>, ParseFailure>
    decreases |messages|
  {
    if messages == [] then Ok([])
    else match messages[0]
      case SystemMessage(_) => Parse(codec, messages[1..])
      case UserMessage(content) => Prepend([User(content, None)], Parse(codec, messages[1..]))
      case AssistantMessage(text, reasoning, calls, replay) =>
        if calls == [] then
          Prepend([Assistant(text.GetOr(""), reasoning, replay)], Parse(codec, messages[1..]))
        else
          var round :- ParseRound(codec, messages[0], Answers(messages[1..]));
          Prepend(round, Parse(codec, messages[1..][ToolRun(messages[1..])..]))
      case ToolMessage(_, _, _, _) => Err(OrphanedResult)
  }

  ghost predicate Accepted(codec: Codec, messages: seq<ProviderMessage>) {
    Parse(codec, messages).Ok? && WellFormed(Parse(codec, messages).value)
  }

  method ParseCalls(codec: Codec, calls: seq<ProviderToolCall>) returns (r: Result<seq<ToolCall>, ParseFailure>)
    ensures r == DecodeCalls(codec, calls)
  {
    var decoded: seq<ToolCall> := [];
    assert calls[0..] == calls;
    for i := 0 to |calls|
      invariant DecodeCalls(codec, calls) == Prepend(decoded, DecodeCalls(codec, calls[i..]))
    {
      assert calls[i..][1..] == calls[i + 1..];
      var call := DecodeCall(codec, calls[i]);
      if call.Err? {
        return Err(call.error);
      }
      PrependTwice(decoded, [call.value], DecodeCalls(codec, calls[i + 1..]));
      decoded := decoded + [call.value];
    }
    assert decoded + [] == decoded;
    return Ok(decoded);
  }

  /** Reads the run of tool messages that starts at `start`. */
  method TakeResults(messages: seq<ProviderMessage>, start: nat)
    returns (r: Result<seq<ToolResult>, ParseFailure>, index: nat)
    requires start <= |messages|
    ensures r == DecodeResults(Answers(messages[start..]))
    ensures r.Ok? ==> index == start + ToolRun(messages[start..])
  {
    ghost var rest := messages[start..];
    ghost var answers := Answers(rest);
    var results: seq<ToolResult> := [];
    index := start;
    assert answers[0..] == answers;
    while index < |messages| && messages[index].ToolMessage?
      invariant start <= index <= start + |answers|
      invariant DecodeResults(answers) == Prepend(results, DecodeResults(answers[index - start..]))
    {
      assert rest[index - start] == messages[index];
      assert index - start < |answers|;
      assert answers[index - start..][1..] == answers[index + 1 - start..];
      var result := DecodeResult(messages[index]);
      if result.Err? {
        return Err(result.error), index;
      }
      PrependTwice(results, [result.value], DecodeResults(answers[index + 1 - start..]));
      results := results + [result.value];
      index := index + 1;
    }
    assert results + [] == results;
    return Ok(results), index;
  }

  method TakeRound(codec: Codec, messages: seq<ProviderMessage>, start: nat)
    returns (r: Result<seq<Message>, ParseFailure>, index: nat)
    requires start < |messages| && messages[start].AssistantMessage?
    ensures r == ParseRound(codec, messages[start], Answers(messages[start + 1..]))
    ensures r.Ok? ==> index == start + 1 + ToolRun(messages[start + 1..])
  {
    index := start;
    var calls := ParseCalls(codec, messages[start].toolCalls);
    if calls.Err? {
      return Err(calls.error), index;
    }
    var results;
    results, index := TakeResults(messages, start + 1);
    if results.Err? {
      return Err(results.error), index;
    }
    if ResultIds(results.value) != CallIds(calls.value) {
      return Err(ResultsOutOfOrder), index;
    }
    var request := messages[start];
    return Ok([Request(request.text, calls.value, request.reasoning, request.replay), Batch(results.value)]), index;
  }

  /** One turn of the `semanticize` loop: what `messages[start]` contributes and where to go on. */
  method TakeNext(codec: Codec, messages: seq<ProviderMessage>, start: nat)
    returns (r: Result<seq<Message>, ParseFailure>, index: nat)
    requires start < |messages|
    ensures r.Err? ==> Parse(codec, messages[start..]) == r
    ensures r.Ok? ==> start < index <= |messages|
    ensures r.Ok? ==> Parse(codec, messages[start..]) == Prepend(r.value, Parse(codec, messages[index..]))
  {
    ghost var rest := messages[start..];
    assert rest[1..] == messages[start + 1..];
    index := start + 1;
    match messages[start] {
      case SystemMessage(_) =>
        r := Ok([]);
      case UserMessage(content) =>
        r := Ok([User(content, None)]);
      case AssistantMessage(text, reasoning, toolCalls, replay) =>
        if toolCalls == [] {
          r := Ok([Assistant(text.GetOr(""), reasoning, replay)]);
        } else {
          r, index := TakeRound(codec, messages, start);
          assert r.Ok? ==> rest[1..][ToolRun(rest[1..])..] == messages[index..];
        }
      case ToolMessage(_, _, _, _) =>
        r := Err(OrphanedResult);
    }
  }

  /** `semanticize`: the index-driven parser followed by `Conversation::new`. */
  method Semanticize(codec: Codec, messages: seq<ProviderMessage>) returns (r: Result<seq<Message>, ParseFailure>)
    ensures r.Ok? <==> Accepted(codec, messages)
    ensures r.Ok? ==> r == Parse(codec, messages)
    ensures Parse(codec, messages).Err? ==> r.Err? && r.error == Parse(codec, messages).error
  {
    var semantic: seq<Message> := [];
    var index := 0;
    assert messages[0..] == messages;
    while index < |messages|
      invariant 0 <= index <= |messages|
      invariant Parse(codec, messages) == Prepend(semantic, Parse(codec, messages[index..]))
    {
      var next, after := TakeNext(codec, messages, index);
      if next.Err? {
        return Err(next.error);
      }
      PrependTwice(semantic, next.value, Parse(codec, messages[after..]));
      semantic := semantic + next.value;
      index := after;
    }
    assert semantic + [] == semantic;
    var checked := Create(semantic);
    match checked
    case Ok(conversation) => return Ok(conversation);
    case Err(violation) => return Err(InvalidConversation(violation));
  }

  // ----- Splitting -----

  /** A position in front of anything but a tool message never cuts a result batch in two. */
  predicate CutPoint(rest: seq<ProviderMessage>) {
    rest == [] || !rest[0].ToolMessage?
  }

  lemma {:induction false} ToolRunAppend(a: seq<ProviderMessage>, b: seq<ProviderMessage>)
    requires CutPoint(b)
    ensures ToolRun(a + b) == ToolRun(a)
  {
    if a == [] {
      assert a + b == b;
    } else {
      assert (a + b)[1..] == a[1..] + b;
      ToolRunAppend(a[1..], b);
    }
  }

  /** Parsing is compositional at every cut point: what comes later cannot change how the
      earlier part is read. */
  lemma {:induction false} ParseAppend(codec: Codec, a: seq<ProviderMessage>, b: seq<ProviderMessage>)
    requires CutPoint(b)
    ensures Parse(codec, a + b) == (match Parse(codec, a)
                                    case Ok(front) => Prepend(front, Parse(codec, b))
                                    case Err(_) => Parse(codec, a))
    decreases |a|
  {
    if a == [] {
      assert a + b == b;
    } else {
      assert (a + b)[1..] == a[1..] + b;
      if a[0].AssistantMessage? && a[0].toolCalls != [] {
        ToolRunAppend(a[1..], b);
        var rest := a[1..][ToolRun(a[1..])..];
        assert Answers(a[1..] + b) == Answers(a[1..]);
        assert (a[1..] + b)[ToolRun(a[1..])..] == rest + b;
        ParseAppend(codec, rest, b);
        var round := ParseRound(codec, a[0], Answers(a[1..]));
        var later := Parse(codec, rest);
        if round.Ok? && later.Ok? { PrependTwice(round.value, later.value, Parse(codec, b)); }
      } else {
        ParseAppend(codec, a[1..], b);
        var later := Parse(codec, a[1..]);
        if later.Ok? {
          if a[0].UserMessage? {
            PrependTwice([User(a[0].content, None)], later.value, Parse(codec, b));
          } else if a[0].AssistantMessage? {
            PrependTwice([Assistant(a[0].text.GetOr(""), a[0].reasoning, a[0].replay)], later.value, Parse(codec, b));
          }
        }
      }
    }
  }

  // ----- Round trip -----

  /** The identifier types guarantee this of every message a program can build. */
  ghost predicate IdsValid(message: Message) {
    match message
    case Request(_, calls, _, _) => forall i :: 0 <= i < |calls| ==> ValidId(calls[i].id)
    case Batch(results) => forall i :: 0 <= i < |results| ==> ValidId(results[i].callId)
    case _ => true
  }

  ghost predicate AllIdsValid(messages: seq<Message>) {
    forall i :: 0 <= i < |messages| ==> IdsValid(messages[i])
  }

  /** These messages print, and their identifiers are valid. */
  ghost predicate Fit(messages: seq<Message>) {
    AllPrintable(messages) && AllIdsValid(messages)
  }

  /** A history that the next turn can start from. */
  ghost predicate Storable(history: seq<Message>) {
    Settled(history) && Fit(history)
  }

  lemma FitAppend(a: seq<Message>, b: seq<Message>)
    requires Fit(a) && Fit(b)
    ensures Fit(a + b)
  {
    forall i | 0 <= i < |a + b| ensures Printable((a + b)[i]) && IdsValid((a + b)[i]) {
      if i >= |a| { assert (a + b)[i] == b[i - |a|]; }
    }
  }

  /** What printing forgets: display text, and the difference between no text and empty text. */
  function Canonical(message: Message): Message {
    match message
    case User(content, _) => User(content, None)
    case Request(text, calls, reasoning, replay) =>
      Request(NonEmpty(text.GetOr("")), calls, NonEmpty(reasoning.GetOr("")), replay)
    case _ => message
  }

  function CanonicalAll(messages: seq<Message>): (canonical: seq<Message>)
    ensures |canonical| == |messages|
  {
    seq(|messages|, i requires 0 <= i < |messages| => Canonical(messages[i]))
  }

  lemma {:induction false} CallsRoundTrip(codec: Codec, calls: seq<ToolCall>)
    requires codec.Faithful()
    requires forall i :: 0 <= i < |calls| ==> ValidId(calls[i].id)
    ensures DecodeCalls(codec, EncodeCalls(codec, calls)) == Ok(calls)
  {
    if calls != [] {
      assert EncodeCalls(codec, calls)[1..] == EncodeCalls(codec, calls[1..]);
      CallsRoundTrip(codec, calls[1..]);
      assert [calls[0]] + calls[1..] == calls;
    }
  }

  lemma {:induction false} ResultsRoundTrip(results: seq<ToolResult>)
    requires Keyed(results)
    requires forall i :: 0 <= i < |results| ==> ValidId(results[i].callId)
    ensures DecodeResults(ProjectResults(results)) == Ok(results)
  {
    if results != [] {
      assert ProjectResults(results)[1..] == ProjectResults(results[1..]);
      ResultsRoundTrip(results[1..]);
      assert [results[0]] + results[1..] == results;
    }
  }

  lemma {:induction false} ToolRunOfResults(answers: seq<ProviderMessage>, rest: seq<ProviderMessage>)
    requires forall i :: 0 <= i < |answers| ==> answers[i].ToolMessage?
    requires CutPoint(rest)
    ensures ToolRun(answers + rest) == |answers|
  {
    if answers == [] {
      assert answers + rest == rest;
    } else {
      assert (answers + rest)[1..] == answers[1..] + rest;
      ToolRunOfResults(answers[1..], rest);
    }
  }

  /** A printed conversation never opens with a tool message unless its first message is a batch. */
  lemma ProjectionStart(codec: Codec, messages: seq<Message>)
    requires AllPrintable(messages) && (messages != [] ==> !messages[0].Batch?)
    ensures CutPoint(ProjectAll(codec, messages))
  {
  }

  /** A printed request and its printed results are read back as one round. */
  lemma RoundReadBack(codec: Codec, request: Message, batch: Message, later: seq<ProviderMessage>)
    requires codec.Faithful() && request.Request? && batch.Batch? && Printable(batch) && CutPoint(later)
    requires IdsValid(request) && IdsValid(batch)
    requires request.calls != [] && ResultIds(batch.results) == CallIds(request.calls)
    ensures Parse(codec, ProjectMessage(codec, request) + ProjectMessage(codec, batch) + later)
            == Prepend([Canonical(request), batch], Parse(codec, later))
  {
    var answers := ProjectResults(batch.results);
    var printed := ProjectMessage(codec, request) + answers + later;
    assert printed[1..] == answers + later;
    ToolRunOfResults(answers, later);
    assert Answers(printed[1..]) == answers;
    assert printed[1..][|answers|..] == later;
    CallsRoundTrip(codec, request.calls);
    ResultsRoundTrip(batch.results);
  }

  lemma SingleReadBack(codec: Codec, message: Message, later: seq<ProviderMessage>)
    requires message.User? || message.Assistant?
    ensures Parse(codec, ProjectMessage(codec, message) + later) == Prepend([Canonical(message)], Parse(codec, later))
  {
    assert (ProjectMessage(codec, message) + later)[1..] == later;
  }

  lemma SuffixStep(codec: Codec, messages: seq<Message>, i: nat)
    requires i < |messages| && AllPrintable(messages)
    ensures ProjectAll(codec, messages[i..]) == ProjectMessage(codec, messages[i]) + ProjectAll(codec, messages[i + 1..])
    ensures CanonicalAll(messages[i..]) == [Canonical(messages[i])] + CanonicalAll(messages[i + 1..])
  {
    assert messages[i..][1..] == messages[i + 1..];
  }

  lemma {:induction false} RoundTripFrom(codec: Codec, messages: seq<Message>, i: nat)
    requires codec.Faithful() && WellFormed(messages) && AllPrintable(messages) && AllIdsValid(messages)
    requires i <= |messages| && (i < |messages| ==> !messages[i].Batch?)
    ensures Parse(codec, ProjectAll(codec, messages[i..])) == Ok(CanonicalAll(messages[i..]))
    decreases |messages| - i
  {
    if i < |messages| {
      SuffixStep(codec, messages, i);
      if messages[i].Request? {
        AnsweredRequestStep(codec, messages, i);
        TwoSteps(codec, messages, i);
        RoundTripFrom(codec, messages, i + 2);
      } else {
        if i + 1 < |messages| { assert LegalAt(messages, i + 1); }
        RoundTripFrom(codec, messages, i + 1);
        SingleReadBack(codec, messages[i], ProjectAll(codec, messages[i + 1..]));
      }
    }
  }

  /** In a well-formed conversation a request is answered at once. */
  lemma RequestIsAnswered(messages: seq<Message>, i: nat)
    requires WellFormed(messages) && i < |messages| && messages[i].Request?
    ensures i + 1 < |messages| && messages[i + 1].Batch?
    ensures messages[i].calls != [] && ResultIds(messages[i + 1].results) == CallIds(messages[i].calls)
    ensures i + 2 < |messages| ==> !messages[i + 2].Batch?
  {
    assert LegalAt(messages, i) && LegalAt(messages, i + 1);
    if i + 2 < |messages| { assert LegalAt(messages, i + 2); }
  }

  lemma TwoSteps(codec: Codec, messages: seq<Message>, i: nat)
    requires i + 1 < |messages| && AllPrintable(messages)
    ensures ProjectAll(codec, messages[i..]) ==
            ProjectMessage(codec, messages[i]) + ProjectMessage(codec, messages[i + 1]) + ProjectAll(codec, messages[i + 2..])
    ensures CanonicalAll(messages[i..]) ==
            [Canonical(messages[i]), Canonical(messages[i + 1])] + CanonicalAll(messages[i + 2..])
  {
    SuffixStep(codec, messages, i);
    SuffixStep(codec, messages, i + 1);
  }

  lemma AnsweredRequestStep(codec: Codec, messages: seq<Message>, i: nat)
    requires codec.Faithful() && WellFormed(messages) && AllPrintable(messages) && AllIdsValid(messages)
    requires i < |messages| && messages[i].Request?
    ensures i + 2 <= |messages| && (i + 2 < |messages| ==> !messages[i + 2].Batch?)
    ensures Parse(codec, ProjectAll(codec, messages[i..])) ==
            Prepend([Canonical(messages[i]), Canonical(messages[i + 1])],
                    Parse(codec, ProjectAll(codec, messages[i + 2..])))
  {
    RequestIsAnswered(messages, i);
    TwoSteps(codec, messages, i);
    ProjectionStart(codec, messages[i + 2..]);
    assert IdsValid(messages[i]) && IdsValid(messages[i + 1]) && Printable(messages[i + 1]);
    RoundReadBack(codec, messages[i], messages[i + 1], ProjectAll(codec, messages[i + 2..]));
  }

  lemma CanonicalStaysWellFormed(messages: seq<Message>)
    requires WellFormed(messages)
    ensures WellFormed(CanonicalAll(messages))
  {
    var canonical := CanonicalAll(messages);
    forall i | 0 <= i < |messages| ensures LegalAt(canonical, i) {
      assert LegalAt(messages, i);
    }
  }

  /** What of a message survives being printed and read back: everything but the human's own text,
      and empty text or reasoning beside tool calls counts as none. */
  predicate ReadBackAs(message: Message, read: Message) {
    match message
    case User(content, _) => read == User(content, None)
    case Request(text, calls, reasoning, replay) =>
      && read.Request? && read.calls == calls && read.replay == replay
      && read.text == (if text == Some("") then None else text)
      && read.reasoning == (if reasoning == Some("") then None else reasoning)
    case Batch(_) => read == message
    case Assistant(_, _, _) => read == message
  }

  /** `semanticize(project_conversation(m))` is `m` in canonical form, message for message. */
  lemma RoundTrip(codec: Codec, messages: seq<Message>)
    requires codec.Faithful() && WellFormed(messages) && AllPrintable(messages) && AllIdsValid(messages)
    ensures Accepted(codec, ProjectAll(codec, messages))
    ensures Parse(codec, ProjectAll(codec, messages)) == Ok(CanonicalAll(messages))
    ensures var read := Parse(codec, ProjectAll(codec, messages)).value;
            |read| == |messages| && forall i :: 0 <= i < |messages| ==> ReadBackAs(messages[i], read[i])
  {
    if messages != [] { assert LegalAt(messages, 0); }
    RoundTripFrom(codec, messages, 0);
    assert messages[0..] == messages;
    CanonicalStaysWellFormed(messages);
  }

  /** Printing a stored history in front of a new turn: parsing the whole and slicing at the
      stored length gives back the history in canonical form and exactly the parsed new turn. */
  lemma SliceIsTheNewTurn(codec: Codec, history: seq<Message>, turn: seq<ProviderMessage>)
    requires codec.Faithful() && Settled(history) && AllPrintable(history) && AllIdsValid(history)
    requires turn != [] && turn[0].UserMessage?
    ensures Parse(codec, ProjectAll(codec, history) + turn).Ok? <==> Parse(codec, turn).Ok?
    ensures Accepted(codec, ProjectAll(codec, history) + turn) <==> Accepted(codec, turn)
    ensures Parse(codec, turn).Ok? ==>
              var whole := Parse(codec, ProjectAll(codec, history) + turn).value;
              && |history| <= |whole|
              && whole[..|history|] == CanonicalAll(history)
              && whole[|history|..] == Parse(codec, turn).value
  {
    RoundTrip(codec, history);
    ParseAppend(codec, ProjectAll(codec, history), turn);
    if Parse(codec, turn).Ok? {
      CanonicalStaysWellFormed(history);
      RevalidateChunkOnly(CanonicalAll(history), Parse(codec, turn).value);
    }
  }
}
