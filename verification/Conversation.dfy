/** The validated semantic conversation of `crates/domain/src/conversation.rs`.

    `Create` and `ValidateCalls` keep the source's loops. What they accept is stated
    independently of the automaton, as a rule about each pair of neighbouring messages. */
module Conversations {
  import opened Basics

  /** An opaque JSON value; the domain never looks inside one. */
  datatype Json = Json(repr: string)

  type Arguments = map<string, Json>

  datatype ToolCall = ToolCall(id: string, name: string, arguments: Arguments)

  datatype ToolStatus = Succeeded | Failed | Cancelled | Rejected | OutcomeUnknown | Observed

  datatype ToolResult = ToolResult(callId: string, status: ToolStatus, content: string, executionKey: Option<string>)

  datatype Message =
    | User(content: string, display: Option<string>)
    | Request(text: Option<string>, calls: seq<ToolCall>, reasoning: Option<string>, replay: Option<Json>)
    | Batch(results: seq<ToolResult>)
    | Assistant(response: string, thought: Option<string>, state: Option<Json>)

  datatype Violation =
    | UnexpectedMessage(index: nat)
    | EmptyToolRequest(index: nat)
    | DuplicateToolCall(index: nat, callId: string)
    | EmptyToolName(index: nat)
    | ResultOrderMismatch(index: nat)
    | MissingToolResultBatch

  function CallIds(calls: seq<ToolCall>): (ids: seq<string>) {
    seq(|calls|, i requires 0 <= i < |calls| => calls[i].id)
  }

  function ResultIds(results: seq<ToolResult>): (ids: seq<string>) {
    seq(|results|, i requires 0 <= i < |results| => results[i].callId)
  }

  ghost predicate NamesPresent(calls: seq<ToolCall>) {
    forall i :: 0 <= i < |calls| ==> calls[i].name != ""
  }

  ghost predicate CallsOk(calls: seq<ToolCall>) {
    calls != [] && NamesPresent(calls) && Distinct(CallIds(calls))
  }

  /** May `next` directly follow `previous` (or open the conversation)? */
  ghost predicate Follows(previous: Option<Message>, next: Message) {
    match next
    case User(_, _) => previous.None? || previous.value.Assistant?
    case Assistant(_, _, _) => previous.Some? && (previous.value.User? || previous.value.Batch?)
    case Request(_, calls, _, _) =>
      previous.Some? && (previous.value.User? || previous.value.Batch?) && CallsOk(calls)
    case Batch(results) =>
      previous.Some? && previous.value.Request? && ResultIds(results) == CallIds(previous.value.calls)
  }

  function Before(messages: seq<Message>, i: nat): Option<Message>
    requires i <= |messages|
  {
    if i == 0 then None else Some(messages[i - 1])
  }

  ghost predicate LegalAt(messages: seq<Message>, i: nat)
    requires i < |messages|
  {
    Follows(Before(messages, i), messages[i])
  }

  /** Every message may follow its predecessor and no tool request is left unanswered. */
  ghost predicate WellFormed(messages: seq<Message>) {
    && (forall i :: 0 <= i < |messages| ==> LegalAt(messages, i))
    && (messages != [] ==> !messages[|messages| - 1].Request?)
  }

  datatype ValidationState =
    | Start
    | AwaitingAssistant
    | AwaitingToolResults(expected: seq<string>)
    | AfterToolResults
    | AfterAssistant

  /** The automaton state that summarises having just accepted `previous`. */
  function StateAfter(previous: Option<Message>): ValidationState {
    match previous
    case None => Start
    case Some(User(_, _)) => AwaitingAssistant
    case Some(Request(_, calls, _, _)) => AwaitingToolResults(CallIds(calls))
    case Some(Batch(_)) => AfterToolResults
    case Some(Assistant(_, _, _)) => AfterAssistant
  }

  method ValidateCalls(index: nat, calls: seq<ToolCall>) returns (r: Result<(), Violation>)
    ensures r.Ok? <==> CallsOk(calls)
    ensures r.Err? && r.error.EmptyToolRequest? ==> calls == []
    ensures r.Err? && r.error.DuplicateToolCall? ==>
              exists i, j :: 0 <= i < j < |calls| && calls[i].id == calls[j].id == r.error.callId
    ensures r.Err? ==> !r.error.MissingToolResultBatch? && r.error.index == index
  {
    if calls == [] {
      return Err(EmptyToolRequest(index));
    }
    var seen: set<string> := {};
    for i := 0 to |calls|
      invariant seen == set j | 0 <= j < i :: calls[j].id
      invariant forall j :: 0 <= j < i ==> calls[j].name != ""
      invariant forall j, k :: 0 <= j < k < i ==> calls[j].id != calls[k].id
    {
      if calls[i].name == "" {
        return Err(EmptyToolName(index));
      }
      if calls[i].id in seen {
        assert exists j :: 0 <= j < i && calls[j].id == calls[i].id;
        assert !Distinct(CallIds(calls)) by {
          var j :| 0 <= j < i && calls[j].id == calls[i].id;
          assert CallIds(calls)[j] == CallIds(calls)[i];
        }
        return Err(DuplicateToolCall(index, calls[i].id));
      }
      seen := seen + {calls[i].id};
    }
    return Ok(());
  }

  /** `Conversation::new`: accepts exactly the well-formed conversations, returns them
      unchanged, and otherwise reports the first offending position. */
  method Create(messages: seq<Message>) returns (r: Result<seq<Message>, Violation>)
    ensures r.Ok? <==> WellFormed(messages)
    ensures r.Ok? ==> r.value == messages
    ensures r.Err? && !r.error.MissingToolResultBatch? ==>
              && r.error.index < |messages|
              && !LegalAt(messages, r.error.index)
              && forall i :: 0 <= i < r.error.index ==> LegalAt(messages, i)
    ensures r.Err? && r.error.MissingToolResultBatch? ==>
              messages != [] && messages[|messages| - 1].Request?
  {
    var state := Start;
    for index := 0 to |messages|
      invariant state == StateAfter(Before(messages, index))
      invariant forall i :: 0 <= i < index ==> LegalAt(messages, i)
    {
      var message := messages[index];
      if (state.Start? || state.AfterAssistant?) && message.User? {
        state := AwaitingAssistant;
      } else if (state.AwaitingAssistant? || state.AfterToolResults?) && message.Assistant? {
        state := AfterAssistant;
      } else if (state.AwaitingAssistant? || state.AfterToolResults?) && message.Request? {
        var checked := ValidateCalls(index, message.calls);
        if checked.Err? {
          assert !LegalAt(messages, index);
          return Err(checked.error);
        }
        state := AwaitingToolResults(CallIds(message.calls));
      } else if state.AwaitingToolResults? && message.Batch? {
        if ResultIds(message.results) != state.expected {
          assert !LegalAt(messages, index);
          return Err(ResultOrderMismatch(index));
        }
        state := AfterToolResults;
      } else {
        assert !LegalAt(messages, index);
        return Err(UnexpectedMessage(index));
      }
    }
    if state.AwaitingToolResults? {
      return Err(MissingToolResultBatch);
    }
    return Ok(messages);
  }

  /** A turn as it is committed: from a user prompt through a final assistant reply. */
  predicate CompleteTurn(chunk: seq<Message>) {
    chunk != [] && chunk[0].User? && chunk[|chunk| - 1].Assistant?
  }

  /** A stored history: well-formed, and finished by an assistant unless still empty. */
  ghost predicate Settled(history: seq<Message>) {
    WellFormed(history) && (history != [] ==> history[|history| - 1].Assistant?)
  }

  /** Appending to a settled history, checking only the new chunk accepts exactly what
      re-checking the whole history accepts. */
  lemma RevalidateChunkOnly(history: seq<Message>, chunk: seq<Message>)
    requires Settled(history)
    ensures WellFormed(history + chunk) <==> WellFormed(chunk)
    ensures CompleteTurn(chunk) && WellFormed(chunk) ==> Settled(history + chunk)
  {
    var whole := history + chunk;
    var n := |history|;
    forall i | 0 <= i < |chunk|
      ensures LegalAt(whole, n + i) <==> LegalAt(chunk, i)
    {
      if i > 0 {
        assert whole[n + i - 1] == chunk[i - 1];
      } else if n > 0 {
        assert whole[n - 1] == history[n - 1];
      }
      assert whole[n + i] == chunk[i];
    }
    forall i | 0 <= i < n
      ensures LegalAt(whole, i)
    {
      assert LegalAt(history, i);
    }
    if WellFormed(whole) {
      forall i | 0 <= i < |chunk| ensures LegalAt(chunk, i) {
        assert LegalAt(whole, n + i);
      }
      if chunk != [] { assert whole[|whole| - 1] == chunk[|chunk| - 1]; }
    }
    if WellFormed(chunk) {
      forall i | 0 <= i < |whole| ensures LegalAt(whole, i) {
        if i >= n { assert LegalAt(chunk, i - n); }
      }
      if chunk == [] { assert whole == history; } else { assert whole[|whole| - 1] == chunk[|chunk| - 1]; }
    }
  }
}
