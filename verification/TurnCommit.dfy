/** From a finished turn to the chunk that is committed: `run_session_turn` of
    `apps/hermesd/src/cli/gateway.rs` and `run_durable_chat` of `apps/hermesd/src/cli/chat.rs`. */
module TurnCommit {
  import opened Basics
  import opened Conversations
  import opened Projection
  import opened Readings
  import opened Attempts
  import opened Journals
  import opened Turns

  lemma RequestGrows(codec: Codec, scope: string, attempts: seq<AttemptStart>, broker: seq<BrokerRound>,
                     requests: seq<seq<ProviderMessage>>, i: nat)
    requires |requests| <= |attempts| && i + 1 < |requests| && RequestsGrow(codec, scope, attempts, broker, requests)
    ensures requests[i] <= requests[i + 1]
  {
    assert GrewAt(codec, scope, attempts, broker, requests, i);
  }

  lemma FinalStepEnds(start: AttemptStart, before: seq<ProviderMessage>, after: seq<ProviderMessage>, terminal: TurnTerminal)
    requires FinalStep(start, before, after, terminal)
    ensures before <= after
    ensures terminal.response.Some? ==>
              |after| == |before| + 1 && IsResponse(after[|before|], terminal.response.value)
  {
  }

  lemma {:induction false} ChainIsNested(codec: Codec, scope: string, attempts: seq<AttemptStart>, broker: seq<BrokerRound>,
                                         requests: seq<seq<ProviderMessage>>, i: nat)
    requires i < |requests| <= |attempts| && RequestsGrow(codec, scope, attempts, broker, requests)
    ensures requests[i] <= requests[|requests| - 1]
    decreases |requests| - i
  {
    if i < |requests| - 1 {
      RequestGrows(codec, scope, attempts, broker, requests, i);
      ChainIsNested(codec, scope, attempts, broker, requests, i + 1);
    }
  }

  /** Each request is a prefix of the final conversation. */
  lemma RequestsAreNested(codec: Codec, request: TurnRequest, attempts: seq<AttemptStart>, broker: seq<BrokerRound>, maxAttempts: nat,
                          outcome: TurnOutcome, i: nat)
    requires TurnShape(codec, request, attempts, broker, maxAttempts, outcome) && i < |outcome.requests|
    ensures outcome.requests[i] <= Prompted(request.system, Rebuild(codec, outcome.intents))
  {
    NestedInFinal(codec, request.scope, attempts, broker, outcome.requests, Prompted(request.system, Rebuild(codec, outcome.intents)),
                  outcome.terminal, i);
  }

  lemma NestedInFinal(codec: Codec, scope: string, attempts: seq<AttemptStart>, broker: seq<BrokerRound>,
                      requests: seq<seq<ProviderMessage>>, after: seq<ProviderMessage>, terminal: TurnTerminal, i: nat)
    requires i < |requests| <= |attempts| && RequestsGrow(codec, scope, attempts, broker, requests)
    requires FinalStep(attempts[|requests| - 1], requests[|requests| - 1], after, terminal)
    ensures requests[i] <= after
  {
    ChainIsNested(codec, scope, attempts, broker, requests, i);
    FinalStepEnds(attempts[|requests| - 1], requests[|requests| - 1], after, terminal);
  }

  lemma TranscriptExtendsInput(codec: Codec, request: TurnRequest, attempts: seq<AttemptStart>, broker: seq<BrokerRound>, maxAttempts: nat, outcome: TurnOutcome)
    requires TurnShape(codec, request, attempts, broker, maxAttempts, outcome)
    ensures request.conversation <= Rebuild(codec, outcome.intents)
  {
    RequestsAreNested(codec, request, attempts, broker, maxAttempts, outcome, 0);
    var raw := Rebuild(codec, outcome.intents);
    if request.system.Some? {
      var system := [SystemMessage(request.system.value)];
      assert (system + request.conversation)[1..] == request.conversation;
      assert (system + raw)[1..] == raw;
      assert (system + raw)[..1 + |request.conversation|] == system + request.conversation;
      assert raw[..|request.conversation|] == request.conversation;
    }
  }

  lemma RawEndsWithResponse(codec: Codec, request: TurnRequest, attempts: seq<AttemptStart>, broker: seq<BrokerRound>, maxAttempts: nat, outcome: TurnOutcome)
    requires TurnShape(codec, request, attempts, broker, maxAttempts, outcome) && outcome.terminal.response.Some?
    ensures var raw := Rebuild(codec, outcome.intents);
            raw != [] && IsResponse(raw[|raw| - 1], outcome.terminal.response.value)
  {
    var n := |outcome.requests|;
    FinalStepAnswers(attempts[n - 1], outcome.requests[n - 1], request.system, Rebuild(codec, outcome.intents), outcome.terminal);
  }

  lemma FinalStepAnswers(start: AttemptStart, before: seq<ProviderMessage>, system: Option<string>, raw: seq<ProviderMessage>,
                         terminal: TurnTerminal)
    requires FinalStep(start, before, Prompted(system, raw), terminal) && terminal.response.Some?
    ensures raw != [] && IsResponse(raw[|raw| - 1], terminal.response.value)
  {
    FinalStepEnds(start, before, Prompted(system, raw), terminal);
    LastIsNotThePrompt(system, raw, terminal.response.value);
  }

  lemma LastIsNotThePrompt(system: Option<string>, raw: seq<ProviderMessage>, response: string)
    requires var prompted := Prompted(system, raw); prompted != [] && IsResponse(prompted[|prompted| - 1], response)
    ensures raw != [] && IsResponse(raw[|raw| - 1], response)
  {
  }

  predicate IsResponse(message: ProviderMessage, response: string) {
    message.AssistantMessage? && message.toolCalls == [] && message.text == Some(response)
  }

  lemma ParsedResponseIsLast(codec: Codec, raw: seq<ProviderMessage>, response: string, m: seq<Message>)
    requires raw != [] && IsResponse(raw[|raw| - 1], response) && Parse(codec, raw) == Ok(m)
    ensures m != [] && m[|m| - 1].Assistant? && m[|m| - 1].response == response
  {
    var front, final := raw[..|raw| - 1], raw[|raw| - 1];
    assert raw == front + [final];
    ParseAppend(codec, front, [final]);
    var parsed := Assistant(response, final.reasoning, final.replay);
    assert [final][1..] == [] && [parsed] + [] == [parsed];
    assert Parse(codec, [final]) == Ok([parsed]);
  }

  /** The history, canonically, and then a well-formed chunk that opens with the prompt. */
  ghost predicate NewTurnFollows(history: seq<Message>, prompt: string, whole: seq<Message>) {
    && |history| < |whole|
    && whole[..|history|] == CanonicalAll(history)
    && whole[|history|] == User(prompt, None)
    && WellFormed(whole[|history|..])
  }

  /** A complete turn that ends with this response and that the stored history accepts. */
  ghost predicate Committable(history: seq<Message>, chunk: seq<Message>, response: string) {
    && CompleteTurn(chunk) && Settled(history + chunk)
    && chunk[|chunk| - 1].response == response
  }

  /** Whatever extends the printed history and the prompt, and is accepted, is parsed into the
      history (canonically) followed by a well-formed chunk that opens with the prompt. */
  lemma SliceOfExtension(codec: Codec, history: seq<Message>, prompt: string, raw: seq<ProviderMessage>)
    requires codec.Faithful() && Settled(history) && AllPrintable(history) && AllIdsValid(history)
    requires ProjectAll(codec, history) + [UserMessage(prompt)] <= raw && Accepted(codec, raw)
    ensures NewTurnFollows(history, prompt, Parse(codec, raw).value)
  {
    var printed := ProjectAll(codec, history);
    var turn := raw[|printed|..];
    assert raw == printed + turn;
    assert turn[0] == (printed + [UserMessage(prompt)])[|printed|];
    SliceIsTheNewTurn(codec, history, turn);
    FirstParsed(codec, turn, prompt);
    assert Parse(codec, raw).value[|history|] == Parse(codec, turn).value[0];
  }

  lemma FirstParsed(codec: Codec, turn: seq<ProviderMessage>, prompt: string)
    requires turn != [] && turn[0] == UserMessage(prompt) && Parse(codec, turn).Ok?
    ensures Parse(codec, turn).value != [] && Parse(codec, turn).value[0] == User(prompt, None)
  {
  }

  lemma AnsweredIsCommittable(history: seq<Message>, prompt: string, whole: seq<Message>, response: string)
    requires Settled(history) && NewTurnFollows(history, prompt, whole)
    requires whole[|whole| - 1].Assistant? && whole[|whole| - 1].response == response
    ensures Committable(history, whole[|history|..], response)
  {
    var chunk := whole[|history|..];
    assert chunk[|chunk| - 1] == whole[|whole| - 1] && chunk[0] == whole[|history|];
    RevalidateChunkOnly(history, chunk);
  }

  /** The slice a host commits. With a settled, printable history printed in front of the prompt:
      the runtime's conversation is the history (canonically) followed by exactly the new turn,
      and when the turn answered, that slice is a complete turn which the session store accepts. */
  lemma SliceCommits(codec: Codec, request: TurnRequest, attempts: seq<AttemptStart>, broker: seq<BrokerRound>, maxAttempts: nat, outcome: TurnOutcome,
                     history: seq<Message>, prompt: string)
    requires codec.Faithful() && Settled(history) && AllPrintable(history) && AllIdsValid(history)
    requires request.conversation == ProjectAll(codec, history) + [UserMessage(prompt)]
    requires TurnContract(codec, request, attempts, broker, maxAttempts, outcome)
    ensures NewTurnFollows(history, prompt, outcome.conversation)
    ensures outcome.terminal.response.Some? ==>
              Committable(history, outcome.conversation[|history|..], outcome.terminal.response.value)
  {
    TranscriptExtendsInput(codec, request, attempts, broker, maxAttempts, outcome);
    if outcome.terminal.response.Some? {
      RawEndsWithResponse(codec, request, attempts, broker, maxAttempts, outcome);
    }
    SliceOfTranscript(codec, history, prompt, Rebuild(codec, outcome.intents), outcome.conversation, outcome.terminal.response);
  }

  lemma SliceOfTranscript(codec: Codec, history: seq<Message>, prompt: string, raw: seq<ProviderMessage>, conversation: seq<Message>,
                          response: Option<string>)
    requires codec.Faithful() && Settled(history) && AllPrintable(history) && AllIdsValid(history)
    requires ProjectAll(codec, history) + [UserMessage(prompt)] <= raw && Accepted(codec, raw) && Parse(codec, raw) == Ok(conversation)
    requires response.Some? ==> raw != [] && IsResponse(raw[|raw| - 1], response.value)
    ensures NewTurnFollows(history, prompt, conversation)
    ensures response.Some? ==> Committable(history, conversation[|history|..], response.value)
  {
    SliceOfExtension(codec, history, prompt, raw);
    if response.Some? {
      ParsedResponseIsLast(codec, raw, response.value, conversation);
      AnsweredIsCommittable(history, prompt, conversation, response.value);
    }
  }

  /** The chunk with the human-authored text recorded beside the provider prompt. */
  function Shown(chunk: seq<Message>, display: string): seq<Message>
    requires chunk != [] && chunk[0].User?
  {
    [chunk[0].(display := Some(display))] + chunk[1..]
  }

  /** Recording it keeps the chunk acceptable. */
  lemma DisplayTextIsHarmless(chunk: seq<Message>, display: string)
    requires CompleteTurn(chunk) && WellFormed(chunk)
    ensures CompleteTurn(Shown(chunk, display)) && WellFormed(Shown(chunk, display))
  {
    var shown := Shown(chunk, display);
    forall i | 0 <= i < |shown| ensures LegalAt(shown, i) {
      assert LegalAt(chunk, i);
    }
  }

  // ---- From one turn to the next -----------------------------------------------------

  lemma FitSlice(messages: seq<Message>, n: nat)
    requires n <= |messages| && Fit(messages)
    ensures Fit(messages[n..])
  {
    forall i | 0 <= i < |messages[n..]| ensures Printable(messages[n..][i]) && IdsValid(messages[n..][i]) {
      assert messages[n..][i] == messages[n + i];
    }
  }

  /** The chain over turns closes: a storable history with an answered turn committed to it, with
      or without the text the human typed, is a storable history again. */
  lemma CommittedIsStorable(codec: Codec, request: TurnRequest, attempts: seq<AttemptStart>, broker: seq<BrokerRound>, maxAttempts: nat,
                            outcome: TurnOutcome, history: seq<Message>, prompt: string, display: string)
    requires codec.Faithful() && Storable(history)
    requires request.conversation == ProjectAll(codec, history) + [UserMessage(prompt)]
    requires TurnContract(codec, request, attempts, broker, maxAttempts, outcome) && outcome.terminal.response.Some?
    ensures |history| < |outcome.conversation|
    ensures var chunk := outcome.conversation[|history|..];
            && chunk != [] && chunk[0].User?
            && Storable(history + chunk) && Storable(history + Shown(chunk, display))
  {
    SliceCommits(codec, request, attempts, broker, maxAttempts, outcome, history, prompt);
    ParsedIsFit(codec, Rebuild(codec, outcome.intents));
    FitSlice(outcome.conversation, |history|);
    var chunk := outcome.conversation[|history|..];
    FitAppend(history, chunk);
    ShownIsStorable(history, chunk, display);
  }

  lemma ShownIsStorable(history: seq<Message>, chunk: seq<Message>, display: string)
    requires Storable(history) && CompleteTurn(chunk) && WellFormed(chunk) && Fit(chunk)
    ensures Storable(history + Shown(chunk, display))
  {
    var shown := Shown(chunk, display);
    DisplayTextIsHarmless(chunk, display);
    forall i | 0 <= i < |shown| ensures Printable(shown[i]) && IdsValid(shown[i]) {
      if i > 0 { assert shown[i] == chunk[i]; }
    }
    RevalidateChunkOnly(history, shown);
    FitAppend(history, shown);
  }
}
