/** What `semanticize` of `crates/runtime/src/lib.rs` accepts, said through printing: a flat history is
    read exactly if it is, message for message, what some well-formed conversation prints as. */
module Readings {
  import opened Basics
  import opened Conversations
  import opened Projection

  // ----- What is read can be printed ----------------------------------------------------

  lemma {:induction false} DecodedCallsAreValid(codec: Codec, calls: seq<ProviderToolCall>)
    requires DecodeCalls(codec, calls).Ok?
    ensures forall i :: 0 <= i < |DecodeCalls(codec, calls).value| ==> ValidId(DecodeCalls(codec, calls).value[i].id)
  {
    if calls != [] { DecodedCallsAreValid(codec, calls[1..]); }
  }

  lemma {:induction false} DecodedResultsAreFit(messages: seq<ProviderMessage>)
    requires forall i :: 0 <= i < |messages| ==> messages[i].ToolMessage?
    requires DecodeResults(messages).Ok?
    ensures Printable(Batch(DecodeResults(messages).value)) && IdsValid(Batch(DecodeResults(messages).value))
  {
    if messages != [] { DecodedResultsAreFit(messages[1..]); }
  }

  lemma RoundIsFit(codec: Codec, request: ProviderMessage, answers: seq<ProviderMessage>)
    requires request.AssistantMessage? && forall i :: 0 <= i < |answers| ==> answers[i].ToolMessage?
    requires ParseRound(codec, request, answers).Ok?
    ensures Fit(ParseRound(codec, request, answers).value)
  {
    DecodedCallsAreValid(codec, request.toolCalls);
    DecodedResultsAreFit(answers);
  }

  /** Whatever `semanticize` reads can be printed again. */
  lemma {:induction false} ParsedIsFit(codec: Codec, raw: seq<ProviderMessage>)
    requires Parse(codec, raw).Ok?
    ensures Fit(Parse(codec, raw).value)
    decreases |raw|
  {
    if raw != [] {
      var rest := raw[1..];
      match raw[0]
      case SystemMessage(_) => ParsedIsFit(codec, rest);
      case UserMessage(content) =>
        ParsedIsFit(codec, rest);
        FitAppend([User(content, None)], Parse(codec, rest).value);
      case AssistantMessage(text, reasoning, calls, replay) =>
        if calls == [] {
          ParsedIsFit(codec, rest);
          FitAppend([Assistant(text.GetOr(""), reasoning, replay)], Parse(codec, rest).value);
        } else {
          var after := rest[ToolRun(rest)..];
          RoundIsFit(codec, raw[0], Answers(rest));
          ParsedIsFit(codec, after);
          FitAppend(ParseRound(codec, raw[0], Answers(rest)).value, Parse(codec, after).value);
        }
      case ToolMessage(_, _, _, _) =>
    }
  }

  // ----- Messages that say the same -----------------------------------------------------

  /** The same call, its arguments possibly written differently. */
  ghost predicate SameCall(codec: Codec, a: ProviderToolCall, b: ProviderToolCall) {
    a.id == b.id && a.name == b.name && codec.decode(a.arguments) == codec.decode(b.arguments)
  }

  ghost predicate SameCalls(codec: Codec, a: seq<ProviderToolCall>, b: seq<ProviderToolCall>) {
    |a| == |b| && forall i :: 0 <= i < |a| ==> SameCall(codec, a[i], b[i])
  }

  /** Missing text is empty text, and beside tool calls missing reasoning is empty reasoning. */
  ghost predicate Alike(codec: Codec, a: ProviderMessage, b: ProviderMessage) {
    match a
    case SystemMessage(_) => b == a
    case UserMessage(_) => b == a
    case ToolMessage(_, _, _, _) => b == a
    case AssistantMessage(text, reasoning, calls, replay) =>
      && b.AssistantMessage? && SameCalls(codec, calls, b.toolCalls) && b.replay == replay
      && b.text.GetOr("") == text.GetOr("")
      && (if calls == [] then b.reasoning == reasoning else b.reasoning.GetOr("") == reasoning.GetOr(""))
  }

  ghost predicate AllAlike(codec: Codec, a: seq<ProviderMessage>, b: seq<ProviderMessage>) {
    |a| == |b| && forall i :: 0 <= i < |a| ==> Alike(codec, a[i], b[i])
  }

  lemma AlikeAppend(codec: Codec, a: seq<ProviderMessage>, b: seq<ProviderMessage>, c: seq<ProviderMessage>, d: seq<ProviderMessage>)
    requires AllAlike(codec, a, b) && AllAlike(codec, c, d)
    ensures AllAlike(codec, a + c, b + d)
  {
  }

  lemma {:induction false} AlikeCalls(codec: Codec, a: seq<ProviderToolCall>, b: seq<ProviderToolCall>)
    requires SameCalls(codec, a, b)
    ensures DecodeCalls(codec, a) == DecodeCalls(codec, b)
  {
    if a != [] {
      assert SameCall(codec, a[0], b[0]);
      forall i | 0 <= i < |a[1..]| ensures SameCall(codec, a[1..][i], b[1..][i]) { assert SameCall(codec, a[i + 1], b[i + 1]); }
      AlikeCalls(codec, a[1..], b[1..]);
    }
  }

  lemma {:induction false} AlikeRuns(codec: Codec, a: seq<ProviderMessage>, b: seq<ProviderMessage>)
    requires AllAlike(codec, a, b)
    ensures ToolRun(a) == ToolRun(b) && Answers(a) == Answers(b)
    ensures AllAlike(codec, a[ToolRun(a)..], b[ToolRun(b)..])
  {
    if a != [] {
      assert Alike(codec, a[0], b[0]);
      AlikeRest(codec, a, b, 1);
      AlikeRuns(codec, a[1..], b[1..]);
      AlikeRest(codec, a, b, ToolRun(a));
    }
  }

  lemma AlikeRest(codec: Codec, a: seq<ProviderMessage>, b: seq<ProviderMessage>, n: nat)
    requires AllAlike(codec, a, b) && n <= |a|
    ensures AllAlike(codec, a[n..], b[n..])
  {
    forall i | 0 <= i < |a[n..]| ensures Alike(codec, a[n..][i], b[n..][i]) { assert Alike(codec, a[n + i], b[n + i]); }
  }

  /** Both fail, or both are read as the same conversation in canonical form. */
  ghost predicate SameReading(a: Result<seq<Message>, ParseFailure>, b: Result<seq<Message>, ParseFailure>) {
    if a.Ok? then b.Ok? && CanonicalAll(a.value) == CanonicalAll(b.value) else b.Err?
  }

  lemma SamePrepend(x: seq<Message>, y: seq<Message>, a: Result<seq<Message>, ParseFailure>, b: Result<seq<Message>, ParseFailure>)
    requires CanonicalAll(x) == CanonicalAll(y) && SameReading(a, b)
    ensures SameReading(Prepend(x, a), Prepend(y, b))
  {
    if a.Ok? {
      assert CanonicalAll(x + a.value) == CanonicalAll(x) + CanonicalAll(a.value);
      assert CanonicalAll(y + b.value) == CanonicalAll(y) + CanonicalAll(b.value);
    }
  }

  lemma AlikeRounds(codec: Codec, a: ProviderMessage, b: ProviderMessage, answers: seq<ProviderMessage>)
    requires Alike(codec, a, b) && a.AssistantMessage? && a.toolCalls != []
    requires forall i :: 0 <= i < |answers| ==> answers[i].ToolMessage?
    ensures ParseRound(codec, a, answers).Ok? <==> ParseRound(codec, b, answers).Ok?
    ensures ParseRound(codec, a, answers).Ok? ==>
              CanonicalAll(ParseRound(codec, a, answers).value) == CanonicalAll(ParseRound(codec, b, answers).value)
  {
    AlikeCalls(codec, a.toolCalls, b.toolCalls);
    if ParseRound(codec, a, answers).Ok? {
      var x, y := ParseRound(codec, a, answers).value, ParseRound(codec, b, answers).value;
      assert Canonical(x[0]) == Canonical(y[0]) && Canonical(x[1]) == Canonical(y[1]);
    }
  }

  /** Histories that say the same are read alike. */
  lemma {:induction false} AlikeReadAlike(codec: Codec, a: seq<ProviderMessage>, b: seq<ProviderMessage>)
    requires AllAlike(codec, a, b)
    ensures SameReading(Parse(codec, a), Parse(codec, b))
    decreases |a|
  {
    if a != [] {
      assert Alike(codec, a[0], b[0]);
      AlikeRest(codec, a, b, 1);
      var p, q := a[1..], b[1..];
      match a[0]
      case SystemMessage(_) => AlikeReadAlike(codec, p, q);
      case UserMessage(content) =>
        AlikeReadAlike(codec, p, q);
        SamePrepend([User(content, None)], [User(content, None)], Parse(codec, p), Parse(codec, q));
      case AssistantMessage(text, reasoning, calls, replay) =>
        if calls == [] {
          AlikeReadAlike(codec, p, q);
          var answer := [Assistant(text.GetOr(""), reasoning, replay)];
          SamePrepend(answer, answer, Parse(codec, p), Parse(codec, q));
        } else {
          AlikeRuns(codec, p, q);
          AlikeRounds(codec, a[0], b[0], Answers(p));
          AlikeReadAlike(codec, p[ToolRun(p)..], q[ToolRun(q)..]);
          if ParseRound(codec, a[0], Answers(p)).Ok? {
            SamePrepend(ParseRound(codec, a[0], Answers(p)).value, ParseRound(codec, b[0], Answers(q)).value,
                        Parse(codec, p[ToolRun(p)..]), Parse(codec, q[ToolRun(q)..]));
          }
        }
      case ToolMessage(_, _, _, _) =>
    }
  }

  // ----- What is read prints back -------------------------------------------------------

  /** The history without system prompts. */
  function Plain(raw: seq<ProviderMessage>): seq<ProviderMessage> {
    if raw == [] then [] else (if raw[0].SystemMessage? then [] else [raw[0]]) + Plain(raw[1..])
  }

  lemma {:induction false} DecodedCallsPrintBack(codec: Codec, calls: seq<ProviderToolCall>)
    requires codec.Faithful() && DecodeCalls(codec, calls).Ok?
    ensures SameCalls(codec, calls, EncodeCalls(codec, DecodeCalls(codec, calls).value))
  {
    if calls != [] {
      DecodedCallsPrintBack(codec, calls[1..]);
      var decoded := DecodeCalls(codec, calls).value;
      assert decoded == [DecodeCall(codec, calls[0]).value] + DecodeCalls(codec, calls[1..]).value;
      forall i | 0 <= i < |calls| ensures SameCall(codec, calls[i], EncodeCalls(codec, decoded)[i]) {
        if i > 0 { assert SameCall(codec, calls[1..][i - 1], EncodeCalls(codec, decoded[1..])[i - 1]); }
      }
    }
  }

  lemma {:induction false} DecodedResultsPrintBack(messages: seq<ProviderMessage>)
    requires forall i :: 0 <= i < |messages| ==> messages[i].ToolMessage?
    requires DecodeResults(messages).Ok?
    ensures Keyed(DecodeResults(messages).value) && ProjectResults(DecodeResults(messages).value) == messages
  {
    if messages != [] {
      DecodedResultsPrintBack(messages[1..]);
      var decoded := DecodeResults(messages).value;
      assert decoded == [DecodeResult(messages[0]).value] + DecodeResults(messages[1..]).value;
      assert ProjectResults(decoded) == [messages[0]] + ProjectResults(decoded[1..]);
    }
  }

  lemma RoundPrintsBack(codec: Codec, request: ProviderMessage, answers: seq<ProviderMessage>)
    requires codec.Faithful() && request.AssistantMessage? && request.toolCalls != []
    requires forall i :: 0 <= i < |answers| ==> answers[i].ToolMessage?
    requires ParseRound(codec, request, answers).Ok?
    ensures AllPrintable(ParseRound(codec, request, answers).value)
    ensures AllAlike(codec, [request] + answers, ProjectAll(codec, ParseRound(codec, request, answers).value))
  {
    var calls, results := DecodeCalls(codec, request.toolCalls).value, DecodeResults(answers).value;
    DecodedCallsPrintBack(codec, request.toolCalls);
    DecodedResultsPrintBack(answers);
    PairPrints(codec, request, calls, results);
  }

  lemma PairPrints(codec: Codec, request: ProviderMessage, calls: seq<ToolCall>, results: seq<ToolResult>)
    requires request.AssistantMessage? && request.toolCalls != []
    requires SameCalls(codec, request.toolCalls, EncodeCalls(codec, calls)) && Keyed(results)
    ensures var round := [Request(request.text, calls, request.reasoning, request.replay), Batch(results)];
            AllPrintable(round) && AllAlike(codec, [request] + ProjectResults(results), ProjectAll(codec, round))
  {
    var asked := Request(request.text, calls, request.reasoning, request.replay);
    var printed := ToolRequestMessage(codec, request.text.GetOr(""), request.reasoning.GetOr(""), calls, request.replay);
    assert [asked, Batch(results)][1..] == [Batch(results)] && [Batch(results)][1..] == [];
    assert ProjectAll(codec, [Batch(results)]) == ProjectResults(results) + [];
    assert ProjectAll(codec, [asked, Batch(results)]) == [printed] + ProjectResults(results);
    assert Alike(codec, request, printed);
  }

  lemma {:induction false} PlainRun(raw: seq<ProviderMessage>)
    ensures Plain(raw) == Answers(raw) + Plain(raw[ToolRun(raw)..])
  {
    if raw != [] && raw[0].ToolMessage? {
      PlainRun(raw[1..]);
      assert Answers(raw) == [raw[0]] + Answers(raw[1..]);
      assert raw[ToolRun(raw)..] == raw[1..][ToolRun(raw[1..])..];
    } else {
      assert Answers(raw) == [] && raw[0..] == raw;
    }
  }

  /** What was read prints back as the history, without its system prompts, message for message. */
  lemma {:induction false} ReadPrintsBack(codec: Codec, raw: seq<ProviderMessage>)
    requires codec.Faithful() && Parse(codec, raw).Ok?
    ensures AllPrintable(Parse(codec, raw).value)
    ensures AllAlike(codec, Plain(raw), ProjectAll(codec, Parse(codec, raw).value))
    decreases |raw|
  {
    if raw != [] {
      var rest := raw[1..];
      match raw[0]
      case SystemMessage(_) => ReadPrintsBack(codec, rest);
      case UserMessage(content) =>
        ReadPrintsBack(codec, rest);
        OnePrints(codec, raw[0], User(content, None));
        PartsPrint(codec, [raw[0]], [User(content, None)], Plain(rest), Parse(codec, rest).value);
      case AssistantMessage(text, reasoning, calls, replay) =>
        if calls == [] {
          ReadPrintsBack(codec, rest);
          var answer := Assistant(text.GetOr(""), reasoning, replay);
          OnePrints(codec, raw[0], answer);
          PartsPrint(codec, [raw[0]], [answer], Plain(rest), Parse(codec, rest).value);
        } else {
          var after := rest[ToolRun(rest)..];
          ReadPrintsBack(codec, after);
          RoundPrintsBack(codec, raw[0], Answers(rest));
          PartsPrint(codec, [raw[0]] + Answers(rest), ParseRound(codec, raw[0], Answers(rest)).value, Plain(after), Parse(codec, after).value);
          PlainRound(raw);
        }
      case ToolMessage(_, _, _, _) =>
    }
  }

  lemma PlainRound(raw: seq<ProviderMessage>)
    requires raw != [] && !raw[0].SystemMessage?
    ensures Plain(raw) == ([raw[0]] + Answers(raw[1..])) + Plain(raw[1..][ToolRun(raw[1..])..])
  {
    PlainRun(raw[1..]);
  }

  lemma PartsPrint(codec: Codec, first: seq<ProviderMessage>, messages: seq<Message>, plain: seq<ProviderMessage>, later: seq<Message>)
    requires AllPrintable(messages) && AllAlike(codec, first, ProjectAll(codec, messages))
    requires AllPrintable(later) && AllAlike(codec, plain, ProjectAll(codec, later))
    ensures AllPrintable(messages + later) && AllAlike(codec, first + plain, ProjectAll(codec, messages + later))
  {
    ProjectAppend(codec, messages, later);
    AlikeAppend(codec, first, ProjectAll(codec, messages), plain, ProjectAll(codec, later));
  }

  lemma OnePrints(codec: Codec, first: ProviderMessage, message: Message)
    requires message.User? || message.Assistant?
    requires Alike(codec, first, ProjectMessage(codec, message)[0])
    ensures AllPrintable([message]) && AllAlike(codec, [first], ProjectAll(codec, [message]))
  {
    assert ProjectAll(codec, [message]) == ProjectMessage(codec, message) + [];
  }

  // ----- What is accepted ---------------------------------------------------------------

  /** The history is what this conversation prints as. */
  ghost predicate PrintOf(codec: Codec, raw: seq<ProviderMessage>, messages: seq<Message>) {
    WellFormed(messages) && Fit(messages) && AllAlike(codec, raw, ProjectAll(codec, messages))
  }

  ghost predicate NoSystem(raw: seq<ProviderMessage>) {
    forall i :: 0 <= i < |raw| ==> !raw[i].SystemMessage?
  }

  lemma {:induction false} PlainIsItself(raw: seq<ProviderMessage>)
    requires NoSystem(raw)
    ensures Plain(raw) == raw
  {
    if raw != [] { PlainIsItself(raw[1..]); }
  }

  lemma WellFormedAlike(a: seq<Message>, b: seq<Message>)
    requires CanonicalAll(a) == CanonicalAll(b) && WellFormed(b)
    ensures WellFormed(a)
  {
    assert |a| == |CanonicalAll(a)| == |CanonicalAll(b)| == |b|;
    forall i | 0 <= i < |a| ensures Canonical(a[i]) == Canonical(b[i]) {
      assert CanonicalAll(a)[i] == CanonicalAll(b)[i];
    }
    forall i | 0 <= i < |a| ensures LegalAt(a, i) {
      assert LegalAt(b, i);
      if i > 0 { assert Canonical(a[i - 1]) == Canonical(b[i - 1]); }
    }
  }

  /** A history is accepted exactly if it is what some well-formed conversation with valid ids and
      keyed results prints as; it is then read as that conversation. */
  lemma AcceptedIsPrinted(codec: Codec, raw: seq<ProviderMessage>)
    requires codec.Faithful() && NoSystem(raw)
    ensures Accepted(codec, raw) <==> exists messages :: PrintOf(codec, raw, messages)
    ensures forall messages :: PrintOf(codec, raw, messages) ==>
              CanonicalAll(Parse(codec, raw).value) == CanonicalAll(messages)
  {
    if Accepted(codec, raw) {
      ParsedIsFit(codec, raw);
      ReadPrintsBack(codec, raw);
      PlainIsItself(raw);
      assert PrintOf(codec, raw, Parse(codec, raw).value);
    }
    forall messages | PrintOf(codec, raw, messages)
      ensures Accepted(codec, raw) && CanonicalAll(Parse(codec, raw).value) == CanonicalAll(messages)
    {
      RoundTrip(codec, messages);
      AlikeReadAlike(codec, raw, ProjectAll(codec, messages));
      assert CanonicalAll(CanonicalAll(messages)) == CanonicalAll(messages);
      CanonicalStaysWellFormed(messages);
      WellFormedAlike(Parse(codec, raw).value, CanonicalAll(messages));
    }
  }
}
