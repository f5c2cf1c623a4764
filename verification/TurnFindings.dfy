/** Why a finished turn can still fail to parse: neither the fragment assembly nor the tool host
    looks at an empty tool name, but the conversation's own rules do. */
module TurnFindings {
  import opened Basics
  import opened Conversations
  import opened Projection
  import opened Fragments
  import opened ToolHosts
  import opened Attempts
  import opened Journals
  import opened Turns

  /** An attempt names its calls exactly when no streamed call carries an empty name. */
  lemma NamedMeansNoEmptyName(codec: Codec, start: AttemptStart)
    requires Asks(start) && FinishCalls(codec, Consumed(start.items).value.partials).Ok?
    ensures NamedCalls(codec, start) <==>
              forall k :: k in Consumed(start.items).value.partials ==> Consumed(start.items).value.partials[k].name != Some("")
  {
    var partials := Consumed(start.items).value.partials;
    var calls := FinishCalls(codec, partials).value;
    ContiguousKeys(partials);
    forall k | 0 <= k < |calls| ensures partials[k].name == Some(calls[k].name) {
      assert FinishCall(codec, k, partials[k]) == Ok(calls[k]);
    }
    if NamesPresent(calls) {
      forall k | k in partials ensures partials[k].name != Some("") {
        assert k < |calls|;
      }
    }
  }

  const NAMELESS := Fragment(0, Some("c"), Some(""), "")

  const CALL := ToolCall("c", "", map[])

  const ASKED := AttemptState("", "", map[0 := PartialCall(Some("c"), Some(""), "")],
                              Some(EndedNormally("tool_calls", None)), true)

  const DONE := AttemptState("ok", "", map[], Some(EndedNormally("stop", None)), true)

  /** The provider calls a tool without naming it, is answered, and then ends its turn. */
  const SCRIPT := [
    Streaming(false, [Event(ToolCallDelta(NAMELESS)), Event(Completion(Some("tool_calls"), None))]),
    Streaming(false, [Event(TextDelta("ok")), Event(Completion(Some("stop"), None))])]

  const PLAN := Plan("c", "", map[], "s:c", ReadOnly, None)

  const ANSWER := Terminal("c", "", Succeeded, "", "s:c", ReadOnly, None)

  const BROKER := [BrokerRound(Ok([PLAN]), Ok([PLAN]), Ok([ANSWER]))]

  const ASK := TurnRequest("s", true, "m", None, [UserMessage("hi")])

  lemma TwoItems(a: StreamItem, b: StreamItem)
    ensures Consumed([a, b]) == match Advance(FRESH_ATTEMPT, a) { case Ok(state) => Advance(state, b) case Err(f) => Err(f) }
  {
    assert [a, b][..1] == [a] && [a][..0] == [];
    assert Consumed([a]) == Advance(FRESH_ATTEMPT, a);
  }

  lemma ScriptIsConsumed()
    ensures Consumed(SCRIPT[0].items) == Ok(ASKED) && Consumed(SCRIPT[1].items) == Ok(DONE)
  {
    TwoItems(Event(ToolCallDelta(NAMELESS)), Event(Completion(Some("tool_calls"), None)));
    TwoItems(Event(TextDelta("ok")), Event(Completion(Some("stop"), None)));
    assert "" + "ok" == "ok" && "" + "" == "";
    assert AddFragment(map[], NAMELESS).value == map[0 := PartialCall(Some("c"), Some(""), "")];
  }

  lemma CallIsFinished(codec: Codec)
    ensures FinishCalls(codec, ASKED.partials) == Ok([CALL])
  {
    assert ValidId("c");
    assert FinishCall(codec, 0, ASKED.partials[0]) == Ok(CALL);
    assert |ASKED.partials| == 1;
    assert FinishFrom(codec, ASKED.partials, 1) == Ok([]);
    assert [CALL] + [] == [CALL];
  }

  lemma RoundIsLetThrough()
    ensures RoundOk("s", [CALL], {}, BROKER[0])
  {
    assert InvocationId("s", "c") == "s:c";
    assert InvocationIds("s", [CALL]) == ["s:c"] && ValidId("s:c");
    assert TerminalIds([ANSWER]) == ["c"];
    assert LastOfItsId([PLAN], 0) && TerminalOf([PLAN][0], ANSWER);
    assert Planned([PLAN], ANSWER);
  }

  lemma ScriptStops(codec: Codec)
    ensures StopAt(codec, ASK, SCRIPT, BROKER, 2, 0).None?
    ensures StopAt(codec, ASK, SCRIPT, BROKER, 2, 1).Some? && StopAt(codec, ASK, SCRIPT, BROKER, 2, 1).value.Concludes?
    ensures Asks(SCRIPT[0]) && !NamedCalls(codec, SCRIPT[0])
  {
    ScriptIsConsumed();
    CallIsFinished(codec);
    RoundIsLetThrough();
    assert 0 in ASKED.partials;
    assert [CALL][0].name == "";
  }

  /** Whatever the codec: this turn concludes, every round of it is let through, and yet it ends
      in a parse failure. */
  lemma NamelessCallIsUnparseable(codec: Codec, r: Result<TurnOutcome, TurnFailure>)
    requires TurnRun(codec, ASK, SCRIPT, false, BROKER, 2, FirstStop(codec, ASK, SCRIPT, BROKER, 2), r)
    ensures FirstStop(codec, ASK, SCRIPT, BROKER, 2) == 1 && r.Err? && r.error.Unparseable?
  {
    ScriptStops(codec);
    FirstStopIs(codec, ASK, SCRIPT, BROKER, 2, 1);
    assert !AllNamed(codec, SCRIPT, 2) by {
      assert !AllNamed(codec, SCRIPT, 1);
    }
  }
}
