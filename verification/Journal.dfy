/** The ordered persistence intents a turn emits (`crates/runtime/src/lib.rs`), a monitor that
    decides whether they are lawful, and the fold that rebuilds the provider conversation. */
module Journals {
  import opened Basics
  import opened Conversations
  import opened Projection
  import opened ToolHosts

  datatype Intent =
    | AppendMessage(message: ProviderMessage)
    | AppendToolRequest(request: ProviderMessage)
    | ToolPlanned(plan: Plan)
    | ToolStarted(callId: string, key: string)
    | ToolEnded(terminal: Terminal)
    | AppendResultBatch(results: seq<Terminal>)

  /** `provider_tool_result`: only a success shows its content verbatim. */
  function ResultMessage(codec: Codec, terminal: Terminal): ProviderMessage {
    var status := StatusName(terminal.status);
    ToolMessage(terminal.callId, status,
                if terminal.status.Succeeded? then terminal.content
                else codec.failure(terminal.invocationId, terminal.content, status),
                terminal.invocationId)
  }

  function ResultMessages(codec: Codec, terminals: seq<Terminal>): (messages: seq<ProviderMessage>)
    ensures |messages| == |terminals|
  {
    seq(|terminals|, i requires 0 <= i < |terminals| => ResultMessage(codec, terminals[i]))
  }

  // ----- Replay -----

  function Replayed(codec: Codec, intent: Intent): seq<ProviderMessage> {
    match intent
    case AppendMessage(message) => [message]
    case AppendToolRequest(request) => [request]
    case AppendResultBatch(results) => ResultMessages(codec, results)
    case _ => []
  }

  /** The provider conversation that the append intents describe. */
  function Rebuild(codec: Codec, intents: seq<Intent>): seq<ProviderMessage> {
    if intents == [] then [] else Replayed(codec, intents[0]) + Rebuild(codec, intents[1..])
  }

  lemma {:induction false} RebuildAppend(codec: Codec, a: seq<Intent>, b: seq<Intent>)
    ensures Rebuild(codec, a + b) == Rebuild(codec, a) + Rebuild(codec, b)
  {
    if a == [] {
      assert a + b == b;
    } else {
      TailOfSum(a, b);
      RebuildAppend(codec, a[1..], b);
      Regroup(Replayed(codec, a[0]), Rebuild(codec, a[1..]), Rebuild(codec, b));
    }
  }

  function Appends(messages: seq<ProviderMessage>): (intents: seq<Intent>)
    ensures |intents| == |messages|
  {
    seq(|messages|, i requires 0 <= i < |messages| => AppendMessage(messages[i]))
  }

  lemma {:induction false} RebuildAppends(codec: Codec, messages: seq<ProviderMessage>)
    ensures Rebuild(codec, Appends(messages)) == messages
  {
    if messages != [] {
      assert Appends(messages)[1..] == Appends(messages[1..]);
      RebuildAppends(codec, messages[1..]);
    }
  }

  // ----- The monitor -----

  datatype Stage = Allowed | Denied | Started | Ended

  type Stages = map<string, Stage>

  /** One intent is lawful when the execution keys it concerns are in the right stage:
      unplanned before planning, allowed before starting, started (or denied) before ending. */
  function Watch(stages: Stages, intent: Intent): Option<Stages> {
    match intent
    case ToolPlanned(plan) =>
      if plan.invocationId in stages then None
      else Some(stages[plan.invocationId := if plan.Denied() then Denied else Allowed])
    case ToolStarted(_, key) =>
      if key in stages && stages[key] == Allowed then Some(stages[key := Started]) else None
    case ToolEnded(terminal) =>
      var key := terminal.invocationId;
      if key in stages && (stages[key] == Started || stages[key] == Denied) then Some(stages[key := Ended]) else None
    case AppendResultBatch(results) =>
      if forall i :: 0 <= i < |results| ==> results[i].invocationId in stages && stages[results[i].invocationId] == Ended
      then Some(stages) else None
    case _ => Some(stages)
  }

  function WatchAll(stages: Stages, intents: seq<Intent>): Option<Stages>
    decreases |intents|
  {
    if intents == [] then Some(stages)
    else
      var next :- Watch(stages, intents[0]);
      WatchAll(next, intents[1..])
  }

  lemma {:induction false} WatchAppend(stages: Stages, a: seq<Intent>, b: seq<Intent>)
    ensures WatchAll(stages, a + b) ==
            if WatchAll(stages, a).None? then None else WatchAll(WatchAll(stages, a).value, b)
    decreases |a|
  {
    if a == [] {
      assert a + b == b;
    } else {
      assert (a + b)[1..] == a[1..] + b;
      if Watch(stages, a[0]).Some? { WatchAppend(Watch(stages, a[0]).value, a[1..], b); }
    }
  }

  lemma {:induction false} WatchAppends(stages: Stages, messages: seq<ProviderMessage>)
    ensures WatchAll(stages, Appends(messages)) == Some(stages)
  {
    if messages != [] {
      assert Appends(messages)[1..] == Appends(messages[1..]);
      WatchAppends(stages, messages[1..]);
    }
  }

  // ----- What a lawful journal guarantees -----

  ghost predicate Plans(intent: Intent, key: string) { intent.ToolPlanned? && intent.plan.invocationId == key }
  ghost predicate Starts(intent: Intent, key: string) { intent.ToolStarted? && intent.key == key }
  ghost predicate Ends(intent: Intent, key: string) { intent.ToolEnded? && intent.terminal.invocationId == key }

  ghost predicate PlansDenied(intent: Intent, key: string) { Plans(intent, key) && intent.plan.Denied() }

  ghost predicate SomePlan(intents: seq<Intent>, key: string) {
    exists i :: 0 <= i < |intents| && Plans(intents[i], key)
  }

  ghost predicate SomeDenial(intents: seq<Intent>, key: string) {
    exists i :: 0 <= i < |intents| && PlansDenied(intents[i], key)
  }

  ghost predicate SomeStart(intents: seq<Intent>, key: string) {
    exists i :: 0 <= i < |intents| && Starts(intents[i], key)
  }

  ghost predicate SomeEnd(intents: seq<Intent>, key: string) {
    exists i :: 0 <= i < |intents| && Ends(intents[i], key)
  }

  lemma SomeSnoc(front: seq<Intent>, last: Intent, key: string)
    ensures SomePlan(front + [last], key) <==> SomePlan(front, key) || Plans(last, key)
    ensures SomeDenial(front + [last], key) <==> SomeDenial(front, key) || PlansDenied(last, key)
    ensures SomeStart(front + [last], key) <==> SomeStart(front, key) || Starts(last, key)
    ensures SomeEnd(front + [last], key) <==> SomeEnd(front, key) || Ends(last, key)
  {
    var all := front + [last];
    assert all[|front|] == last && forall i :: 0 <= i < |front| ==> all[i] == front[i];
    if i :| 0 <= i < |front| && Plans(front[i], key) { assert Plans(all[i], key); }
    if i :| 0 <= i < |front| && PlansDenied(front[i], key) { assert PlansDenied(all[i], key); }
    if i :| 0 <= i < |front| && Starts(front[i], key) { assert Starts(all[i], key); }
    if i :| 0 <= i < |front| && Ends(front[i], key) { assert Ends(all[i], key); }
  }

  /** What has been seen of a key in the given stage. */
  ghost predicate SeenSoFar(intents: seq<Intent>, key: string, stage: Option<Stage>) {
    match stage
    case None => !SomePlan(intents, key) && !SomeStart(intents, key) && !SomeEnd(intents, key)
    case Some(Allowed) =>
      SomePlan(intents, key) && !SomeDenial(intents, key) && !SomeStart(intents, key) && !SomeEnd(intents, key)
    case Some(Denied) => SomeDenial(intents, key) && !SomeStart(intents, key) && !SomeEnd(intents, key)
    case Some(Started) => SomeStart(intents, key) && !SomeDenial(intents, key) && !SomeEnd(intents, key)
    case Some(Ended) =>
      SomeEnd(intents, key) && (SomeStart(intents, key) <==> !SomeDenial(intents, key))
  }

  function StageOf(stages: Stages, key: string): Option<Stage> {
    if key in stages then Some(stages[key]) else None
  }

  /** The stage a key has reached tells exactly which intents about it have been seen. */
  lemma {:induction false} StageMeaning(intents: seq<Intent>, key: string)
    requires WatchAll(map[], intents).Some?
    ensures SeenSoFar(intents, key, StageOf(WatchAll(map[], intents).value, key))
    ensures SomePlan(intents, key) <==> key in WatchAll(map[], intents).value
    ensures SomeDenial(intents, key) ==> SomePlan(intents, key)
  {
    if intents != [] {
      var front, last := intents[..|intents| - 1], intents[|intents| - 1];
      assert intents == front + [last];
      WatchAppend(map[], front, [last]);
      StageMeaning(front, key);
      SomeSnoc(front, last, key);
      assert WatchAll(WatchAll(map[], front).value, [last]) == Watch(WatchAll(map[], front).value, last);
    }
  }

  lemma WatchedUpTo(intents: seq<Intent>, j: nat)
    requires WatchAll(map[], intents).Some? && j < |intents|
    ensures WatchAll(map[], intents[..j]).Some? && Watch(WatchAll(map[], intents[..j]).value, intents[j]).Some?
  {
    assert intents == intents[..j] + intents[j..];
    WatchAppend(map[], intents[..j], intents[j..]);
  }

  /** Planned precedes started precedes ended, each at most once per execution key; a denied call
      is never started, and any other ends only after it was started. */
  lemma LawfulJournal(intents: seq<Intent>, j: nat, key: string)
    requires WatchAll(map[], intents).Some? && j < |intents|
    ensures var before := intents[..j];
            && (Plans(intents[j], key) ==> !SomePlan(before, key) && !SomeStart(before, key) && !SomeEnd(before, key))
            && (Starts(intents[j], key) ==>
                  SomePlan(before, key) && !SomeDenial(before, key) && !SomeStart(before, key) && !SomeEnd(before, key))
            && (Ends(intents[j], key) ==>
                  SomePlan(before, key) && (SomeStart(before, key) <==> !SomeDenial(before, key)) && !SomeEnd(before, key))
  {
    WatchedUpTo(intents, j);
    StageMeaning(intents[..j], key);
  }

  lemma PlannedOnce(intents: seq<Intent>, i: nat, j: nat, key: string)
    requires WatchAll(map[], intents).Some? && i <= j < |intents| && Plans(intents[i], key) && Plans(intents[j], key)
    ensures i == j
  {
    if i < j {
      assert Plans(intents[..j][i], key);
      LawfulJournal(intents, j, key);
    }
  }

  /** In a journal that leaves nothing open, every planned call has come to an end, and it was
      started unless its approval was decided "deny". */
  lemma EveryCallRunsUnlessDenied(intents: seq<Intent>, i: nat)
    requires WatchAll(map[], intents).Some? && AllEnded(WatchAll(map[], intents).value)
    requires i < |intents| && intents[i].ToolPlanned?
    ensures var plan := intents[i].plan;
            && SomeEnd(intents, plan.invocationId)
            && (SomeStart(intents, plan.invocationId) <==> !(plan.approval.Some? && plan.approval.value.decision == "deny"))
  {
    var key := intents[i].plan.invocationId;
    StageMeaning(intents, key);
    assert Plans(intents[i], key);
    forall j | 0 <= j < |intents| && Plans(intents[j], key) ensures j == i {
      if i <= j { PlannedOnce(intents, i, j, key); } else { PlannedOnce(intents, j, i, key); }
    }
    if SomeDenial(intents, key) {
      var j :| 0 <= j < |intents| && PlansDenied(intents[j], key);
    } else {
      assert !PlansDenied(intents[i], key);
    }
  }

  // ----- One round of tool calls -----

  function DispatchIntents(plan: Plan): seq<Intent> {
    if plan.Denied() then [ToolPlanned(plan)]
    else [ToolPlanned(plan), ToolStarted(plan.callId, plan.invocationId)]
  }

  function PlanIntents(plans: seq<Plan>): seq<Intent> {
    if plans == [] then [] else PlanIntents(plans[..|plans| - 1]) + DispatchIntents(plans[|plans| - 1])
  }

  function EndIntents(terminals: seq<Terminal>): (intents: seq<Intent>)
    ensures |intents| == |terminals|
  {
    seq(|terminals|, i requires 0 <= i < |terminals| => ToolEnded(terminals[i]))
  }

  method JournalPlans(plans: seq<Plan>) returns (intents: seq<Intent>)
    ensures intents == PlanIntents(plans)
  {
    intents := [];
    for i := 0 to |plans|
      invariant intents == PlanIntents(plans[..i])
    {
      assert plans[..i + 1][..i] == plans[..i];
      intents := intents + [ToolPlanned(plans[i])];
      if !plans[i].Denied() {
        assert DispatchIntents(plans[i]) == [ToolPlanned(plans[i])] + [ToolStarted(plans[i].callId, plans[i].invocationId)];
        intents := intents + [ToolStarted(plans[i].callId, plans[i].invocationId)];
      }
    }
    assert plans[..|plans|] == plans;
  }

  method JournalTerminals(terminals: seq<Terminal>) returns (intents: seq<Intent>)
    ensures intents == EndIntents(terminals)
  {
    intents := [];
    for i := 0 to |terminals|
      invariant intents == EndIntents(terminals[..i])
    {
      intents := intents + [ToolEnded(terminals[i])];
    }
    assert terminals[..|terminals|] == terminals;
  }

  ghost predicate KeysDistinct(plans: seq<Plan>) {
    forall i, j :: 0 <= i < j < |plans| ==> plans[i].invocationId != plans[j].invocationId
  }

  /** The stages after planning a batch and starting what was not denied. */
  function Dispatched(stages: Stages, plans: seq<Plan>): Stages {
    if plans == [] then stages
    else
      var last := plans[|plans| - 1];
      Dispatched(stages, plans[..|plans| - 1])[last.invocationId := if last.Denied() then Denied else Started]
  }

  lemma {:induction false} DispatchedOther(stages: Stages, plans: seq<Plan>, key: string)
    requires forall i :: 0 <= i < |plans| ==> plans[i].invocationId != key
    ensures key in Dispatched(stages, plans) <==> key in stages
    ensures key in stages ==> Dispatched(stages, plans)[key] == stages[key]
  {
    if plans != [] {
      DispatchedOther(stages, plans[..|plans| - 1], key);
    }
  }

  lemma {:induction false} DispatchedOwn(stages: Stages, plans: seq<Plan>, i: nat)
    requires KeysDistinct(plans) && i < |plans|
    ensures plans[i].invocationId in Dispatched(stages, plans)
    ensures Dispatched(stages, plans)[plans[i].invocationId] == if plans[i].Denied() then Denied else Started
  {
    if i < |plans| - 1 {
      DispatchedOwn(stages, plans[..|plans| - 1], i);
    }
  }

  /** Planning and starting a batch of new keys is lawful. */
  lemma {:induction false} PlansAreLawful(stages: Stages, plans: seq<Plan>)
    requires KeysDistinct(plans) && forall i :: 0 <= i < |plans| ==> plans[i].invocationId !in stages
    ensures WatchAll(stages, PlanIntents(plans)) == Some(Dispatched(stages, plans))
  {
    if plans != [] {
      var front, last := plans[..|plans| - 1], plans[|plans| - 1];
      PlansAreLawful(stages, front);
      DispatchedOther(stages, front, last.invocationId);
      DispatchIsLawful(Dispatched(stages, front), last);
      WatchAppend(stages, PlanIntents(front), DispatchIntents(last));
    }
  }

  lemma DispatchIsLawful(stages: Stages, plan: Plan)
    requires plan.invocationId !in stages
    ensures WatchAll(stages, DispatchIntents(plan)) ==
            Some(stages[plan.invocationId := if plan.Denied() then Denied else Started])
  {
    var planned := stages[plan.invocationId := Allowed];
    if !plan.Denied() {
      var rest := [ToolStarted(plan.callId, plan.invocationId)];
      assert DispatchIntents(plan)[1..] == rest;
      assert WatchAll(planned, rest) == Some(planned[plan.invocationId := Started]);
      assert planned[plan.invocationId := Started] == stages[plan.invocationId := Started];
    }
  }

  /** Distinct keys, each started or denied: all of them may end, in any order. */
  lemma {:induction false} TerminalsAreLawful(stages: Stages, terminals: seq<Terminal>)
    requires Distinct(EndKeys(terminals))
    requires forall key :: key in EndKeys(terminals) ==> key in stages && stages[key] in {Started, Denied}
    ensures WatchAll(stages, EndIntents(terminals)).Some?
    ensures var after := WatchAll(stages, EndIntents(terminals)).value;
            && after.Keys == stages.Keys
            && (forall key :: key in EndKeys(terminals) ==> after[key] == Ended)
            && (forall key :: key in stages && key !in EndKeys(terminals) ==> after[key] == stages[key])
  {
    if terminals != [] {
      var key := terminals[0].invocationId;
      var keys := EndKeys(terminals);
      assert keys[0] == key && keys == [key] + EndKeys(terminals[1..]);
      var next := Watch(stages, ToolEnded(terminals[0])).value;
      assert EndIntents(terminals)[1..] == EndIntents(terminals[1..]);
      assert forall i :: 1 <= i < |keys| ==> keys[0] != keys[i];
      assert Distinct(EndKeys(terminals[1..])) by { assert EndKeys(terminals[1..]) == keys[1..]; }
      TerminalsAreLawful(next, terminals[1..]);
    }
  }

  ghost predicate AllEnded(stages: Stages) {
    forall key :: key in stages ==> stages[key] == Ended
  }

  function RoundIntents(request: ProviderMessage, resolved: seq<Plan>, completed: seq<Terminal>, ordered: seq<Terminal>)
    : seq<Intent>
  {
    [AppendToolRequest(request)] + PlanIntents(resolved) + EndIntents(completed) + [AppendResultBatch(ordered)]
  }

  lemma {:induction false} PlanIntentsAppendNothing(codec: Codec, plans: seq<Plan>)
    ensures Rebuild(codec, PlanIntents(plans)) == []
  {
    if plans != [] {
      var front := plans[..|plans| - 1];
      PlanIntentsAppendNothing(codec, front);
      var last := DispatchIntents(plans[|plans| - 1]);
      RebuildAppend(codec, PlanIntents(front), last);
      assert Rebuild(codec, last[1..]) == [];
    }
  }

  lemma {:induction false} EndIntentsAppendNothing(codec: Codec, terminals: seq<Terminal>)
    ensures Rebuild(codec, EndIntents(terminals)) == []
  {
    if terminals != [] {
      assert EndIntents(terminals)[1..] == EndIntents(terminals[1..]);
      EndIntentsAppendNothing(codec, terminals[1..]);
    }
  }

  /** A round's intents replay as its request followed by its results in call order. */
  lemma RoundRebuilds(codec: Codec, request: ProviderMessage, resolved: seq<Plan>, completed: seq<Terminal>, ordered: seq<Terminal>)
    ensures Rebuild(codec, RoundIntents(request, resolved, completed, ordered)) == [request] + ResultMessages(codec, ordered)
  {
    var a, b, c, d := [AppendToolRequest(request)], PlanIntents(resolved), EndIntents(completed), [AppendResultBatch(ordered)];
    RebuildAppend(codec, a + b + c, d);
    RebuildAppend(codec, a + b, c);
    RebuildAppend(codec, a, b);
    PlanIntentsAppendNothing(codec, resolved);
    EndIntentsAppendNothing(codec, completed);
    assert Rebuild(codec, a) == [request];
    assert Rebuild(codec, d) == ResultMessages(codec, ordered);
  }

  lemma TerminalKeys(plans: seq<Plan>, terminals: seq<Terminal>)
    requires KeysDistinct(plans) && Distinct(PlanIds(plans)) && TerminalsMatch(plans, terminals)
    ensures Distinct(EndKeys(terminals))
    ensures forall key :: key in EndKeys(terminals) <==> key in PlanKeys(plans)
  {
    forall i, j | 0 <= i < j < |terminals| ensures EndKeys(terminals)[i] != EndKeys(terminals)[j] {
      assert Planned(plans, terminals[i]) && Planned(plans, terminals[j]);
      var p :| 0 <= p < |plans| && LastOfItsId(plans, p) && TerminalOf(plans[p], terminals[i]);
      var q :| 0 <= q < |plans| && LastOfItsId(plans, q) && TerminalOf(plans[q], terminals[j]);
      assert TerminalIds(terminals)[i] != TerminalIds(terminals)[j];
    }
    forall key | key in EndKeys(terminals) ensures key in PlanKeys(plans) {
      var i :| 0 <= i < |terminals| && EndKeys(terminals)[i] == key;
      assert Planned(plans, terminals[i]);
      var p :| 0 <= p < |plans| && LastOfItsId(plans, p) && TerminalOf(plans[p], terminals[i]);
      assert PlanKeys(plans)[p] == key;
    }
    EveryPlanHasATerminal(plans, terminals);
    forall key | key in PlanKeys(plans) ensures key in EndKeys(terminals) {
      var p :| 0 <= p < |plans| && PlanKeys(plans)[p] == key;
      var i :| 0 <= i < |terminals| && TerminalIds(terminals)[i] == plans[p].callId;
      TerminalMatchesItsPlan(plans, terminals, p, terminals[i]);
      assert EndKeys(terminals)[i] == key;
    }
  }

  lemma DispatchedMeaning(stages: Stages, plans: seq<Plan>, key: string)
    requires AllEnded(stages) && KeysDistinct(plans)
    requires forall i :: 0 <= i < |plans| ==> plans[i].invocationId !in stages
    ensures key in Dispatched(stages, plans) <==> key in stages || key in PlanKeys(plans)
    ensures key in PlanKeys(plans) ==> Dispatched(stages, plans)[key] in {Started, Denied}
    ensures key in stages ==> Dispatched(stages, plans)[key] == Ended
  {
    if key in PlanKeys(plans) {
      var p :| 0 <= p < |plans| && PlanKeys(plans)[p] == key;
      DispatchedOwn(stages, plans, p);
    } else {
      forall i | 0 <= i < |plans| ensures plans[i].invocationId != key {
        assert PlanKeys(plans)[i] != key;
      }
      DispatchedOther(stages, plans, key);
    }
  }

  /** Once every plan of a dispatched batch has its terminal, everything has ended. */
  lemma BatchEnds(stages: Stages, resolved: seq<Plan>, completed: seq<Terminal>)
    requires AllEnded(stages)
    requires KeysDistinct(resolved) && Distinct(PlanIds(resolved))
    requires forall i :: 0 <= i < |resolved| ==> resolved[i].invocationId !in stages
    requires TerminalsMatch(resolved, completed)
    ensures WatchAll(Dispatched(stages, resolved), EndIntents(completed)).Some?
    ensures var after := WatchAll(Dispatched(stages, resolved), EndIntents(completed)).value;
            && AllEnded(after)
            && forall key :: key in after <==> key in stages || key in PlanKeys(resolved)
  {
    var dispatched := Dispatched(stages, resolved);
    TerminalKeys(resolved, completed);
    forall key
      ensures key in dispatched <==> key in stages || key in PlanKeys(resolved)
      ensures key in PlanKeys(resolved) ==> dispatched[key] in {Started, Denied}
      ensures key in stages ==> dispatched[key] == Ended
    {
      DispatchedMeaning(stages, resolved, key);
    }
    TerminalsAreLawful(dispatched, completed);
  }

  /** From a state in which every earlier effect has ended, a whole validated round is lawful and
      leaves every effect ended again. */
  lemma RoundIsLawful(stages: Stages, request: ProviderMessage, resolved: seq<Plan>, completed: seq<Terminal>, ordered: seq<Terminal>)
    requires AllEnded(stages)
    requires KeysDistinct(resolved) && Distinct(PlanIds(resolved))
    requires forall i :: 0 <= i < |resolved| ==> resolved[i].invocationId !in stages
    requires TerminalsMatch(resolved, completed) && InCallOrder(resolved, ordered)
    ensures WatchAll(stages, RoundIntents(request, resolved, completed, ordered)).Some?
    ensures var after := WatchAll(stages, RoundIntents(request, resolved, completed, ordered)).value;
            && AllEnded(after)
            && forall key :: key in after <==> key in stages || key in PlanKeys(resolved)
  {
    var a, b, c, d := [AppendToolRequest(request)], PlanIntents(resolved), EndIntents(completed), [AppendResultBatch(ordered)];
    PlansAreLawful(stages, resolved);
    WatchAppend(stages, a, b);
    assert WatchAll(stages, a) == Some(stages);
    BatchEnds(stages, resolved, completed);
    WatchAppend(stages, a + b, c);
    var after := WatchAll(Dispatched(stages, resolved), c).value;
    assert WatchAll(stages, a + b + c) == Some(after);
    BatchRecordIsLawful(after, resolved, ordered);
    WatchAppend(stages, a + b + c, d);
  }

  lemma BatchRecordIsLawful(stages: Stages, resolved: seq<Plan>, ordered: seq<Terminal>)
    requires AllEnded(stages) && InCallOrder(resolved, ordered)
    requires forall key :: key in PlanKeys(resolved) ==> key in stages
    ensures WatchAll(stages, [AppendResultBatch(ordered)]) == Some(stages)
  {
    forall i | 0 <= i < |ordered| ensures ordered[i].invocationId in stages {
      assert PlanKeys(resolved)[i] == ordered[i].invocationId;
    }
    assert Watch(stages, AppendResultBatch(ordered)) == Some(stages);
  }
}
