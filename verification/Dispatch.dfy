/** Write-ahead and at-most-once dispatch: any number of turns, each driving its own
    `JournaledToolBroker` (`crates/runtime/src/lib.rs:29-106`) against one shared journal,
    crashing and retrying at will. The broker behind the journal is arbitrary; in particular
    the approvals and terminals it returns need not belong to the batch it was given. */
module Dispatch {
  import opened Basics
  import opened Conversations
  import opened ToolHosts
  import opened Ledger

  /** Where one turn stands in its current batch. A crashed or failed turn reads `Idle`. */
  datatype Driver =
    | Idle
    | Recorded(plans: seq<Plan>)
    | Resolved(plans: seq<Plan>)
    | Sent(plans: seq<Plan>)
  {
    /** The batch that is journaled but has not reached the inner broker. */
    function Held(): seq<Plan> {
      if Recorded? || Resolved? then plans else []
    }
  }

  /** `sent` lists every execution key that ever reached the inner broker, in order. */
  datatype World = World(rows: Rows, drivers: map<nat, Driver>, sent: seq<string>) {
    function At(d: nat): Driver {
      if d in drivers then drivers[d] else Idle
    }
  }

  datatype Event =
    | Plan(driver: nat, scope: string, plans: seq<Plan>)
    | Resolve(driver: nat, answer: seq<Plan>)
    | Execute(driver: nat)
    | Settle(driver: nat, terminals: seq<Terminal>)
    | Crash(driver: nat)

  ghost predicate HadPending(plans: seq<Plan>) {
    exists i :: 0 <= i < |plans| && plans[i].Pending()
  }

  /** The journal write behind `resolve_approvals`: skipped when nothing was pending. */
  ghost predicate ApprovalsWritten(rows: Rows, plans: seq<Plan>, answer: seq<Plan>, next: Rows) {
    if HadPending(plans) then MayResolveAll(rows, answer) && Resolves(rows, answer, next) else next == rows
  }

  /** `JournaledToolBroker`: an arbitrary inner broker, whose answers are parameters, behind
      the durable journal. Its three methods make the `Plan`, `Resolve` and `Settle` steps
      below; `Execute` hands the batch to the inner broker before it journals the outcome. */
  class JournaledBroker {
    const ledger: EffectLedger
    const scope: string

    constructor (ledger: EffectLedger, scope: string)
      requires scope != ""
      ensures this.ledger == ledger && this.scope == scope
    {
      this.ledger, this.scope := ledger, scope;
    }

    method Plan(calls: seq<ToolCall>, ids: seq<string>, answer: BrokerAnswer<seq<ToolHosts.Plan>>)
      returns (r: Result<seq<ToolHosts.Plan>, HostFailure>)
      requires ledger.Valid()
      modifies ledger
      ensures ledger.Valid()
      ensures r.Ok? <==> answer.Ok? && ValidPlans(calls, ids, answer.value)
                         && MayRecord(old(ledger.rows), scope, answer.value)
      ensures r.Ok? ==> r.value == answer.value && Records(old(ledger.rows), scope, r.value, ledger.rows)
      ensures r.Err? ==> ledger.rows == old(ledger.rows)
    {
      if answer.Err? { return Err(BrokerFailed); }
      if !ValidPlans(calls, ids, answer.value) { return Err(PlansChanged); }
      var recorded := ledger.RecordPlans(scope, answer.value);
      if recorded.Err? { return Err(BrokerFailed); }
      return Ok(answer.value);
    }

    method ResolveApprovals(plans: seq<ToolHosts.Plan>, answer: BrokerAnswer<seq<ToolHosts.Plan>>)
      returns (r: Result<seq<ToolHosts.Plan>, HostFailure>)
      requires ledger.Valid()
      modifies ledger
      ensures ledger.Valid()
      ensures r.Ok? <==> answer.Ok? && (HadPending(plans) ==> MayResolveAll(old(ledger.rows), answer.value))
      ensures r.Ok? ==> r.value == answer.value && ApprovalsWritten(old(ledger.rows), plans, r.value, ledger.rows)
      ensures r.Err? ==> ledger.rows == old(ledger.rows)
    {
      var hadPending := exists i :: 0 <= i < |plans| && plans[i].Pending();
      if answer.Err? { return Err(BrokerFailed); }
      if hadPending {
        var recorded := ledger.RecordApprovals(answer.value);
        if recorded.Err? { return Err(BrokerFailed); }
      }
      return Ok(answer.value);
    }

    method Execute(plans: seq<ToolHosts.Plan>, answer: BrokerAnswer<seq<Terminal>>)
      returns (r: Result<seq<Terminal>, HostFailure>)
      requires ledger.Valid()
      modifies ledger
      ensures ledger.Valid()
      ensures r.Ok? <==> answer.Ok? && MayEndAll(old(ledger.rows), answer.value)
      ensures r.Ok? ==> r.value == answer.value && Terminates(old(ledger.rows), r.value, ledger.rows)
      ensures r.Err? ==> ledger.rows == old(ledger.rows)
    {
      if answer.Err? { return Err(BrokerFailed); }
      var recorded := ledger.RecordTerminals(answer.value);
      if recorded.Err? { return Err(BrokerFailed); }
      return Ok(answer.value);
    }
  }

  ghost predicate Step(w: World, event: Event, next: World) {
    match event
    case Plan(d, scope, plans) =>
      && w.At(d).Idle?
      && MayRecord(w.rows, scope, plans) && Records(w.rows, scope, plans, next.rows)
      && next.drivers == w.drivers[d := Recorded(plans)] && next.sent == w.sent
    case Resolve(d, answer) =>
      && w.At(d).Recorded?
      && ApprovalsWritten(w.rows, w.At(d).plans, answer, next.rows)
      && next.drivers == w.drivers[d := if ApprovalsResolve(w.At(d).plans, answer) then Resolved(answer) else Idle]
      && next.sent == w.sent
    case Execute(d) =>
      && w.At(d).Resolved?
      && next.rows == w.rows
      && next.drivers == w.drivers[d := Sent(w.At(d).plans)]
      && next.sent == w.sent + PlanKeys(w.At(d).plans)
    case Settle(d, terminals) =>
      && w.At(d).Sent?
      && (if MayEndAll(w.rows, terminals) then Terminates(w.rows, terminals, next.rows) else next.rows == w.rows)
      && next.drivers == w.drivers[d := Idle] && next.sent == w.sent
    case Crash(d) => next == w.(drivers := w.drivers[d := Idle])
  }

  // ---- A tool round makes these steps ------------------------------------------------

  /** A stretch of a run. */
  ghost predicate Trail(worlds: seq<World>, events: seq<Event>) {
    && |worlds| == |events| + 1
    && forall i {:trigger StepAt(worlds, events, i)} :: 0 <= i < |events| ==> StepAt(worlds, events, i)
  }

  lemma TrailOn(worlds: seq<World>, events: seq<Event>, event: Event, next: World)
    requires Trail(worlds, events) && Step(worlds[|worlds| - 1], event, next)
    ensures Trail(worlds + [next], events + [event])
  {
    var worlds', events' := worlds + [next], events + [event];
    forall i {:trigger StepAt(worlds', events', i)} | 0 <= i < |events'| ensures StepAt(worlds', events', i) {
      if i < |events| { assert StepAt(worlds, events, i); }
    }
  }

  /** What the inner broker answers in one round. */
  datatype InnerRound = InnerRound(
    plans: BrokerAnswer<seq<ToolHosts.Plan>>, resolution: BrokerAnswer<seq<ToolHosts.Plan>>, terminals: BrokerAnswer<seq<Terminal>>)

  function AsAnswer<T>(r: Result<T, HostFailure>): BrokerAnswer<T> {
    match r
    case Ok(value) => Ok(value)
    case Err(_) => Err(())
  }

  /** `ToolHost::plan` over the journaled broker is a `Plan` step, or none. */
  method PlanStep(host: ToolHost, broker: JournaledBroker, calls: seq<ToolCall>, inner: InnerRound, ghost w: World, ghost d: nat)
    returns (r: Result<seq<ToolHosts.Plan>, HostFailure>, ghost next: World)
    requires broker.ledger.Valid() && host.scope == broker.scope
    requires w.rows == broker.ledger.rows && w.At(d).Idle?
    modifies host, broker.ledger
    ensures broker.ledger.Valid() && next.rows == broker.ledger.rows
    ensures r.Ok? ==> Step(w, Event.Plan(d, host.scope, r.value), next) && next.At(d) == Recorded(r.value) && next.sent == w.sent
    ensures r.Ok? ==> inner.plans == Ok(r.value)
    ensures r.Err? ==> next == w
  {
    next := w;
    var answer: BrokerAnswer<seq<ToolHosts.Plan>> := Err(());
    var ids, _ := AllocateInvocationIds(host.scope, calls, host.seen);
    if ids.Ok? {
      var journaled := broker.Plan(calls, ids.value, inner.plans);
      answer := AsAnswer(journaled);
      if journaled.Ok? {
        ValidPlansMatch(host.scope, calls, journaled.value);
        next := w.(rows := broker.ledger.rows, drivers := w.drivers[d := Recorded(journaled.value)]);
      }
    }
    r := host.Plan(calls, answer);
  }

  /** `ToolHost::resolve_approvals` over it is a `Resolve` step, or the turn fails. */
  method ResolveStep(host: ToolHost, broker: JournaledBroker, planned: seq<ToolHosts.Plan>, inner: InnerRound, ghost w: World, ghost d: nat)
    returns (r: Result<seq<ToolHosts.Plan>, HostFailure>, ghost event: Event, ghost next: World)
    requires broker.ledger.Valid() && w.rows == broker.ledger.rows && w.At(d) == Recorded(planned)
    modifies broker.ledger
    ensures broker.ledger.Valid() && next.rows == broker.ledger.rows
    ensures Step(w, event, next) && next.sent == w.sent
    ensures r.Ok? ==> event == Resolve(d, r.value) && next.At(d) == Resolved(r.value) && inner.resolution == Ok(r.value)
    ensures r.Err? ==> next.At(d).Idle?
  {
    var journaled := broker.ResolveApprovals(planned, inner.resolution);
    r := host.ResolveApprovals(planned, AsAnswer(journaled));
    if journaled.Ok? {
      event := Resolve(d, journaled.value);
      next := w.(rows := broker.ledger.rows,
                 drivers := w.drivers[d := if ApprovalsResolve(planned, journaled.value) then Resolved(journaled.value) else Idle]);
    } else {
      event, next := Crash(d), w.(drivers := w.drivers[d := Idle]);
    }
  }

  /** `ToolHost::execute` over it sends the batch to the inner broker and settles it. */
  method ExecuteStep(host: ToolHost, broker: JournaledBroker, resolved: seq<ToolHosts.Plan>, inner: InnerRound, ghost w: World, ghost d: nat)
    returns (r: Result<seq<Terminal>, HostFailure>, ghost mid: World, ghost event: Event, ghost next: World)
    requires broker.ledger.Valid() && w.rows == broker.ledger.rows && w.At(d) == Resolved(resolved)
    modifies broker.ledger
    ensures broker.ledger.Valid() && next.rows == broker.ledger.rows
    ensures Step(w, Event.Execute(d), mid) && Step(mid, event, next)
    ensures next.sent == w.sent + PlanKeys(resolved) && next.At(d).Idle?
    ensures r.Ok? ==> event == Settle(d, r.value)
  {
    mid := w.(drivers := w.drivers[d := Sent(resolved)], sent := w.sent + PlanKeys(resolved));
    var journaled := broker.Execute(resolved, inner.terminals);
    r := host.Execute(resolved, AsAnswer(journaled));
    event := if inner.terminals.Ok? then Settle(d, inner.terminals.value) else Crash(d);
    next := mid.(rows := broker.ledger.rows, drivers := mid.drivers[d := Idle]);
  }

  /** One tool round of a turn is a stretch of a run: the batch is journaled, decided, sent to the
      inner broker and settled, in that order; a round that fails stops in between. */
  method JournaledRound(host: ToolHost, broker: JournaledBroker, calls: seq<ToolCall>, inner: InnerRound, ghost w: World, ghost d: nat)
    returns (r: Result<seq<Terminal>, HostFailure>, ghost worlds: seq<World>, ghost events: seq<Event>)
    requires broker.ledger.Valid() && host.scope == broker.scope
    requires w.rows == broker.ledger.rows && w.At(d).Idle?
    modifies host, broker.ledger
    ensures broker.ledger.Valid() && Trail(worlds, events)
    ensures worlds[0] == w && worlds[|events|].rows == broker.ledger.rows && worlds[|events|].At(d).Idle?
    ensures r.Ok? ==>
              && |events| == 4 && events[0].Plan? && events[1].Resolve? && events[2] == Event.Execute(d)
              && events[3] == Settle(d, r.value) && inner.plans == Ok(events[0].plans) && inner.resolution == Ok(events[1].answer)
    ensures |events| == 4 ==> events[1].Resolve? && worlds[4].sent == w.sent + PlanKeys(events[1].answer)
    ensures |events| != 4 ==> r.Err? && worlds[|events|].sent == w.sent
  {
    worlds, events := [w], [];
    var planned, afterPlan := PlanStep(host, broker, calls, inner, w, d);
    if planned.Err? { return Err(planned.error), worlds, events; }
    TrailOn(worlds, events, Event.Plan(d, host.scope, planned.value), afterPlan);
    worlds, events := [w, afterPlan], [Event.Plan(d, host.scope, planned.value)];
    var resolved, decision, afterDecision := ResolveStep(host, broker, planned.value, inner, afterPlan, d);
    TrailOn(worlds, events, decision, afterDecision);
    worlds, events := worlds + [afterDecision], events + [decision];
    if resolved.Err? { return Err(resolved.error), worlds, events; }
    var executed, sending, outcome, afterOutcome := ExecuteStep(host, broker, resolved.value, inner, afterDecision, d);
    TrailOn(worlds, events, Event.Execute(d), sending);
    TrailOn(worlds + [sending], events + [Event.Execute(d)], outcome, afterOutcome);
    worlds, events := worlds + [sending] + [afterOutcome], events + [Event.Execute(d)] + [outcome];
    r := executed;
  }

  // ---- The life of a journal row -----------------------------------------------------

  /** The frozen part never changes, a decision is made at most once and only by leaving
      `pending`, and a terminal is final. */
  predicate RowEvolves(a: Row, b: Row) {
    && b.scope == a.scope && b.callId == a.callId && b.name == a.name
    && b.arguments == a.arguments && b.effect == a.effect
    && (b.approval == a.approval
        || (a.approval.Some? && a.approval.value.decision == "pending"
            && (b.approval == Some(Decided(a.approval.value, "allow")) || b.approval == Some(Decided(a.approval.value, "deny")))))
    && (a.status.Some? ==> b == a)
  }

  ghost predicate RowsEvolve(rows: Rows, next: Rows) {
    forall key {:trigger key in next} {:trigger rows[key]} | key in rows ::
      key in next && RowEvolves(rows[key], next[key])
  }

  lemma RecordsEvolves(rows: Rows, scope: string, plans: seq<Plan>, next: Rows)
    requires MayRecord(rows, scope, plans) && Records(rows, scope, plans, next)
    ensures RowsEvolve(rows, next)
  {
    FreshKeys(rows, scope, plans);
  }

  lemma FreshKeys(rows: Rows, scope: string, plans: seq<Plan>)
    requires MayRecord(rows, scope, plans)
    ensures forall key | key in PlanKeys(plans) :: key !in rows
  {
    forall key | key in PlanKeys(plans) ensures key !in rows {
      var i :| 0 <= i < |plans| && PlanKeys(plans)[i] == key;
    }
  }

  lemma ResolvesEvolves(rows: Rows, plans: seq<Plan>, next: Rows)
    requires MayResolveAll(rows, plans) && Resolves(rows, plans, next)
    ensures RowsEvolve(rows, next)
  {
    forall key | key in rows ensures key in next && RowEvolves(rows[key], next[key]) {
      if key in PlanKeys(plans) {
        var i :| 0 <= i < |plans| && PlanKeys(plans)[i] == key;
        assert ResolvedAt(rows, plans[i], next) && MayResolve(rows, plans[i]);
      }
    }
  }

  lemma TerminatesEvolves(rows: Rows, terminals: seq<Terminal>, next: Rows)
    requires MayEndAll(rows, terminals) && Terminates(rows, terminals, next)
    ensures RowsEvolve(rows, next)
  {
    forall key | key in rows ensures key in next && RowEvolves(rows[key], next[key]) {
      if key in EndKeys(terminals) {
        var i :| 0 <= i < |terminals| && EndKeys(terminals)[i] == key;
        assert EndedAt(rows, terminals[i], next) && MayEnd(rows, terminals[i]);
      }
    }
  }

  lemma StepEvolvesRows(w: World, event: Event, next: World)
    requires Step(w, event, next)
    ensures RowsEvolve(w.rows, next.rows)
  {
    match event
    case Plan(_, scope, plans) => RecordsEvolves(w.rows, scope, plans, next.rows);
    case Resolve(d, answer) =>
      if HadPending(w.At(d).plans) { ResolvesEvolves(w.rows, answer, next.rows); }
    case Settle(_, terminals) =>
      if MayEndAll(w.rows, terminals) { TerminatesEvolves(w.rows, terminals, next.rows); }
    case _ =>
  }

  // ---- The invariant -----------------------------------------------------------------

  /** The journal holds this plan as it was frozen; `settled` also fixes its approval. */
  predicate Journaled(rows: Rows, plan: Plan, settled: bool) {
    && plan.invocationId in rows
    && var row := rows[plan.invocationId];
    && row.callId == plan.callId && row.name == plan.name
    && row.arguments == plan.arguments && row.effect == plan.effect
    && (plan.Pending() ==> !settled)
    && (!plan.Pending() ==> row.approval == plan.approval)
  }

  ghost predicate AllJournaled(rows: Rows, plans: seq<Plan>, settled: bool) {
    forall i {:trigger plans[i]} | 0 <= i < |plans| :: Journaled(rows, plans[i], settled)
  }

  ghost predicate DriverOk(rows: Rows, sent: seq<string>, driver: Driver) {
    && Distinct(PlanKeys(driver.Held()))
    && (forall key | key in PlanKeys(driver.Held()) :: key !in sent)
    && (!driver.Idle? ==> AllJournaled(rows, driver.plans, !driver.Recorded?))
  }

  ghost predicate Apart(a: Driver, b: Driver) {
    forall key | key in PlanKeys(a.Held()) :: key !in PlanKeys(b.Held())
  }

  ghost predicate Inv(w: World) {
    && Distinct(w.sent)
    && (forall key | key in w.sent :: key in w.rows)
    && (forall d {:trigger w.At(d)} :: DriverOk(w.rows, w.sent, w.At(d)))
    && (forall d, e {:trigger w.At(d), w.At(e)} | d != e :: Apart(w.At(d), w.At(e)))
  }

  lemma JournaledStays(rows: Rows, next: Rows, plans: seq<Plan>, settled: bool)
    requires RowsEvolve(rows, next) && AllJournaled(rows, plans, settled)
    ensures AllJournaled(next, plans, settled)
  {
    forall i | 0 <= i < |plans| ensures Journaled(next, plans[i], settled) {
      assert Journaled(rows, plans[i], settled);
      assert RowEvolves(rows[plans[i].invocationId], next[plans[i].invocationId]);
    }
  }

  lemma DriverStays(rows: Rows, sent: seq<string>, next: Rows, driver: Driver)
    requires RowsEvolve(rows, next) && DriverOk(rows, sent, driver)
    ensures DriverOk(next, sent, driver)
  {
    if !driver.Idle? { JournaledStays(rows, next, driver.plans, !driver.Recorded?); }
  }

  lemma HeldKeyHasRow(rows: Rows, sent: seq<string>, driver: Driver, key: string)
    requires DriverOk(rows, sent, driver) && key in PlanKeys(driver.Held())
    ensures key in rows
  {
    var i :| 0 <= i < |driver.plans| && PlanKeys(driver.plans)[i] == key;
    assert Journaled(rows, driver.plans[i], !driver.Recorded?);
  }

  /** A driver that changes only its own state keeps the invariant if its new state is sound
      and holds nothing it did not hold before. */
  lemma DriverMoves(w: World, d: nat, next: World)
    requires Inv(w) && RowsEvolve(w.rows, next.rows) && next.sent == w.sent
    requires next.drivers.Keys == w.drivers.Keys + {d}
    requires forall e | e in w.drivers && e != d :: next.drivers[e] == w.drivers[e]
    requires DriverOk(next.rows, next.sent, next.At(d))
    requires forall key | key in PlanKeys(next.At(d).Held()) :: key in PlanKeys(w.At(d).Held())
    ensures Inv(next)
  {
    forall e ensures DriverOk(next.rows, next.sent, next.At(e)) {
      if e != d {
        assert next.At(e) == w.At(e);
        DriverStays(w.rows, w.sent, next.rows, w.At(e));
      }
    }
    forall e, f | e != f ensures Apart(next.At(e), next.At(f)) {
      assert Apart(w.At(e), w.At(f)) && Apart(w.At(f), w.At(e));
      assert e != d ==> next.At(e) == w.At(e);
      assert f != d ==> next.At(f) == w.At(f);
    }
  }

  lemma PlanKeepsInv(w: World, d: nat, scope: string, plans: seq<Plan>, next: World)
    requires Inv(w) && Step(w, Event.Plan(d, scope, plans), next)
    ensures Inv(next)
  {
    RecordsEvolves(w.rows, scope, plans, next.rows);
    FreshKeys(w.rows, scope, plans);
    forall i | 0 <= i < |plans| ensures Journaled(next.rows, plans[i], false) {
      assert RecordedAt(scope, plans[i], next.rows);
    }
    assert next.At(d) == Recorded(plans) && PlanKeys(next.At(d).Held()) == PlanKeys(plans);
    forall e ensures DriverOk(next.rows, next.sent, next.At(e)) {
      if e != d {
        assert next.At(e) == w.At(e);
        DriverStays(w.rows, w.sent, next.rows, w.At(e));
      }
    }
    forall e, f | e != f ensures Apart(next.At(e), next.At(f)) {
      assert Apart(w.At(e), w.At(f)) && Apart(w.At(f), w.At(e));
      assert DriverOk(w.rows, w.sent, w.At(e)) && DriverOk(w.rows, w.sent, w.At(f));
      forall key | key in PlanKeys(next.At(e).Held()) ensures key !in PlanKeys(next.At(f).Held()) {
        if e == d {
          if key in PlanKeys(w.At(f).Held()) { HeldKeyHasRow(w.rows, w.sent, w.At(f), key); }
        } else if f == d {
          HeldKeyHasRow(w.rows, w.sent, w.At(e), key);
        }
      }
    }
  }

  lemma ResolvedIsJournaled(w: World, d: nat, answer: seq<Plan>, next: World)
    requires Inv(w) && Step(w, Resolve(d, answer), next)
    requires ApprovalsResolve(w.At(d).plans, answer)
    ensures AllJournaled(next.rows, answer, true)
    ensures PlanKeys(answer) == PlanKeys(w.At(d).plans)
  {
    var plans := w.At(d).plans;
    assert DriverOk(w.rows, w.sent, w.At(d));
    StepEvolvesRows(w, Resolve(d, answer), next);
    forall i | 0 <= i < |answer| ensures Journaled(next.rows, answer[i], true) {
      assert Journaled(w.rows, plans[i], false);
      assert FrozenAlike(plans[i], answer[i]) && ApprovalStep(plans[i].approval, answer[i].approval);
      assert RowEvolves(w.rows[plans[i].invocationId], next.rows[plans[i].invocationId]);
      if HadPending(plans) {
        assert ResolvedAt(w.rows, answer[i], next.rows);
      } else {
        assert !plans[i].Pending();
      }
    }
  }

  lemma ResolveKeepsInv(w: World, d: nat, answer: seq<Plan>, next: World)
    requires Inv(w) && Step(w, Resolve(d, answer), next)
    ensures Inv(next)
  {
    StepEvolvesRows(w, Resolve(d, answer), next);
    assert DriverOk(w.rows, w.sent, w.At(d));
    if ApprovalsResolve(w.At(d).plans, answer) {
      ResolvedIsJournaled(w, d, answer, next);
    }
    DriverMoves(w, d, next);
  }

  lemma ExecuteKeepsInv(w: World, d: nat, next: World)
    requires Inv(w) && Step(w, Execute(d), next)
    ensures Inv(next)
  {
    var keys := PlanKeys(w.At(d).plans);
    assert DriverOk(w.rows, w.sent, w.At(d)) && keys == PlanKeys(w.At(d).Held());
    forall key | key in keys ensures key in w.rows {
      HeldKeyHasRow(w.rows, w.sent, w.At(d), key);
    }
    DistinctAppend(w.sent, keys);
    assert next.At(d) == Sent(w.At(d).plans);
    forall e ensures DriverOk(next.rows, next.sent, next.At(e)) {
      if e != d {
        assert next.At(e) == w.At(e);
        assert Apart(w.At(e), w.At(d));
      }
    }
    forall e, f | e != f ensures Apart(next.At(e), next.At(f)) {
      assert Apart(w.At(e), w.At(f));
      assert e != d ==> next.At(e) == w.At(e);
      assert f != d ==> next.At(f) == w.At(f);
    }
  }

  lemma StepKeepsInv(w: World, event: Event, next: World)
    requires Inv(w) && Step(w, event, next)
    ensures Inv(next)
  {
    StepEvolvesRows(w, event, next);
    match event
    case Plan(d, scope, plans) => PlanKeepsInv(w, d, scope, plans, next);
    case Resolve(d, answer) => ResolveKeepsInv(w, d, answer, next);
    case Execute(d) => ExecuteKeepsInv(w, d, next);
    case Settle(d, _) => DriverMoves(w, d, next);
    case Crash(d) => DriverMoves(w, d, next);
  }

  // ---- Runs --------------------------------------------------------------------------

  /** Turns start idle, over a journal that may already hold rows of earlier processes. */
  ghost predicate Initial(w: World) {
    w.drivers == map[] && w.sent == []
  }

  ghost predicate StepAt(worlds: seq<World>, events: seq<Event>, i: int) {
    0 <= i < |events| && i + 1 < |worlds| && Step(worlds[i], events[i], worlds[i + 1])
  }

  ghost predicate Run(worlds: seq<World>, events: seq<Event>) {
    && |worlds| == |events| + 1
    && Initial(worlds[0])
    && forall i {:trigger StepAt(worlds, events, i)} :: 0 <= i < |events| ==> StepAt(worlds, events, i)
  }

  lemma {:induction false} RunKeepsInv(worlds: seq<World>, events: seq<Event>, i: nat)
    requires Run(worlds, events) && i < |worlds|
    ensures Inv(worlds[i])
  {
    if i > 0 {
      RunKeepsInv(worlds, events, i - 1);
      assert StepAt(worlds, events, i - 1);
      StepKeepsInv(worlds[i - 1], events[i - 1], worlds[i]);
    }
  }

  /** However many turns run, crash and retry, no execution key reaches the inner broker twice. */
  lemma DispatchedAtMostOnce(worlds: seq<World>, events: seq<Event>, i: nat)
    requires Run(worlds, events) && i < |worlds|
    ensures Distinct(worlds[i].sent)
  {
    RunKeepsInv(worlds, events, i);
  }

  /** What reaches the inner broker is already journaled, with the same call, arguments and
      effect, under a decision that was made and stored before. */
  lemma DispatchIsWrittenAhead(worlds: seq<World>, events: seq<Event>, i: nat, p: nat)
    requires Run(worlds, events) && i < |events| && events[i].Execute?
    requires p < |worlds[i].At(events[i].driver).Held()|
    ensures var plan := worlds[i].At(events[i].driver).Held()[p];
            && Journaled(worlds[i].rows, plan, true)
            && !plan.Pending()
            && plan.invocationId !in worlds[i].sent
            && worlds[i].rows[plan.invocationId].approval == plan.approval
  {
    RunKeepsInv(worlds, events, i);
    assert StepAt(worlds, events, i);
    var driver := worlds[i].At(events[i].driver);
    assert DriverOk(worlds[i].rows, worlds[i].sent, driver);
    assert PlanKeys(driver.Held())[p] in PlanKeys(driver.Held());
  }

  lemma EvolvesTransitively(a: Row, b: Row, c: Row)
    requires RowEvolves(a, b) && RowEvolves(b, c)
    ensures RowEvolves(a, c)
  {
  }

  /** Journal rows are never lost; they change only from pending to decided and from planned
      to terminal, once each. */
  lemma {:induction false} RowsEvolveOverRun(worlds: seq<World>, events: seq<Event>, i: nat, j: nat, key: string)
    requires Run(worlds, events) && i <= j < |worlds| && key in worlds[i].rows
    ensures key in worlds[j].rows && RowEvolves(worlds[i].rows[key], worlds[j].rows[key])
    decreases j
  {
    if i < j {
      RowsEvolveOverRun(worlds, events, i, j - 1, key);
      assert StepAt(worlds, events, j - 1);
      StepEvolvesRows(worlds[j - 1], events[j - 1], worlds[j]);
      EvolvesTransitively(worlds[i].rows[key], worlds[j - 1].rows[key], worlds[j].rows[key]);
    }
  }
}
