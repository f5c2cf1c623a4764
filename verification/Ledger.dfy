/** The durable tool-effect journal of `apps/hermesd/src/adapters/sqlite.rs:339-644`.

    Every batch operation first checks all its rows and only then writes them. The write pass
    re-tests each row; the contracts show that this second test can never fail. */
module Ledger {
  import opened Basics
  import opened Conversations
  import opened ToolHosts

  /** One `tool_effects` row; `status` is `None` while the row reads `planned`. */
  datatype Row = Row(
    scope: string, callId: string, name: string, arguments: Arguments, effect: Effect,
    approval: Option<Approval>, status: Option<ToolStatus>, content: Option<string>, receipt: Option<string>)

  type Rows = map<string, Row>

  /** The CHECK clause of the table. */
  predicate RowCheck(row: Row) {
    row.status.None? <==> row.content.None?
  }

  ghost predicate RowsOk(rows: Rows) {
    forall key | key in rows :: RowCheck(rows[key])
  }

  datatype LedgerError =
    | AlreadyRecorded(key: string)
    | MissingPlan(key: string)
    | AlreadyTerminal(key: string)
    | PlanMismatch(key: string)
    | Invalid

  // ---- What the operations mean ------------------------------------------------------

  function PlannedRow(scope: string, plan: Plan): Row {
    Row(scope, plan.callId, plan.name, plan.arguments, plan.effect, plan.approval, None, None, None)
  }

  datatype PendingEffect = PendingEffect(scope: string, plan: Plan)

  function PendingOf(key: string, row: Row): PendingEffect {
    PendingEffect(row.scope, ToolHosts.Plan(row.callId, row.name, row.arguments, key, row.effect, row.approval))
  }

  ghost predicate MayRecord(rows: Rows, scope: string, plans: seq<Plan>) {
    && scope != "" && plans != []
    && Distinct(PlanKeys(plans))
    && forall i :: 0 <= i < |plans| ==> plans[i].invocationId !in rows
  }

  ghost predicate KeepsOthers(rows: Rows, keys: seq<string>, next: Rows) {
    forall key | key in rows && key !in keys :: key in next && next[key] == rows[key]
  }

  /** The batch appears as planned rows; nothing else changes. */
  ghost predicate Records(rows: Rows, scope: string, plans: seq<Plan>, next: Rows) {
    && next.Keys == rows.Keys + Elements(PlanKeys(plans))
    && KeepsOthers(rows, PlanKeys(plans), next)
    && forall i :: 0 <= i < |plans| ==> RecordedAt(scope, plans[i], next)
  }

  predicate RecordedAt(scope: string, plan: Plan, next: Rows) {
    plan.invocationId in next && next[plan.invocationId] == PlannedRow(scope, plan)
  }

  /** The recorded plan is still open, is the presented one, and its approval may so change. */
  predicate MayResolve(rows: Rows, plan: Plan) {
    && plan.invocationId in rows
    && var row := rows[plan.invocationId];
    && row.status.None?
    && row.callId == plan.callId && row.name == plan.name
    && row.arguments == plan.arguments && row.effect == plan.effect
    && ApprovalStep(row.approval, plan.approval)
  }

  ghost predicate MayResolveAll(rows: Rows, plans: seq<Plan>) {
    && plans != [] && Distinct(PlanKeys(plans))
    && forall i :: 0 <= i < |plans| ==> MayResolve(rows, plans[i])
  }

  /** Each row of the batch carries the presented approval; nothing else changes. */
  ghost predicate Resolves(rows: Rows, plans: seq<Plan>, next: Rows) {
    && next.Keys == rows.Keys
    && KeepsOthers(rows, PlanKeys(plans), next)
    && forall i :: 0 <= i < |plans| ==> ResolvedAt(rows, plans[i], next)
  }

  predicate ResolvedAt(rows: Rows, plan: Plan, next: Rows) {
    && plan.invocationId in rows && plan.invocationId in next
    && next[plan.invocationId] == rows[plan.invocationId].(approval := plan.approval)
  }

  predicate MayEnd(rows: Rows, terminal: Terminal) {
    && terminal.invocationId in rows
    && var row := rows[terminal.invocationId];
    && row.status.None?
    && row.callId == terminal.callId && row.name == terminal.name && row.effect == terminal.effect
  }

  ghost predicate MayEndAll(rows: Rows, terminals: seq<Terminal>) {
    && terminals != [] && Distinct(EndKeys(terminals))
    && forall i :: 0 <= i < |terminals| ==> MayEnd(rows, terminals[i])
  }

  function EndedRow(row: Row, terminal: Terminal): Row {
    row.(status := Some(terminal.status), content := Some(terminal.content), receipt := terminal.receipt)
  }

  /** The row ends with what its own terminal says, and its plan stands as recorded. */
  predicate Carries(rows: Rows, terminal: Terminal, next: Rows) {
    && terminal.invocationId in rows && terminal.invocationId in next
    && var before, after := rows[terminal.invocationId], next[terminal.invocationId];
       && after.status == Some(terminal.status) && after.content == Some(terminal.content) && after.receipt == terminal.receipt
       && after.callId == terminal.callId == before.callId && after.name == terminal.name == before.name
       && after.effect == terminal.effect == before.effect
       && after.scope == before.scope && after.arguments == before.arguments && after.approval == before.approval
  }

  ghost predicate Terminates(rows: Rows, terminals: seq<Terminal>, next: Rows) {
    && next.Keys == rows.Keys
    && KeepsOthers(rows, EndKeys(terminals), next)
    && forall i :: 0 <= i < |terminals| ==> EndedAt(rows, terminals[i], next)
  }

  predicate EndedAt(rows: Rows, terminal: Terminal, next: Rows) {
    && terminal.invocationId in rows && terminal.invocationId in next
    && next[terminal.invocationId] == EndedRow(rows[terminal.invocationId], terminal)
  }

  /** The recorded row is open, and what is pending under its key is this plan, under this scope. */
  predicate ReadsBack(scope: string, plan: Plan, rows: Rows) {
    && plan.invocationId in rows && rows[plan.invocationId].status.None?
    && PendingOf(plan.invocationId, rows[plan.invocationId]) == PendingEffect(scope, plan)
  }

  // ---- The write passes, one row at a time -------------------------------------------

  lemma RecordsSnoc(rows: Rows, scope: string, plans: seq<Plan>, mid: Rows, plan: Plan)
    requires Records(rows, scope, plans, mid)
    requires plan.invocationId !in rows && plan.invocationId !in PlanKeys(plans)
    ensures Records(rows, scope, plans + [plan], mid[plan.invocationId := PlannedRow(scope, plan)])
  {
    var more := plans + [plan];
    var next := mid[plan.invocationId := PlannedRow(scope, plan)];
    assert PlanKeys(more) == PlanKeys(plans) + [plan.invocationId];
    assert Elements(PlanKeys(more)) == Elements(PlanKeys(plans)) + {plan.invocationId};
    forall i | 0 <= i < |more| ensures RecordedAt(scope, more[i], next) {
      if i < |plans| {
        assert RecordedAt(scope, plans[i], mid) && PlanKeys(plans)[i] == plans[i].invocationId;
      }
    }
  }

  lemma ResolvesSnoc(rows: Rows, plans: seq<Plan>, mid: Rows, plan: Plan)
    requires Resolves(rows, plans, mid)
    requires plan.invocationId in rows && plan.invocationId !in PlanKeys(plans)
    ensures plan.invocationId in mid && mid[plan.invocationId] == rows[plan.invocationId]
    ensures Resolves(rows, plans + [plan], mid[plan.invocationId := rows[plan.invocationId].(approval := plan.approval)])
  {
    var more := plans + [plan];
    var next := mid[plan.invocationId := rows[plan.invocationId].(approval := plan.approval)];
    assert PlanKeys(more) == PlanKeys(plans) + [plan.invocationId];
    forall i | 0 <= i < |more| ensures ResolvedAt(rows, more[i], next) {
      if i < |plans| {
        assert ResolvedAt(rows, plans[i], mid) && PlanKeys(plans)[i] == plans[i].invocationId;
      }
    }
  }

  lemma TerminatesSnoc(rows: Rows, terminals: seq<Terminal>, mid: Rows, terminal: Terminal)
    requires Terminates(rows, terminals, mid)
    requires terminal.invocationId in rows && terminal.invocationId !in EndKeys(terminals)
    ensures terminal.invocationId in mid && mid[terminal.invocationId] == rows[terminal.invocationId]
    ensures Terminates(rows, terminals + [terminal],
                       mid[terminal.invocationId := EndedRow(rows[terminal.invocationId], terminal)])
  {
    var more := terminals + [terminal];
    var next := mid[terminal.invocationId := EndedRow(rows[terminal.invocationId], terminal)];
    assert EndKeys(more) == EndKeys(terminals) + [terminal.invocationId];
    forall i | 0 <= i < |more| ensures EndedAt(rows, more[i], next) {
      if i < |terminals| {
        assert EndedAt(rows, terminals[i], mid) && EndKeys(terminals)[i] == terminals[i].invocationId;
      }
    }
  }

  lemma KeyIsNew(keys: seq<string>, i: nat)
    requires Distinct(keys) && i < |keys|
    ensures keys[i] !in keys[..i]
  {
  }

  /** The duplicate check: a set that fills up while the batch is scanned. */
  method AllDistinct(keys: seq<string>) returns (ok: bool)
    ensures ok <==> Distinct(keys)
  {
    var seen: set<string> := {};
    for i := 0 to |keys|
      invariant seen == Elements(keys[..i])
      invariant Distinct(keys[..i])
    {
      assert keys[..i + 1] == keys[..i] + [keys[i]];
      if keys[i] in seen {
        var j :| 0 <= j < i && keys[j] == keys[i];
        return false;
      }
      seen := seen + {keys[i]};
    }
    assert keys[..|keys|] == keys;
    return true;
  }

  /** The pending updates collected by the check pass: the plans whose approval was pending. */
  ghost predicate Changes(rows: Rows, plans: seq<Plan>, updates: seq<Plan>) {
    && (forall plan :: plan in updates ==> plan in plans)
    && (forall plan :: plan in plans && plan !in updates ==>
          plan.invocationId in rows && rows[plan.invocationId].approval == plan.approval)
    && |updates| <= |plans|
    && (Distinct(PlanKeys(plans)) ==> Distinct(PlanKeys(updates)))
  }

  lemma ChangesPending(rows: Rows, plans: seq<Plan>, updates: seq<Plan>, plan: Plan)
    requires Changes(rows, plans, updates) && plan.invocationId !in PlanKeys(plans)
    ensures Changes(rows, plans + [plan], updates + [plan])
  {
    var more := plans + [plan];
    assert PlanKeys(updates + [plan]) == PlanKeys(updates) + [plan.invocationId];
    assert PlanKeys(more)[..|plans|] == PlanKeys(plans);
    forall i | 0 <= i < |updates| ensures updates[i].invocationId != plan.invocationId {
      assert updates[i] in plans;
      var k :| 0 <= k < |plans| && plans[k] == updates[i];
      assert PlanKeys(plans)[k] == updates[i].invocationId;
    }
  }

  lemma UpdatesAreDistinct(rows: Rows, plans: seq<Plan>, updates: seq<Plan>)
    requires Changes(rows, plans, updates) && Distinct(PlanKeys(plans))
    requires forall j :: 0 <= j < |plans| ==> MayResolve(rows, plans[j])
    ensures Distinct(PlanKeys(updates))
    ensures forall plan :: plan in updates ==> MayResolve(rows, plan)
  {
  }

  lemma UnchangedNeedNoWrite(rows: Rows, plans: seq<Plan>, updates: seq<Plan>, next: Rows)
    requires Changes(rows, plans, updates) && Distinct(PlanKeys(plans))
    requires Resolves(rows, updates, next)
    ensures Resolves(rows, plans, next)
  {
    forall i | 0 <= i < |plans| ensures ResolvedAt(rows, plans[i], next) {
      if plans[i] in updates {
        var k :| 0 <= k < |updates| && updates[k] == plans[i];
        assert ResolvedAt(rows, updates[k], next);
      } else {
        KeyOutside(plans, updates, i);
      }
    }
    forall key | key in rows && key !in PlanKeys(plans) ensures key in next && next[key] == rows[key] {
      if key in PlanKeys(updates) {
        var k :| 0 <= k < |updates| && PlanKeys(updates)[k] == key;
        assert updates[k] in plans;
        InPlans(plans, updates[k]);
      }
    }
  }

  lemma InPlans(plans: seq<Plan>, plan: Plan)
    requires plan in plans
    ensures plan.invocationId in PlanKeys(plans)
  {
    var j :| 0 <= j < |plans| && plans[j] == plan;
    assert PlanKeys(plans)[j] == plan.invocationId;
  }

  lemma KeyOutside(plans: seq<Plan>, updates: seq<Plan>, i: nat)
    requires i < |plans| && plans[i] !in updates && Distinct(PlanKeys(plans))
    requires forall plan :: plan in updates ==> plan in plans
    ensures plans[i].invocationId !in PlanKeys(updates)
  {
    forall k | 0 <= k < |updates| ensures updates[k].invocationId != plans[i].invocationId {
      assert updates[k] in plans;
      var j :| 0 <= j < |plans| && plans[j] == updates[k];
      assert PlanKeys(plans)[j] == updates[k].invocationId && PlanKeys(plans)[i] == plans[i].invocationId;
    }
  }

  // ---- The batch transactions --------------------------------------------------------

  method PlanBatch(rows: Rows, scope: string, plans: seq<Plan>) returns (r: Result<Rows, LedgerError>)
    requires RowsOk(rows)
    ensures r.Ok? <==> MayRecord(rows, scope, plans)
    ensures r.Ok? ==> Records(rows, scope, plans, r.value) && RowsOk(r.value)
    ensures r.Ok? ==> forall i :: 0 <= i < |plans| ==> ReadsBack(scope, plans[i], r.value)
    ensures r.Err? && r.error.AlreadyRecorded? ==> r.error.key in rows
  {
    if scope == "" || plans == [] { return Err(Invalid); }
    var distinct := AllDistinct(PlanKeys(plans));
    if !distinct { return Err(Invalid); }
    for i := 0 to |plans|
      invariant forall j :: 0 <= j < i ==> plans[j].invocationId !in rows
    {
      if plans[i].invocationId in rows { return Err(AlreadyRecorded(plans[i].invocationId)); }
    }
    var tx := rows;
    assert PlanKeys(plans[..0]) == [];
    for i := 0 to |plans|
      invariant Records(rows, scope, plans[..i], tx) && RowsOk(tx)
    {
      assert plans[..i + 1] == plans[..i] + [plans[i]];
      assert PlanKeys(plans)[..i] == PlanKeys(plans[..i]);
      KeyIsNew(PlanKeys(plans), i);
      RecordsSnoc(rows, scope, plans[..i], tx, plans[i]);
      tx := tx[plans[i].invocationId := PlannedRow(scope, plans[i])];
    }
    assert plans[..|plans|] == plans;
    forall i | 0 <= i < |plans| ensures ReadsBack(scope, plans[i], tx) {
      assert RecordedAt(scope, plans[i], tx);
    }
    return Ok(tx);
  }

  /** The check of one resolved plan; says whether its stored approval has to be rewritten. */
  method CheckResolved(rows: Rows, plan: Plan) returns (r: Result<bool, LedgerError>)
    ensures r.Ok? <==> MayResolve(rows, plan)
    ensures r == Ok(false) ==> rows[plan.invocationId].approval == plan.approval
    ensures r.Err? && r.error.MissingPlan? ==> r.error.key !in rows
    ensures r.Err? && r.error.AlreadyTerminal? ==> r.error.key in rows && rows[r.error.key].status.Some?
  {
    if plan.invocationId !in rows { return Err(MissingPlan(plan.invocationId)); }
    var recorded := rows[plan.invocationId];
    if recorded.status.Some? { return Err(AlreadyTerminal(plan.invocationId)); }
    if recorded.callId != plan.callId || recorded.name != plan.name
       || recorded.arguments != plan.arguments || recorded.effect != plan.effect
    {
      return Err(PlanMismatch(plan.invocationId));
    }
    if recorded.approval.Some? && plan.approval.Some? && recorded.approval.value.Pending() {
      var before, after := recorded.approval.value, plan.approval.value;
      if after.Pending() || (after.decision != "allow" && after.decision != "deny")
         || before.required != after.required || before.principal != after.principal
      {
        return Err(PlanMismatch(plan.invocationId));
      }
      return Ok(true);
    }
    if recorded.approval != plan.approval { return Err(PlanMismatch(plan.invocationId)); }
    return Ok(false);
  }

  /** The check pass of `record_approvals`; collects the rows to rewrite. */
  method CheckApprovals(rows: Rows, plans: seq<Plan>) returns (r: Result<seq<Plan>, LedgerError>)
    ensures r.Ok? <==> MayResolveAll(rows, plans)
    ensures r.Ok? ==> Changes(rows, plans, r.value)
    ensures r.Err? && r.error.MissingPlan? ==> r.error.key !in rows
  {
    if plans == [] { return Err(Invalid); }
    var updates: seq<Plan> := [];
    var seen: set<string> := {};
    for i := 0 to |plans|
      invariant seen == Elements(PlanKeys(plans[..i]))
      invariant Distinct(PlanKeys(plans[..i]))
      invariant forall j :: 0 <= j < i ==> MayResolve(rows, plans[j])
      invariant Changes(rows, plans[..i], updates)
    {
      var plan := plans[i];
      assert plans[..i + 1] == plans[..i] + [plan];
      assert PlanKeys(plans[..i + 1]) == PlanKeys(plans[..i]) + [plan.invocationId];
      if plan.invocationId in seen {
        RepeatedKey(plans, i);
        return Err(Invalid);
      }
      seen := seen + {plan.invocationId};
      var rewrite :- CheckResolved(rows, plan);
      if rewrite {
        ChangesPending(rows, plans[..i], updates, plan);
        updates := updates + [plan];
      }
    }
    assert plans[..|plans|] == plans;
    return Ok(updates);
  }

  lemma RepeatedKey(plans: seq<Plan>, i: nat)
    requires i < |plans| && plans[i].invocationId in PlanKeys(plans[..i])
    ensures !Distinct(PlanKeys(plans))
  {
    var j :| 0 <= j < i && PlanKeys(plans[..i])[j] == plans[i].invocationId;
    assert PlanKeys(plans)[j] == PlanKeys(plans)[i];
  }

  method ApprovalBatch(rows: Rows, plans: seq<Plan>) returns (r: Result<Rows, LedgerError>)
    requires RowsOk(rows)
    ensures r.Ok? <==> MayResolveAll(rows, plans)
    ensures r.Ok? ==> Resolves(rows, plans, r.value) && RowsOk(r.value)
    ensures r.Err? && r.error.MissingPlan? ==> r.error.key !in rows
  {
    var updates :- CheckApprovals(rows, plans);
    UpdatesAreDistinct(rows, plans, updates);
    var tx := rows;
    assert PlanKeys(updates[..0]) == [];
    for i := 0 to |updates|
      invariant Resolves(rows, updates[..i], tx) && RowsOk(tx)
    {
      var key := updates[i].invocationId;
      assert updates[..i + 1] == updates[..i] + [updates[i]];
      assert PlanKeys(updates)[..i] == PlanKeys(updates[..i]);
      KeyIsNew(PlanKeys(updates), i);
      assert updates[i] in updates;
      ResolvesSnoc(rows, updates[..i], tx, updates[i]);
      if key !in tx || tx[key].status.Some? { return Err(Invalid); }
      tx := tx[key := tx[key].(approval := updates[i].approval)];
    }
    assert updates[..|updates|] == updates;
    UnchangedNeedNoWrite(rows, plans, updates, tx);
    return Ok(tx);
  }

  method TerminalBatch(rows: Rows, terminals: seq<Terminal>) returns (r: Result<Rows, LedgerError>)
    requires RowsOk(rows)
    ensures r.Ok? <==> MayEndAll(rows, terminals)
    ensures r.Ok? ==> Terminates(rows, terminals, r.value) && RowsOk(r.value)
    ensures r.Ok? ==> forall i :: 0 <= i < |terminals| ==> Carries(rows, terminals[i], r.value)
    ensures r.Err? && r.error.MissingPlan? ==> r.error.key !in rows
    ensures r.Err? && r.error.AlreadyTerminal? ==> r.error.key in rows && rows[r.error.key].status.Some?
  {
    if terminals == [] { return Err(Invalid); }
    var distinct := AllDistinct(EndKeys(terminals));
    if !distinct { return Err(Invalid); }
    for i := 0 to |terminals|
      invariant forall j :: 0 <= j < i ==> MayEnd(rows, terminals[j])
    {
      var terminal := terminals[i];
      if terminal.invocationId !in rows { return Err(MissingPlan(terminal.invocationId)); }
      var recorded := rows[terminal.invocationId];
      if recorded.status.Some? { return Err(AlreadyTerminal(terminal.invocationId)); }
      if recorded.callId != terminal.callId || recorded.name != terminal.name || recorded.effect != terminal.effect {
        return Err(PlanMismatch(terminal.invocationId));
      }
    }
    var tx := rows;
    for i := 0 to |terminals|
      invariant Terminates(rows, terminals[..i], tx) && RowsOk(tx)
    {
      var key := terminals[i].invocationId;
      assert terminals[..i + 1] == terminals[..i] + [terminals[i]];
      assert EndKeys(terminals)[..i] == EndKeys(terminals[..i]);
      KeyIsNew(EndKeys(terminals), i);
      assert MayEnd(rows, terminals[i]);
      TerminatesSnoc(rows, terminals[..i], tx, terminals[i]);
      if key !in tx || tx[key].status.Some? { return Err(Invalid); }
      tx := tx[key := EndedRow(tx[key], terminals[i])];
    }
    assert terminals[..|terminals|] == terminals;
    forall i | 0 <= i < |terminals| ensures Carries(rows, terminals[i], tx) {
      assert MayEnd(rows, terminals[i]) && EndedAt(rows, terminals[i], tx);
    }
    return Ok(tx);
  }

  class EffectLedger {
    var rows: Rows

    ghost predicate Valid()
      reads this
    {
      RowsOk(rows)
    }

    constructor ()
      ensures Valid() && rows == map[]
    {
      rows := map[];
    }

    method RecordPlans(scope: string, plans: seq<Plan>) returns (r: Result<(), LedgerError>)
      requires Valid()
      modifies this
      ensures Valid()
      ensures r.Ok? <==> MayRecord(old(rows), scope, plans)
      ensures if r.Ok? then Records(old(rows), scope, plans, rows) else rows == old(rows)
    {
      var tx :- PlanBatch(rows, scope, plans);
      rows := tx;
      return Ok(());
    }

    method RecordApprovals(plans: seq<Plan>) returns (r: Result<(), LedgerError>)
      requires Valid()
      modifies this
      ensures Valid()
      ensures r.Ok? <==> MayResolveAll(old(rows), plans)
      ensures if r.Ok? then Resolves(old(rows), plans, rows) else rows == old(rows)
    {
      var tx :- ApprovalBatch(rows, plans);
      rows := tx;
      return Ok(());
    }

    method RecordTerminals(terminals: seq<Terminal>) returns (r: Result<(), LedgerError>)
      requires Valid()
      modifies this
      ensures Valid()
      ensures r.Ok? <==> MayEndAll(old(rows), terminals)
      ensures if r.Ok? then Terminates(old(rows), terminals, rows) else rows == old(rows)
    {
      var tx :- TerminalBatch(rows, terminals);
      rows := tx;
      return Ok(());
    }

    /** `pending`: the recorded plans without a terminal, each with its scope, none twice. */
    method Pending() returns (effects: seq<PendingEffect>)
      ensures forall effect :: effect in effects <==>
                var key := effect.plan.invocationId;
                key in rows && rows[key].status.None? && effect == PendingOf(key, rows[key])
      ensures Distinct(effects)
    {
      effects := [];
      var left := rows.Keys;
      while left != {}
        invariant left <= rows.Keys && Distinct(effects)
        invariant forall effect :: effect in effects <==>
                    var key := effect.plan.invocationId;
                    key in rows && key !in left && rows[key].status.None? && effect == PendingOf(key, rows[key])
        decreases |left|
      {
        var key :| key in left;
        left := left - {key};
        if rows[key].status.None? {
          effects := effects + [PendingOf(key, rows[key])];
        }
      }
    }
  }
}
