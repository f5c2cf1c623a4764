/** The kernel-owned tool boundary of `crates/runtime/src/lib.rs`: invocation identities,
    frozen plans, approvals and terminals. The broker behind it is arbitrary: every answer
    it could give is a parameter. */
module ToolHosts {
  import opened Basics
  import opened Conversations

  datatype Effect = ReadOnly | ModelInference | LocalMutation | ExternalMutation | ProcessControl | CredentialUse

  datatype Approval = Approval(required: bool, decision: string, principal: string) {
    predicate Denied() { decision == "deny" }
    predicate Pending() { decision == "pending" }
  }

  datatype Plan = Plan(callId: string, name: string, arguments: Arguments, invocationId: string,
                       effect: Effect, approval: Option<Approval>)
  {
    predicate Denied() { approval.Some? && approval.value.Denied() }
    predicate Pending() { approval.Some? && approval.value.Pending() }
  }

  datatype Terminal = Terminal(callId: string, name: string, status: ToolStatus, content: string,
                               invocationId: string, effect: Effect, receipt: Option<string>)

  datatype HostFailure =
    | InvalidInvocationId
    | ReusedCallId(callId: string)
    | BrokerFailed
    | PlansChanged
    | ApprovalsChanged
    | TerminalsChanged
    | NoTerminalOutcome

  type BrokerAnswer<T> = Result<T, ()>

  // ----- Invocation identities -----

  function InvocationId(scope: string, callId: string): string {
    scope + ":" + callId
  }

  lemma InvocationIdIsInjective(scope: string, a: string, b: string)
    requires InvocationId(scope, a) == InvocationId(scope, b)
    ensures a == b
  {
    assert a == InvocationId(scope, a)[|scope| + 1..];
    assert b == InvocationId(scope, b)[|scope| + 1..];
  }

  function InvocationIds(scope: string, calls: seq<ToolCall>): (ids: seq<string>)
    ensures |ids| == |calls|
  {
    seq(|calls|, i requires 0 <= i < |calls| => InvocationId(scope, calls[i].id))
  }

  /** Every call gets a valid identity that was not issued before, in this batch or an earlier one. */
  ghost predicate Issuable(scope: string, calls: seq<ToolCall>, seen: set<string>) {
    && (forall i :: 0 <= i < |calls| ==> ValidId(InvocationId(scope, calls[i].id)) && InvocationId(scope, calls[i].id) !in seen)
    && Distinct(InvocationIds(scope, calls))
  }

  lemma IssuedCallsAreDistinct(scope: string, calls: seq<ToolCall>, seen: set<string>)
    requires Issuable(scope, calls, seen)
    ensures Distinct(CallIds(calls))
  {
    forall i, j | 0 <= i < j < |calls| ensures calls[i].id != calls[j].id {
      assert InvocationIds(scope, calls)[i] != InvocationIds(scope, calls)[j];
    }
  }

  method AllocateInvocationIds(scope: string, calls: seq<ToolCall>, issued: set<string>)
    returns (r: Result<seq<string>, HostFailure>, seen: set<string>)
    ensures r.Ok? <==> Issuable(scope, calls, issued)
    ensures r.Err? ==> r.error.InvalidInvocationId? || r.error.ReusedCallId?
    ensures r.Ok? ==> r.value == InvocationIds(scope, calls) && seen == issued + Elements(InvocationIds(scope, calls))
  {
    seen := issued;
    var ids: seq<string> := [];
    for i := 0 to |calls|
      invariant ids == InvocationIds(scope, calls[..i])
      invariant seen == issued + Elements(ids)
      invariant forall j :: 0 <= j < i ==> ValidId(ids[j]) && ids[j] !in issued
      invariant Distinct(ids)
    {
      var id := InvocationId(scope, calls[i].id);
      assert InvocationIds(scope, calls)[i] == id;
      if !ValidId(id) {
        return Err(InvalidInvocationId), seen;
      }
      if id in seen {
        assert id in issued || exists j :: 0 <= j < i && ids[j] == id == InvocationIds(scope, calls)[j];
        return Err(ReusedCallId(calls[i].id)), seen;
      }
      seen := seen + {id};
      ids := ids + [id];
    }
    assert calls[..|calls|] == calls;
    assert forall i :: 0 <= i < |calls| ==> ids[i] == InvocationId(scope, calls[i].id);
    return Ok(ids), seen;
  }

  // ----- Plans -----

  /** The plans keep the kernel's identities and the model's call order. */
  ghost predicate PlansMatch(scope: string, calls: seq<ToolCall>, plans: seq<Plan>) {
    && |plans| == |calls|
    && forall i :: 0 <= i < |calls| ==>
         plans[i].callId == calls[i].id && plans[i].invocationId == InvocationId(scope, calls[i].id)
  }

  function PlanIds(plans: seq<Plan>): (ids: seq<string>) {
    seq(|plans|, i requires 0 <= i < |plans| => plans[i].callId)
  }

  function PlanKeys(plans: seq<Plan>): (ids: seq<string>) {
    seq(|plans|, i requires 0 <= i < |plans| => plans[i].invocationId)
  }

  /** `validate_plans`. */
  predicate ValidPlans(calls: seq<ToolCall>, ids: seq<string>, plans: seq<Plan>) {
    CallIds(calls) == PlanIds(plans) && ids == PlanKeys(plans)
  }

  lemma ValidPlansMatch(scope: string, calls: seq<ToolCall>, plans: seq<Plan>)
    ensures ValidPlans(calls, InvocationIds(scope, calls), plans) <==> PlansMatch(scope, calls, plans)
  {
    if ValidPlans(calls, InvocationIds(scope, calls), plans) {
      assert |plans| == |PlanIds(plans)| == |CallIds(calls)|;
      forall i | 0 <= i < |calls|
        ensures plans[i].callId == calls[i].id && plans[i].invocationId == InvocationId(scope, calls[i].id)
      {
        assert CallIds(calls)[i] == PlanIds(plans)[i];
        assert InvocationIds(scope, calls)[i] == PlanKeys(plans)[i];
      }
    }
  }

  // ----- Approvals -----

  predicate FrozenAlike(before: Plan, after: Plan) {
    && before.callId == after.callId && before.name == after.name && before.arguments == after.arguments
    && before.invocationId == after.invocationId && before.effect == after.effect
  }

  /** A pending approval becomes allow or deny for the same principal; anything else stays put. */
  predicate ApprovalStep(before: Option<Approval>, after: Option<Approval>) {
    match (before, after)
    case (None, None) => true
    case (Some(b), Some(a)) =>
      if b.Pending() then
        && !a.Pending() && (a.decision == "allow" || a.decision == "deny")
        && b.required == a.required && b.principal == a.principal
      else b == a
    case _ => false
  }

  ghost predicate ApprovalsResolve(planned: seq<Plan>, resolved: seq<Plan>) {
    && |planned| == |resolved|
    && forall i :: 0 <= i < |planned| ==>
         FrozenAlike(planned[i], resolved[i]) && ApprovalStep(planned[i].approval, resolved[i].approval)
  }

  method ValidateApprovalResolution(planned: seq<Plan>, resolved: seq<Plan>) returns (ok: bool)
    ensures ok <==> ApprovalsResolve(planned, resolved)
  {
    if |planned| != |resolved| {
      return false;
    }
    for i := 0 to |planned|
      invariant forall j :: 0 <= j < i ==>
                  FrozenAlike(planned[j], resolved[j]) && ApprovalStep(planned[j].approval, resolved[j].approval)
    {
      if !FrozenAlike(planned[i], resolved[i]) || !ApprovalStep(planned[i].approval, resolved[i].approval) {
        return false;
      }
    }
    return true;
  }

  /** The approval with this decision in place of its own. */
  function Decided(approval: Approval, decision: string): Approval {
    Approval(approval.required, decision, approval.principal)
  }

  /** A pending approval may become "allow" or "deny", with the requirement and the principal kept,
      and nothing else; any other stays as it is. */
  lemma WhatAnApprovalMayBecome(before: Option<Approval>, after: Option<Approval>)
    ensures ApprovalStep(before, after) <==>
              if before.Some? && before.value.decision == "pending"
              then after == Some(Decided(before.value, "allow")) || after == Some(Decided(before.value, "deny"))
              else after == before
  {
  }

  /** A resolution hands back the very plans it was given, with the pending ones decided. */
  lemma WhatAResolutionMayChange(planned: seq<Plan>, resolved: seq<Plan>)
    ensures ApprovalsResolve(planned, resolved) <==>
              && |resolved| == |planned|
              && forall i :: 0 <= i < |planned| ==>
                   var plan := planned[i];
                   if plan.approval.Some? && plan.approval.value.decision == "pending"
                   then resolved[i] == plan.(approval := Some(Decided(plan.approval.value, "allow")))
                        || resolved[i] == plan.(approval := Some(Decided(plan.approval.value, "deny")))
                   else resolved[i] == plan
  {
    if ApprovalsResolve(planned, resolved) {
      forall i | 0 <= i < |planned|
        ensures var plan := planned[i];
                if plan.approval.Some? && plan.approval.value.decision == "pending"
                then resolved[i] == plan.(approval := Some(Decided(plan.approval.value, "allow")))
                     || resolved[i] == plan.(approval := Some(Decided(plan.approval.value, "deny")))
                else resolved[i] == plan
      {
        WhatAnApprovalMayBecome(planned[i].approval, resolved[i].approval);
      }
    }
  }

  // ----- Terminals -----

  predicate TerminalOf(plan: Plan, terminal: Terminal) {
    && plan.callId == terminal.callId && plan.name == terminal.name
    && plan.invocationId == terminal.invocationId && plan.effect == terminal.effect
  }

  function TerminalIds(terminals: seq<Terminal>): (ids: seq<string>) {
    seq(|terminals|, i requires 0 <= i < |terminals| => terminals[i].callId)
  }

  function EndKeys(terminals: seq<Terminal>): (keys: seq<string>)
    ensures |keys| == |terminals|
  {
    seq(|terminals|, i requires 0 <= i < |terminals| => terminals[i].invocationId)
  }

  /** No later plan reuses this plan's call id (the lookup table keeps the last one). */
  ghost predicate LastOfItsId(plans: seq<Plan>, p: nat)
    requires p < |plans|
  {
    forall q :: p < q < |plans| ==> plans[q].callId != plans[p].callId
  }

  ghost predicate Planned(plans: seq<Plan>, terminal: Terminal) {
    exists p :: 0 <= p < |plans| && LastOfItsId(plans, p) && TerminalOf(plans[p], terminal)
  }

  /** One terminal per plan, in any completion order, none of them altering its frozen plan. */
  ghost predicate TerminalsMatch(plans: seq<Plan>, terminals: seq<Terminal>) {
    && |terminals| == |plans|
    && Distinct(TerminalIds(terminals))
    && forall i :: 0 <= i < |terminals| ==> Planned(plans, terminals[i])
  }

  ghost predicate IndexedBy(byId: map<string, Plan>, plans: seq<Plan>) {
    && (forall p :: 0 <= p < |plans| ==> plans[p].callId in byId)
    && (forall id :: id in byId ==> LastPlanOf(byId[id], plans) && byId[id].callId == id)
  }

  ghost predicate LastPlanOf(plan: Plan, plans: seq<Plan>) {
    exists p :: 0 <= p < |plans| && plans[p] == plan && LastOfItsId(plans, p)
  }

  method IndexPlans(plans: seq<Plan>) returns (byId: map<string, Plan>)
    ensures IndexedBy(byId, plans)
  {
    byId := map[];
    for i := 0 to |plans|
      invariant IndexedBy(byId, plans[..i])
    {
      var before := byId;
      byId := byId[plans[i].callId := plans[i]];
      var now := plans[..i + 1];
      forall id | id in byId ensures LastPlanOf(byId[id], now) {
        if id == plans[i].callId {
          assert now[i] == plans[i] && LastOfItsId(now, i);
        } else {
          var p :| 0 <= p < i && plans[..i][p] == before[id] && LastOfItsId(plans[..i], p);
          assert now[p] == before[id] && LastOfItsId(now, p);
        }
      }
    }
    assert plans[..|plans|] == plans;
  }

  lemma LookupDecides(byId: map<string, Plan>, plans: seq<Plan>, terminal: Terminal)
    requires IndexedBy(byId, plans)
    ensures Planned(plans, terminal) <==> terminal.callId in byId && TerminalOf(byId[terminal.callId], terminal)
  {
    if Planned(plans, terminal) {
      var p :| 0 <= p < |plans| && LastOfItsId(plans, p) && TerminalOf(plans[p], terminal);
      var q :| 0 <= q < |plans| && plans[q] == byId[terminal.callId] && LastOfItsId(plans, q);
      assert p == q;
    }
    if terminal.callId in byId {
      assert LastPlanOf(byId[terminal.callId], plans);
    }
  }

  method ValidateTerminals(plans: seq<Plan>, terminals: seq<Terminal>) returns (ok: bool)
    ensures ok <==> TerminalsMatch(plans, terminals)
  {
    if |terminals| != |plans| {
      return false;
    }
    var byId := IndexPlans(plans);
    var actual: set<string> := {};
    for i := 0 to |terminals|
      invariant actual == set j | 0 <= j < i :: terminals[j].callId
      invariant forall j, k :: 0 <= j < k < i ==> terminals[j].callId != terminals[k].callId
      invariant forall j :: 0 <= j < i ==> Planned(plans, terminals[j])
    {
      var terminal := terminals[i];
      if terminal.callId in actual {
        var j :| 0 <= j < i && terminals[j].callId == terminal.callId;
        assert TerminalIds(terminals)[j] == TerminalIds(terminals)[i];
        return false;
      }
      actual := actual + {terminal.callId};
      LookupDecides(byId, plans, terminal);
      if terminal.callId !in byId {
        return false;
      }
      var plan := byId[terminal.callId];
      if terminal.name != plan.name || terminal.invocationId != plan.invocationId || terminal.effect != plan.effect {
        return false;
      }
    }
    return true;
  }

  /** The terminals put back into model-call order. */
  ghost predicate InCallOrder(plans: seq<Plan>, ordered: seq<Terminal>) {
    && |ordered| == |plans|
    && forall i :: 0 <= i < |plans| ==> TerminalOf(plans[i], ordered[i])
  }

  /** Validated terminals leave no plan without one: equally many distinct call ids, all of them
      planned, must be all the planned ids. */
  lemma EveryPlanHasATerminal(plans: seq<Plan>, terminals: seq<Terminal>)
    requires Distinct(PlanIds(plans)) && TerminalsMatch(plans, terminals)
    ensures forall p :: 0 <= p < |plans| ==> plans[p].callId in TerminalIds(terminals)
  {
    var drawn, pool := TerminalIds(terminals), PlanIds(plans);
    forall x | x in drawn ensures x in pool {
      var i :| 0 <= i < |terminals| && drawn[i] == x;
      assert Planned(plans, terminals[i]);
      var p :| 0 <= p < |plans| && LastOfItsId(plans, p) && TerminalOf(plans[p], terminals[i]);
      assert pool[p] == x;
    }
    Covering(drawn, pool);
    forall p | 0 <= p < |plans| ensures plans[p].callId in drawn {
      assert pool[p] in pool;
    }
  }

  /** Some terminal ends this very plan. */
  ghost predicate HasItsTerminal(plan: Plan, terminals: seq<Terminal>) {
    exists i :: 0 <= i < |terminals| && EndsPlan(plan, terminals[i])
  }

  predicate EndsPlan(plan: Plan, terminal: Terminal) {
    && terminal.callId == plan.callId && terminal.name == plan.name
    && terminal.invocationId == plan.invocationId && terminal.effect == plan.effect
  }

  /** A validated batch is one terminal for each plan, under its own identity, name and effect, and
      nothing else. */
  lemma OneTerminalEach(plans: seq<Plan>, terminals: seq<Terminal>)
    requires Distinct(PlanIds(plans))
    ensures TerminalsMatch(plans, terminals) <==>
              |terminals| == |plans| && forall p :: 0 <= p < |plans| ==> HasItsTerminal(plans[p], terminals)
  {
    if TerminalsMatch(plans, terminals) {
      EveryPlanHasATerminal(plans, terminals);
      forall p | 0 <= p < |plans| ensures HasItsTerminal(plans[p], terminals) {
        var i :| 0 <= i < |terminals| && TerminalIds(terminals)[i] == plans[p].callId;
        assert Planned(plans, terminals[i]);
        var q :| 0 <= q < |plans| && LastOfItsId(plans, q) && TerminalOf(plans[q], terminals[i]);
        assert PlanIds(plans)[q] == PlanIds(plans)[p];
        assert EndsPlan(plans[p], terminals[i]);
      }
    }
    if |terminals| == |plans| && forall p :: 0 <= p < |plans| ==> HasItsTerminal(plans[p], terminals) {
      EachIsPlanned(plans, terminals);
    }
  }

  lemma EachIsPlanned(plans: seq<Plan>, terminals: seq<Terminal>)
    requires Distinct(PlanIds(plans)) && |terminals| == |plans|
    requires forall p :: 0 <= p < |plans| ==> HasItsTerminal(plans[p], terminals)
    ensures TerminalsMatch(plans, terminals)
  {
    var ids, pool := PlanIds(plans), TerminalIds(terminals);
    forall x | x in ids ensures x in pool {
      var p :| 0 <= p < |ids| && ids[p] == x;
      assert HasItsTerminal(plans[p], terminals);
      var i :| 0 <= i < |terminals| && EndsPlan(plans[p], terminals[i]);
      assert pool[i] == x;
    }
    Covering(ids, pool);
    forall i | 0 <= i < |terminals| ensures Planned(plans, terminals[i]) {
      assert pool[i] in pool;
      var p :| 0 <= p < |ids| && ids[p] == pool[i];
      assert HasItsTerminal(plans[p], terminals);
      var j :| 0 <= j < |terminals| && EndsPlan(plans[p], terminals[j]);
      assert pool[j] == pool[i];
      forall q | p < q < |plans| ensures plans[q].callId != plans[p].callId { assert ids[q] != ids[p]; }
      assert LastOfItsId(plans, p) && TerminalOf(plans[p], terminals[i]);
    }
  }

  method IndexTerminals(terminals: seq<Terminal>) returns (byId: map<string, Terminal>)
    requires Distinct(TerminalIds(terminals))
    ensures forall id :: id in byId <==> id in TerminalIds(terminals)
    ensures forall id :: id in byId ==> byId[id] in terminals && byId[id].callId == id
  {
    byId := map[];
    for i := 0 to |terminals|
      invariant forall id :: id in byId <==> id in TerminalIds(terminals)[..i]
      invariant forall id :: id in byId ==> byId[id] in terminals && byId[id].callId == id
    {
      assert TerminalIds(terminals)[..i + 1] == TerminalIds(terminals)[..i] + [terminals[i].callId];
      byId := byId[terminals[i].callId := terminals[i]];
    }
    assert TerminalIds(terminals)[..|terminals|] == TerminalIds(terminals);
  }

  lemma InOrderSnoc(plans: seq<Plan>, i: nat, ordered: seq<Terminal>, terminal: Terminal)
    requires i < |plans| && InCallOrder(plans[..i], ordered) && TerminalOf(plans[i], terminal)
    ensures InCallOrder(plans[..i + 1], ordered + [terminal])
  {
  }

  /** Reorders the terminals through a table keyed by call id. After validation the
      "no terminal outcome" failure cannot occur. */
  method OrderTerminals(plans: seq<Plan>, terminals: seq<Terminal>) returns (r: Result<seq<Terminal>, HostFailure>)
    requires Distinct(PlanIds(plans)) && TerminalsMatch(plans, terminals)
    ensures r.Ok? && InCallOrder(plans, r.value)
    ensures forall terminal :: terminal in r.value <==> terminal in terminals
  {
    var byId := IndexTerminals(terminals);
    EveryPlanHasATerminal(plans, terminals);
    var ordered: seq<Terminal> := [];
    for i := 0 to |plans|
      invariant InCallOrder(plans[..i], ordered)
      invariant forall j :: 0 <= j < i ==> ordered[j] in terminals
    {
      if plans[i].callId !in byId {
        return Err(NoTerminalOutcome);
      }
      var terminal := byId[plans[i].callId];
      TerminalMatchesItsPlan(plans, terminals, i, terminal);
      InOrderSnoc(plans, i, ordered, terminal);
      ordered := ordered + [terminal];
    }
    assert plans[..|plans|] == plans;
    OrderedIsComplete(plans, terminals, ordered);
    return Ok(ordered);
  }

  lemma OrderedIsComplete(plans: seq<Plan>, terminals: seq<Terminal>, ordered: seq<Terminal>)
    requires TerminalsMatch(plans, terminals) && InCallOrder(plans, ordered)
    requires forall j :: 0 <= j < |ordered| ==> ordered[j] in terminals
    ensures forall terminal :: terminal in ordered <==> terminal in terminals
  {
    forall terminal | terminal in terminals ensures terminal in ordered {
      var j :| 0 <= j < |terminals| && terminals[j] == terminal;
      assert Planned(plans, terminals[j]);
      var p :| 0 <= p < |plans| && LastOfItsId(plans, p) && TerminalOf(plans[p], terminal);
      SameCallSameTerminal(terminals, terminal, ordered[p]);
    }
  }

  lemma SamePlan(plans: seq<Plan>, p: nat, i: nat)
    requires Distinct(PlanIds(plans)) && p < |plans| && i < |plans| && plans[p].callId == plans[i].callId
    ensures p == i
  {
    assert PlanIds(plans)[p] == PlanIds(plans)[i];
  }

  lemma TerminalMatchesItsPlan(plans: seq<Plan>, terminals: seq<Terminal>, i: nat, terminal: Terminal)
    requires Distinct(PlanIds(plans)) && TerminalsMatch(plans, terminals) && terminal in terminals
    requires i < |plans| && plans[i].callId == terminal.callId
    ensures TerminalOf(plans[i], terminal)
  {
    var j :| 0 <= j < |terminals| && terminals[j] == terminal;
    assert Planned(plans, terminals[j]);
    var p :| 0 <= p < |plans| && LastOfItsId(plans, p) && TerminalOf(plans[p], terminals[j]);
    SamePlan(plans, p, i);
  }

  lemma SameCallSameTerminal(terminals: seq<Terminal>, a: Terminal, b: Terminal)
    requires Distinct(TerminalIds(terminals)) && a in terminals && b in terminals && a.callId == b.callId
    ensures a == b
  {
    var i :| 0 <= i < |terminals| && terminals[i] == a;
    var j :| 0 <= j < |terminals| && terminals[j] == b;
    assert TerminalIds(terminals)[i] == TerminalIds(terminals)[j];
  }

  /** One broker bound to one immutable execution scope for a complete turn. */
  class ToolHost {
    const scope: string
    var seen: set<string>

    constructor (scope: string)
      ensures this.scope == scope && seen == {}
    {
      this.scope := scope;
      seen := {};
    }

    method Plan(calls: seq<ToolCall>, answer: BrokerAnswer<seq<Plan>>) returns (r: Result<seq<Plan>, HostFailure>)
      modifies this
      ensures r.Ok? <==> answer.Ok? && Issuable(scope, calls, old(seen)) && PlansMatch(scope, calls, answer.value)
      ensures r.Err? ==> r.error != NoTerminalOutcome
      ensures r.Ok? ==> r.value == answer.value && seen == old(seen) + Elements(InvocationIds(scope, calls))
    {
      var ids, issued := AllocateInvocationIds(scope, calls, seen);
      seen := issued;
      if ids.Err? {
        return Err(ids.error);
      }
      if answer.Err? {
        return Err(BrokerFailed);
      }
      ValidPlansMatch(scope, calls, answer.value);
      if !ValidPlans(calls, ids.value, answer.value) {
        return Err(PlansChanged);
      }
      return Ok(answer.value);
    }

    method ResolveApprovals(planned: seq<Plan>, answer: BrokerAnswer<seq<Plan>>) returns (r: Result<seq<Plan>, HostFailure>)
      ensures r.Ok? <==> answer.Ok? && ApprovalsResolve(planned, answer.value)
      ensures r.Err? ==> r.error != NoTerminalOutcome
      ensures r.Ok? ==> r.value == answer.value
    {
      if answer.Err? {
        return Err(BrokerFailed);
      }
      var ok := ValidateApprovalResolution(planned, answer.value);
      return if ok then Ok(answer.value) else Err(ApprovalsChanged);
    }

    method Execute(resolved: seq<Plan>, answer: BrokerAnswer<seq<Terminal>>) returns (r: Result<seq<Terminal>, HostFailure>)
      ensures r.Ok? <==> answer.Ok? && TerminalsMatch(resolved, answer.value)
      ensures r.Err? ==> r.error != NoTerminalOutcome
      ensures r.Ok? ==> r.value == answer.value
    {
      if answer.Err? {
        return Err(BrokerFailed);
      }
      var ok := ValidateTerminals(resolved, answer.value);
      return if ok then Ok(answer.value) else Err(TerminalsChanged);
    }
  }
}
