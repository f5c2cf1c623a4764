/** What happens inside one transaction: the row guards, the snapshots read back, and the
    INSERT and UPDATE statements with the schema constraints SQLite evaluates on them.

    A statement that violates a constraint returns `Storage`. `Store` shows that none does,
    with one exception (`Findings`). */
module Transactions {
  import opened Basics
  import opened Tables
  import opened Protocol
  import Conversations
  import Invariance

  datatype StoreError =
    | NotFound(id: string)
    | AlreadyExists(id: string)
    | GenerationConflict(expected: nat, actual: nat)
    | FencingConflict(presented: nat, held: Option<nat>)
    | NotClaimable(state: string)
    | SessionBusy(session: string)
    | NotRunning(id: string)
    | Invalid
    | Storage

  // ---- Reading rows back -------------------------------------------------------------

  datatype Cancellation = Cancellation(reason: string, requestedAt: nat)

  datatype DelegationState =
    | Pending
    | Running(worker: string, fence: nat, deadline: nat, cancellation: Option<Cancellation>)
    | Terminal(outcome: Outcome, completedAt: nat)

  datatype Snapshot = Snapshot(
    spec: Spec, generation: nat, state: DelegationState, created: nat, updated: nat)

  /** `cancellation_from_raw`: the intent columns must be paired and inside the row's lifetime. */
  function IntentOf(raw: Delegation): Result<Option<Cancellation>, StoreError> {
    match (raw.reason, raw.requested)
    case (None, None) => Ok(None)
    case (Some(reason), Some(at)) =>
      if ValidDetail(reason) && raw.created <= at <= raw.updated
      then Ok(Some(Cancellation(reason, at))) else Err(Invalid)
    case _ => Err(Invalid)
  }

  function StateOf(raw: Delegation): Result<DelegationState, StoreError> {
    if raw.status.IsPending? then
      if raw.reason.Some? || raw.requested.Some? then Err(Invalid) else Ok(Pending)
    else if raw.status.IsRunning? then
      if raw.worker.None? || raw.fence == 0 || raw.lease.None? then Err(Invalid)
      else
        var intent :- IntentOf(raw);
        Ok(Running(raw.worker.value, raw.fence, raw.lease.value, intent))
    else if raw.reason.Some? || raw.requested.Some? || raw.terminal.None? then Err(Invalid)
    else if StatusOf(raw.terminal.value) != raw.status then Err(Invalid)
    else Ok(Terminal(raw.terminal.value, raw.updated))
  }

  /** `snapshot_from_raw`: fails on any row the schema admits but the protocol never writes. */
  function Load(raw: Delegation): Result<Snapshot, StoreError> {
    if !ValidSpec(raw.spec) then Err(Invalid)
    else
      var state :- StateOf(raw);
      if raw.generation == 0 then Err(Invalid)
      else Ok(Snapshot(raw.spec, raw.generation, state, raw.created, raw.updated))
  }

  /** Every lawful row reads back, and the snapshot shows its owner, lease, intent and outcome. */
  lemma LawfulRowLoads(raw: Delegation)
    requires Lawful(raw)
    ensures Load(raw).Ok?
    ensures var s := Load(raw).value;
            && s.spec == raw.spec && s.generation == raw.generation && s.created == raw.created && s.updated == raw.updated
            && (s.state.Pending? <==> raw.worker.None? && raw.terminal.None?)
            && (s.state.Running? <==> raw.worker.Some? && raw.terminal.None?)
            && (s.state.Running? ==>
                  && Some(s.state.worker) == raw.worker && s.state.fence == raw.fence && Some(s.state.deadline) == raw.lease
                  && s.state.cancellation == if raw.reason.None? then None
                                             else Some(Cancellation(raw.reason.value, raw.requested.value)))
            && (s.state.Terminal? ==> Some(s.state.outcome) == raw.terminal && s.state.completedAt == raw.updated)
  {
    if raw.status.IsRunning? && raw.reason.Some? {
      assert IntentOf(raw) == Ok(Some(Cancellation(raw.reason.value, raw.requested.value)));
    }
  }

  // ---- Row guards --------------------------------------------------------------------

  function EnsureGeneration(raw: Delegation, expected: nat): Result<(), StoreError> {
    if raw.generation == expected then Ok(()) else Err(GenerationConflict(expected, raw.generation))
  }

  function EnsureRunningFence(raw: Delegation, expected: nat): Result<(), StoreError> {
    var held := if raw.fence > 0 then Some(raw.fence) else None;
    if raw.status.IsRunning? && held == Some(expected) then Ok(()) else Err(FencingConflict(expected, held))
  }

  function EnsureMonotonic(raw: Delegation, at: nat): Result<(), StoreError> {
    if at < raw.updated then Err(Invalid) else Ok(())
  }

  function EnsureActiveLease(raw: Delegation, at: nat): Result<(), StoreError> {
    if raw.lease.None? || MAX_I64 < at || raw.lease.value <= at then Err(Invalid) else Ok(())
  }

  function EnsureNoCancellation(raw: Delegation): Result<(), StoreError> {
    if raw.reason.Some? || raw.requested.Some? then Err(Invalid) else Ok(())
  }

  function EnsureLegalTerminal(raw: Delegation, outcome: Outcome): Result<(), StoreError> {
    var intent :- IntentOf(raw);
    match (intent, outcome)
    case (None, Cancelled(_)) => Err(Invalid)
    case (None, _) => Ok(())
    case (Some(asked), Cancelled(reason)) =>
      if asked.reason == reason then Ok(()) else Err(NotClaimable("cancellation_requested"))
    case (Some(_), _) => Err(NotClaimable("cancellation_requested"))
  }

  function Increment(value: nat): Result<nat, StoreError> {
    if value < MAX_I64 then Ok(value + 1) else Err(Invalid)
  }

  function ToI64(value: nat): Result<nat, StoreError> {
    if value <= MAX_I64 then Ok(value) else Err(Invalid)
  }

  // ---- Statements --------------------------------------------------------------------

  method InsertDelegation(sessions: Sessions, table: Delegations, row: Delegation)
    returns (r: Result<Delegations, StoreError>)
    ensures r.Ok? <==>
              && row.spec.delegationId !in table
              && !EventTaken(table, row.spec.eventId) && !ChildTaken(table, row.spec.child)
              && row.spec.parent in sessions && row.spec.child in sessions
              && DelegationCheck(row)
    ensures r.Ok? ==> r.value == table[row.spec.delegationId := row]
    ensures r.Err? ==> r.error == Storage
  {
    if row.spec.delegationId in table || EventTaken(table, row.spec.eventId) || ChildTaken(table, row.spec.child) {
      return Err(Storage);
    }
    if row.spec.parent !in sessions || row.spec.child !in sessions || !DelegationCheck(row) {
      return Err(Storage);
    }
    return Ok(table[row.spec.delegationId := row]);
  }

  method UpdateDelegation(table: Delegations, id: string, row: Delegation)
    returns (r: Result<Delegations, StoreError>)
    ensures r == if DelegationCheck(row) then Ok(table[id := row]) else Err(Storage)
  {
    if !DelegationCheck(row) { return Err(Storage); }
    return Ok(table[id := row]);
  }

  predicate AnnouncedFor(outbox: Outbox, delegation: string) {
    exists event :: event in outbox && outbox[event].delegationId == delegation
  }

  method InsertCompletion(table: Delegations, outbox: Outbox, completion: Completion)
    returns (r: Result<Outbox, StoreError>)
    ensures r.Ok? <==>
              && completion.eventId !in outbox
              && !AnnouncedFor(outbox, completion.delegationId)
              && completion.delegationId in table
    ensures r.Ok? ==> r.value == outbox[completion.eventId := Undelivered(completion)]
    ensures r.Err? ==> r.error == Storage
  {
    var row := Undelivered(completion);
    if completion.eventId in outbox || AnnouncedFor(outbox, completion.delegationId) { return Err(Storage); }
    if completion.delegationId !in table || !DeliveryCheck(row) { return Err(Storage); }
    return Ok(outbox[completion.eventId := row]);
  }

  method UpdateDelivery(outbox: Outbox, event: string, row: Delivery) returns (r: Result<Outbox, StoreError>)
    ensures r == if DeliveryCheck(row) then Ok(outbox[event := row]) else Err(Storage)
  {
    if !DeliveryCheck(row) { return Err(Storage); }
    return Ok(outbox[event := row]);
  }

  method InsertTurn(sessions: Sessions, turns: Turns, id: string, row: Turn) returns (r: Result<Turns, StoreError>)
    requires row.status.IsActive?
    ensures r.Ok? <==> id !in turns && row.session in sessions && TurnCheck(row) && !Busy(turns, row.session)
    ensures r.Ok? ==> r.value == turns[id := row]
    ensures r.Err? ==> r.error == Storage
  {
    if id in turns || row.session !in sessions || !TurnCheck(row) || Busy(turns, row.session) {
      return Err(Storage);
    }
    return Ok(turns[id := row]);
  }

  /** UPDATE of a turn that leaves the running state, so the partial unique index is idle. */
  method UpdateTurn(turns: Turns, id: string, row: Turn) returns (r: Result<Turns, StoreError>)
    requires !row.status.IsActive?
    ensures r == if TurnCheck(row) then Ok(turns[id := row]) else Err(Storage)
  {
    if !TurnCheck(row) { return Err(Storage); }
    return Ok(turns[id := row]);
  }

  // ---- Sessions ----------------------------------------------------------------------

  /** `load_snapshot`: the message count must match and the history must validate. */
  method LoadSession(sessions: Sessions, id: string) returns (r: Result<Session, StoreError>)
    requires SessionsOk(sessions)
    ensures r == if id in sessions then Ok(sessions[id]) else Err(NotFound(id))
  {
    if id !in sessions { return Err(NotFound(id)); }
    var raw := sessions[id];
    assert SessionOk(id, raw);
    if raw.count != |raw.messages| { return Err(Invalid); }
    var checked := Conversations.Create(raw.messages);
    if checked.Err? { return Err(Invalid); }
    if raw.generation == 0 { return Err(Invalid); }
    return Ok(raw);
  }

  /** `append_turn_in_transaction`. */
  method AppendTurn(sessions: Sessions, id: string, expected: nat, chunk: seq<Conversations.Message>)
    returns (r: Result<Sessions, StoreError>)
    requires SessionsOk(sessions)
    ensures r.Ok? <==> MayAppend(sessions, id, expected, chunk)
    ensures r.Ok? ==> r.value == sessions[id := Extended(sessions[id], chunk)]
    ensures r.Err? ==> !r.error.Storage?
    ensures Conversations.CompleteTurn(chunk) && id in sessions && sessions[id].generation != expected ==>
              r == Err(GenerationConflict(expected, sessions[id].generation))
  {
    if chunk == [] { return Err(Invalid); }
    if !chunk[0].User? || !chunk[|chunk| - 1].Assistant? { return Err(Invalid); }
    var snapshot :- LoadSession(sessions, id);
    assert SessionOk(id, snapshot);
    if snapshot.generation != expected {
      return Err(GenerationConflict(expected, snapshot.generation));
    }
    var conversation := snapshot.messages + chunk;
    var checked := Conversations.Create(conversation);
    if checked.Err? { return Err(Invalid); }
    var stored := snapshot.messages;
    for offset := 0 to |chunk|
      invariant stored == snapshot.messages + chunk[..offset]
      invariant |stored| <= MAX_I64 + 1
    {
      if MAX_I64 < |snapshot.messages| + offset { return Err(Invalid); }
      assert chunk[..offset + 1] == chunk[..offset] + [chunk[offset]];
      stored := stored + [chunk[offset]];
    }
    assert chunk[..|chunk|] == chunk;
    if MAX_I64 < expected + 1 || MAX_I64 < |conversation| { return Err(Invalid); }
    return Ok(sessions[id := snapshot.(generation := expected + 1, messages := stored, count := |conversation|)]);
  }

  /** `create_session_in_transaction`. */
  method CreateSession(sessions: Sessions, config: SessionConfig) returns (r: Result<Sessions, StoreError>)
    ensures r == if config.sessionId in sessions then Err(AlreadyExists(config.sessionId))
                 else Ok(sessions[config.sessionId := NewSession(config)])
  {
    if config.sessionId in sessions { return Err(AlreadyExists(config.sessionId)); }
    return Ok(sessions[config.sessionId := NewSession(config)]);
  }

  // ---- Creating a delegation ---------------------------------------------------------

  /** `create_delegation_in_transaction`. Its collision query looks at the id and the event
      only, so a child that already serves a delegation is left to the UNIQUE column. */
  method CreateDelegation(sessions: Sessions, table: Delegations, spec: Spec, now: nat)
    returns (r: Result<Delegations, StoreError>)
    ensures r.Ok? <==>
              && ValidSpec(spec) && !Collides(table, spec) && !ChildTaken(table, spec.child)
              && spec.parent in sessions && spec.child in sessions && now <= MAX_I64
    ensures r.Ok? ==> r.value == table[spec.delegationId := NewDelegation(spec, now)]
    ensures r == Err(AlreadyExists(spec.delegationId)) <==> ValidSpec(spec) && Collides(table, spec)
    ensures r == Err(Storage) <==>
              && ValidSpec(spec) && !Collides(table, spec) && ChildTaken(table, spec.child)
              && spec.parent in sessions && spec.child in sessions && now <= MAX_I64
  {
    if !ValidSpec(spec) { return Err(Invalid); }
    if spec.delegationId in table || EventTaken(table, spec.eventId) {
      return Err(AlreadyExists(spec.delegationId));
    }
    if spec.parent !in sessions { return Err(Invalid); }
    if spec.child !in sessions { return Err(Invalid); }
    var at :- ToI64(now);
    r := InsertDelegation(sessions, table, NewDelegation(spec, at));
  }

  // ---- Ending a delegation -----------------------------------------------------------

  /** The UPDATE to a terminal state together with `insert_completion`. */
  method WriteTerminal(table: Delegations, outbox: Outbox, raw: Delegation, outcome: Outcome, at: nat)
    returns (r: Result<(Delegations, Outbox), StoreError>)
    requires raw.spec.delegationId in table
    ensures r.Ok? <==>
              && ValidSpec(raw.spec) && raw.generation < MAX_I64 && at <= MAX_I64
              && DelegationCheck(Ended(raw, outcome, at))
              && raw.spec.eventId !in outbox && !AnnouncedFor(outbox, raw.spec.delegationId)
    ensures r.Ok? ==>
              && r.value.0 == table[raw.spec.delegationId := Ended(raw, outcome, at)]
              && r.value.1 == outbox[raw.spec.eventId := Undelivered(Announcement(raw, outcome, at))]
    ensures r == Err(Storage) ==>
              !(DelegationCheck(Ended(raw, outcome, at))
                && raw.spec.eventId !in outbox && !AnnouncedFor(outbox, raw.spec.delegationId))
  {
    if !ValidSpec(raw.spec) { return Err(Invalid); }
    var completion := Announcement(raw, outcome, at);
    var generation :- Increment(raw.generation);
    var updated :- ToI64(at);
    var fence := if raw.status.IsPending? then 1 else raw.fence;
    var row := raw.(status := StatusOf(outcome), generation := generation, fence := fence, lease := None,
                    terminal := Some(outcome), reason := None, requested := None, updated := updated);
    var delegations :- UpdateDelegation(table, raw.spec.delegationId, row);
    var announced :- InsertCompletion(delegations, outbox, completion);
    return Ok((delegations, announced));
  }

  /** For a live row of a lawful table none of the constraints can be violated. */
  lemma TerminalIsWritable(sessions: set<string>, table: Delegations, outbox: Outbox, id: string, outcome: Outcome, at: nat)
    requires DelegationsOk(sessions, table) && KeysUnique(table) && OutboxSound(table, outbox)
    requires id in table && !table[id].Over() && MaySettle(table[id], at) && at <= MAX_I64
    ensures ValidSpec(table[id].spec) && table[id].spec.delegationId == id
    ensures DelegationCheck(Ended(table[id], outcome, at))
    ensures table[id].spec.eventId !in outbox && !AnnouncedFor(outbox, id)
  {
    assert DelegationOk(sessions, id, table[id]);
    Invariance.EventFree(table, outbox, id);
    forall event | event in outbox ensures outbox[event].delegationId != id {
      assert Announces(table, event, outbox[event]);
    }
  }
}
