/** The durable store: one object over the shared tables, one method per mutating port
    operation of `sqlite_delegation.rs`, `sqlite_foreground.rs` and `sqlite.rs`.

    Each method runs the source's guards in the source's order and writes its tables only
    when it commits. Each is proved to be exactly one step of `Protocol.Next`: it succeeds
    if and only if the step is enabled, and a refusal leaves every table alone. */
module Stores {
  import opened Basics
  import opened Tables
  import opened Protocol
  import opened Transactions
  import opened Reconciliation
  import opened Invariance
  import Conversations

  class Store {
    var sessions: Sessions
    var delegations: Delegations
    var outbox: Outbox
    var turns: Turns

    ghost function Contents(): Db
      reads this
    {
      Db(sessions, delegations, outbox, turns)
    }

    constructor ()
      ensures Contents() == EMPTY && Valid(Contents())
    {
      sessions, delegations, outbox, turns := map[], map[], map[], map[];
      new;
      EmptyIsValid();
    }

    // ---- Sessions --------------------------------------------------------------------

    method CreateSession(config: SessionConfig) returns (r: Result<Session, StoreError>)
      requires Valid(Contents())
      modifies this`sessions
      ensures Valid(Contents()) && Next(old(Contents()), Op.CreateSession(config), Contents())
      ensures r == if config.sessionId in old(sessions) then Err(AlreadyExists(config.sessionId))
                   else Ok(Session(config, 1, [], 0))
      ensures r.Ok? ==> config.sessionId in sessions && sessions[config.sessionId] == r.value
    {
      ghost var before := Contents();
      var tx :- Transactions.CreateSession(sessions, config);
      sessions := tx;
      NextKeepsValid(before, Op.CreateSession(config), Contents());
      return Ok(NewSession(config));
    }

    method Append(session: string, expected: nat, chunk: seq<Conversations.Message>)
      returns (r: Result<Session, StoreError>)
      requires Valid(Contents())
      modifies this`sessions
      ensures Valid(Contents()) && Next(old(Contents()), Op.Append(session, expected, chunk), Contents())
      ensures r.Ok? <==> Enabled(old(Contents()), Op.Append(session, expected, chunk))
      ensures r.Ok? ==>
                && session in sessions && r.value == sessions[session]
                && session in old(sessions) && r.value.messages == old(sessions)[session].messages + chunk
                && r.value.generation == expected + 1
      ensures r.Err? ==> !r.error.Storage?
      ensures Conversations.CompleteTurn(chunk) && session in old(sessions)
              && old(sessions)[session].generation != expected ==>
                r == Err(GenerationConflict(expected, old(sessions)[session].generation))
    {
      ghost var before := Contents();
      var tx :- AppendTurn(sessions, session, expected, chunk);
      sessions := tx;
      NextKeepsValid(before, Op.Append(session, expected, chunk), Contents());
      return Ok(sessions[session]);
    }

    // ---- Delegations -----------------------------------------------------------------

    /** May fail with `Storage` on a child that already serves a delegation; see `Findings`. */
    method Create(spec: Spec, now: nat) returns (r: Result<Snapshot, StoreError>)
      requires Valid(Contents())
      modifies this`delegations
      ensures Valid(Contents()) && Next(old(Contents()), Op.Create(spec, now), Contents())
      ensures r.Ok? <==> Enabled(old(Contents()), Op.Create(spec, now))
      ensures r.Ok? ==> r.value == Snapshot(spec, 1, Pending, now, now)
      ensures r.Ok? ==> spec.delegationId in delegations && Load(delegations[spec.delegationId]) == r
      ensures r == Err(AlreadyExists(spec.delegationId)) <==> ValidSpec(spec) && Collides(old(delegations), spec)
      ensures r == Err(Storage) <==>
                && ValidSpec(spec) && !Collides(old(delegations), spec)
                && spec.parent in sessions && spec.child in sessions && now <= MAX_I64
                && ChildTaken(old(delegations), spec.child)
    {
      ghost var before := Contents();
      if !ValidSpec(spec) { return Err(Invalid); }
      var tx :- CreateDelegation(sessions, delegations, spec, now);
      delegations := tx;
      NextKeepsValid(before, Op.Create(spec, now), Contents());
      return Ok(Snapshot(spec, 1, Pending, now, now));
    }

    method CreateWithChild(config: SessionConfig, spec: Spec, now: nat) returns (r: Result<Snapshot, StoreError>)
      requires Valid(Contents())
      modifies this`sessions, this`delegations
      ensures Valid(Contents()) && Next(old(Contents()), Op.CreateWithChild(config, spec, now), Contents())
      ensures r.Ok? <==> Enabled(old(Contents()), Op.CreateWithChild(config, spec, now))
      ensures r.Ok? ==> r.value == Snapshot(spec, 1, Pending, now, now)
      ensures r.Ok? ==> spec.delegationId in delegations && Load(delegations[spec.delegationId]) == r
      ensures r.Err? ==> !r.error.Storage?
    {
      ghost var before := Contents();
      if !ValidSpec(spec) { return Err(Invalid); }
      if config.sessionId != spec.child { return Err(Invalid); }
      if spec.parent !in sessions { return Err(Invalid); }
      var created := Transactions.CreateSession(sessions, config);
      if created.Err? { return Err(Invalid); }
      FreshChildIsFree(sessions.Keys, delegations, spec.child);
      var tx :- CreateDelegation(created.value, delegations, spec, now);
      sessions, delegations := created.value, tx;
      NextKeepsValid(before, Op.CreateWithChild(config, spec, now), Contents());
      return Ok(Snapshot(spec, 1, Pending, now, now));
    }

    method LoadRaw(id: string) returns (r: Result<Delegation, StoreError>)
      ensures r == if id in delegations then Ok(delegations[id]) else Err(NotFound(id))
    {
      if id !in delegations { return Err(NotFound(id)); }
      return Ok(delegations[id]);
    }

    method Claim(id: string, expected: nat, worker: string, now: nat, deadline: nat)
      returns (r: Result<Snapshot, StoreError>)
      requires Valid(Contents())
      modifies this`delegations
      ensures Valid(Contents()) && Next(old(Contents()), Op.Claim(id, expected, worker, now, deadline), Contents())
      ensures r.Ok? <==> Enabled(old(Contents()), Op.Claim(id, expected, worker, now, deadline))
      ensures r.Ok? ==> r == Load(delegations[id])
      ensures r.Ok? ==> r.value == Snapshot(old(delegations)[id].spec, expected + 1, Running(worker, 1, deadline, None),
                                            old(delegations)[id].created, now)
      ensures r.Err? ==> !r.error.Storage?
      ensures now < deadline && id !in delegations ==> r == Err(NotFound(id))
      ensures now < deadline && id in old(delegations) && old(delegations)[id].generation != expected ==>
                r == Err(GenerationConflict(expected, old(delegations)[id].generation))
    {
      ghost var before := Contents();
      if deadline <= now { return Err(Invalid); }
      var raw :- LoadRaw(id);
      assert DelegationOk(sessions.Keys, id, raw);
      var _ :- EnsureGeneration(raw, expected);
      var _ :- EnsureMonotonic(raw, now);
      var _ :- EnsureNoCancellation(raw);
      if !raw.status.IsPending? { return Err(NotClaimable("")); }
      if MAX_I64 <= raw.generation || MAX_I64 <= raw.fence { return Err(Invalid); }
      var lease :- ToI64(deadline);
      var row := raw.(status := IsRunning, generation := raw.generation + 1, worker := Some(worker),
                      fence := raw.fence + 1, lease := Some(lease), updated := now);
      ClaimedIsLawful(raw, expected, worker, now, deadline);
      var tx := UpdateDelegation(delegations, id, row);
      if tx.Err? { return Err(Storage); }
      delegations := tx.value;
      NextKeepsValid(before, Op.Claim(id, expected, worker, now, deadline), Contents());
      LawfulRowLoads(row);
      return Load(delegations[id]);
    }

    method Heartbeat(id: string, expected: nat, fence: nat, now: nat, deadline: nat)
      returns (r: Result<Snapshot, StoreError>)
      requires Valid(Contents())
      modifies this`delegations
      ensures Valid(Contents()) && Next(old(Contents()), Op.Heartbeat(id, expected, fence, now, deadline), Contents())
      ensures r.Ok? <==> Enabled(old(Contents()), Op.Heartbeat(id, expected, fence, now, deadline))
      ensures r.Ok? ==> r == Load(delegations[id])
      ensures r.Ok? ==>
                && r.value.generation == expected + 1 && r.value.updated == now
                && r.value.state.Running? && r.value.state.fence == fence && r.value.state.deadline == deadline
                && (r.value.state.cancellation.Some? <==> old(delegations)[id].reason.Some?)
      ensures r.Err? ==> !r.error.Storage?
      ensures now < deadline && id in old(delegations) && old(delegations)[id].generation != expected ==>
                r == Err(GenerationConflict(expected, old(delegations)[id].generation))
    {
      ghost var before := Contents();
      if deadline <= now { return Err(Invalid); }
      var raw :- LoadRaw(id);
      assert DelegationOk(sessions.Keys, id, raw);
      var _ :- EnsureGeneration(raw, expected);
      var _ :- EnsureRunningFence(raw, fence);
      var _ :- EnsureMonotonic(raw, now);
      var _ :- EnsureActiveLease(raw, now);
      if MAX_I64 < deadline || deadline <= raw.lease.value { return Err(Invalid); }
      var generation :- Increment(raw.generation);
      var row := raw.(generation := generation, lease := Some(deadline), updated := now);
      RenewedIsLawful(raw, expected, fence, now, deadline);
      var tx := UpdateDelegation(delegations, id, row);
      if tx.Err? { return Err(Storage); }
      delegations := tx.value;
      NextKeepsValid(before, Op.Heartbeat(id, expected, fence, now, deadline), Contents());
      LawfulRowLoads(row);
      return Load(delegations[id]);
    }

    /** Ends the row `id` of the current tables; shared by the operations that finish one row. */
    method CommitTerminal(id: string, raw: Delegation, outcome: Outcome, at: nat)
      returns (r: Result<Completion, StoreError>)
      requires Valid(Contents()) && id in delegations && delegations[id] == raw
      requires !raw.Over() && raw.updated <= at <= MAX_I64
      modifies this`delegations, this`outbox
      ensures Valid(Contents())
      ensures r.Ok? <==> raw.generation < MAX_I64
      ensures Contents() == if r.Ok? then EndOne(old(Contents()), id, outcome, at) else old(Contents())
      ensures r.Ok? ==> r.value == Announcement(raw, outcome, at)
      ensures r.Err? ==> !r.error.Storage?
    {
      ghost var before := Contents();
      if MAX_I64 <= raw.generation { return Err(Invalid); }
      TerminalIsWritable(sessions.Keys, delegations, outbox, id, outcome, at);
      var tx := WriteTerminal(delegations, outbox, raw, outcome, at);
      if tx.Err? { return Err(Storage); }
      delegations, outbox := tx.value.0, tx.value.1;
      EndOneKeeps(before, id, outcome, at);
      return Ok(Announcement(raw, outcome, at));
    }

    /** The intent on a running row; one already there must be the same. */
    method StoreIntent(id: string, raw: Delegation, expected: nat, reason: string, at: nat) returns (r: Result<(), StoreError>)
      requires Valid(Contents()) && id in delegations && delegations[id] == raw && raw.status.IsRunning?
      requires raw.generation == expected && raw.updated <= at && ValidDetail(reason)
      modifies this`delegations
      ensures r.Ok? <==> MayCancel(raw, expected, reason, at)
      ensures delegations == if r.Ok? then old(delegations)[id := Intended(raw, reason, at)] else old(delegations)
      ensures r.Err? ==> !r.error.Storage? && !r.error.GenerationConflict?
    {
      assert DelegationOk(sessions.Keys, id, raw);
      var _ :- EnsureActiveLease(raw, at);
      if raw.reason.Some? && raw.requested.Some? {
        if raw.reason.value != reason { return Err(NotClaimable("cancellation_requested")); }
      } else if raw.reason.None? && raw.requested.None? {
        IntendedIsLawful(raw, expected, reason, at);
        var row := raw.(reason := Some(reason), requested := Some(at), updated := at);
        var tx := UpdateDelegation(delegations, id, row);
        if tx.Err? { return Err(Storage); }
        delegations := tx.value;
      } else {
        return Err(Invalid);
      }
      return Ok(());
    }

    method Cancel(id: string, expected: nat, reason: string, at: nat) returns (r: Result<Snapshot, StoreError>)
      requires Valid(Contents())
      modifies this`delegations, this`outbox
      ensures Valid(Contents()) && Next(old(Contents()), Op.Cancel(id, expected, reason, at), Contents())
      ensures r.Ok? <==> Enabled(old(Contents()), Op.Cancel(id, expected, reason, at))
      ensures r.Ok? ==> r == Load(delegations[id])
      ensures r.Ok? && old(delegations)[id].status.IsPending? ==>
                r.value.state == Terminal(Outcome.Cancelled(reason), at)
      ensures r.Ok? && !old(delegations)[id].status.IsPending? ==>
                && r.value.generation == expected && r.value.state.Running?
                && r.value.state.cancellation.Some? && r.value.state.cancellation.value.reason == reason
      ensures r.Err? ==> !r.error.Storage?
      ensures id in old(delegations) ==>
                (r.Err? && r.error.GenerationConflict? <==>
                   ValidDetail(reason) && old(delegations)[id].generation != expected)
    {
      ghost var before := Contents();
      if !ValidDetail(reason) { return Err(Invalid); }
      var raw :- LoadRaw(id);
      assert DelegationOk(sessions.Keys, id, raw);
      var _ :- EnsureGeneration(raw, expected);
      var _ :- EnsureMonotonic(raw, at);
      if raw.status.IsPending? {
        if MAX_I64 < at { return Err(Invalid); }
        var ended := CommitTerminal(id, raw, Outcome.Cancelled(reason), at);
        if ended.Err? { return Err(Invalid); }
      } else if raw.status.IsRunning? {
        var _ :- StoreIntent(id, raw, expected, reason, at);
      } else {
        return Err(NotClaimable(""));
      }
      assert delegations[id] == Cancelling(before, id, reason, at).delegations[id];
      NextKeepsValid(before, Op.Cancel(id, expected, reason, at), Contents());
      assert DelegationOk(sessions.Keys, id, delegations[id]);
      LawfulRowLoads(delegations[id]);
      return Load(delegations[id]);
    }

    method Finish(id: string, expected: nat, fence: nat, outcome: Outcome, at: nat)
      returns (r: Result<Completion, StoreError>)
      requires Valid(Contents())
      modifies this`delegations, this`outbox
      ensures Valid(Contents()) && Next(old(Contents()), Op.Finish(id, expected, fence, outcome, at), Contents())
      ensures r.Ok? <==> Enabled(old(Contents()), Op.Finish(id, expected, fence, outcome, at))
      ensures r.Ok? ==>
                && r.value == Completion(old(delegations)[id].spec.eventId, id, old(delegations)[id].spec, outcome, at)
                && delegations[id].terminal == Some(outcome) && delegations[id].generation == expected + 1
                && delegations[id].lease.None? && delegations[id].reason.None?
      ensures r.Err? ==> !r.error.Storage?
    {
      if !ValidOutcome(outcome) { return Err(Invalid); }
      var raw :- LoadRaw(id);
      assert DelegationOk(sessions.Keys, id, raw);
      var _ :- EnsureGeneration(raw, expected);
      var _ :- EnsureRunningFence(raw, fence);
      var _ :- EnsureMonotonic(raw, at);
      var _ :- EnsureActiveLease(raw, at);
      LegalTerminalMeaning(raw, outcome);
      var _ :- EnsureLegalTerminal(raw, outcome);
      r := CommitTerminal(id, raw, outcome, at);
    }

    method CompleteChild(id: string, expected: nat, fence: nat, childGeneration: nat,
                         chunk: seq<Conversations.Message>, summary: string, at: nat)
      returns (r: Result<Completion, StoreError>)
      requires Valid(Contents())
      modifies this`sessions, this`delegations, this`outbox
      ensures Valid(Contents())
      ensures Next(old(Contents()), Op.CompleteChild(id, expected, fence, childGeneration, chunk, summary, at), Contents())
      ensures r.Ok? <==> Enabled(old(Contents()), Op.CompleteChild(id, expected, fence, childGeneration, chunk, summary, at))
      ensures r.Ok? ==>
                && r.value == Completion(old(delegations)[id].spec.eventId, id, old(delegations)[id].spec, Completed(summary), at)
                && old(delegations)[id].reason.None?
                && delegations[id].terminal == Some(Completed(summary))
                && var child := old(delegations)[id].spec.child;
                   && child in old(sessions) && child in sessions
                   && sessions[child].messages == old(sessions)[child].messages + chunk
                   && sessions[child].generation == childGeneration + 1
      ensures r.Err? ==> !r.error.Storage?
    {
      ghost var before := Contents();
      var raw :- LoadRaw(id);
      assert DelegationOk(sessions.Keys, id, raw);
      var _ :- EnsureGeneration(raw, expected);
      var _ :- EnsureRunningFence(raw, fence);
      var _ :- EnsureMonotonic(raw, at);
      var _ :- EnsureActiveLease(raw, at);
      LegalTerminalMeaning(raw, Completed(summary));
      var _ :- EnsureLegalTerminal(raw, Completed(summary));
      var appended := AppendTurn(sessions, raw.spec.child, childGeneration, chunk);
      if appended.Err? { return Err(Invalid); }
      if MAX_I64 <= raw.generation { return Err(Invalid); }
      sessions := appended.value;
      AppendKeeps(before, raw.spec.child, childGeneration, chunk);
      r := CommitTerminal(id, raw, Completed(summary), at);
    }

    /** Takes over every running row whose lease has passed. */
    method ReconcileExpired(now: nat) returns (r: Result<seq<Completion>, StoreError>)
      requires Valid(Contents())
      modifies this`delegations, this`outbox
      ensures Valid(Contents()) && Next(old(Contents()), Op.ReconcileExpired(now), Contents())
      ensures r.Ok? <==> Enabled(old(Contents()), Op.ReconcileExpired(now))
      ensures r.Ok? ==> ReportsAll(old(delegations), ExpiredOutcomes(old(Contents()), now), now, r.value)
      ensures r.Err? ==> !r.error.Storage?
    {
      ghost var before := Contents();
      var at :- ToI64(now);
      var expired := row => Expired(row, now);
      var unknown := (row: Delegation) => if row.lease.Some? then ExpiryReason(row.lease.value) else "";
      var ids := Select(delegations, expired);
      ExpiredAreSelected(before, now, ids, expired, unknown);
      var settled :- SettleEach(Db(sessions, delegations, outbox, turns), ids, unknown, now);
      delegations, outbox := settled.0.delegations, settled.0.outbox;
      NextKeepsValid(before, Op.ReconcileExpired(now), Contents());
      ReportedAll(before.delegations, ids, ExpiredOutcomes(before, now), now, settled.1);
      return Ok(settled.1);
    }

    /** Settles every running row after a restart, whatever its lease says. */
    method ReconcileRunning(reason: string, now: nat) returns (r: Result<seq<Completion>, StoreError>)
      requires Valid(Contents())
      modifies this`delegations, this`outbox
      ensures Valid(Contents()) && Next(old(Contents()), Op.ReconcileRunning(reason, now), Contents())
      ensures r.Ok? <==> Enabled(old(Contents()), Op.ReconcileRunning(reason, now))
      ensures r.Ok? ==> ReportsAll(old(delegations), RunningOutcomes(old(Contents()), reason), now, r.value)
      ensures r.Err? ==> !r.error.Storage?
    {
      ghost var before := Contents();
      if !ValidDetail(reason) { return Err(Invalid); }
      var at :- ToI64(now);
      var running := (row: Delegation) => row.status.IsRunning?;
      var unknown := (row: Delegation) => reason;
      var ids := Select(delegations, running);
      RunningAreSelected(before, reason, ids, running, unknown);
      var settled :- SettleEach(Db(sessions, delegations, outbox, turns), ids, unknown, now);
      delegations, outbox := settled.0.delegations, settled.0.outbox;
      NextKeepsValid(before, Op.ReconcileRunning(reason, now), Contents());
      ReportedAll(before.delegations, ids, RunningOutcomes(before, reason), now, settled.1);
      return Ok(settled.1);
    }

    // ---- Completion delivery ---------------------------------------------------------

    method ClaimCompletion(event: string, claim: string, now: nat, expires: nat)
      returns (r: Result<Option<Completion>, StoreError>)
      requires Valid(Contents())
      modifies this`outbox
      ensures Valid(Contents()) && Next(old(Contents()), Op.ClaimCompletion(event, claim, now, expires), Contents())
      ensures r.Err? <==> expires <= now || MAX_I64 < expires
      ensures r.Ok? ==> (r.value.Some? <==> Enabled(old(Contents()), Op.ClaimCompletion(event, claim, now, expires)))
      ensures r == Ok(None) <==>
                && now < expires <= MAX_I64
                && (|| event !in old(outbox) || old(outbox)[event].delivered
                    || (old(outbox)[event].expires.Some? && now < old(outbox)[event].expires.value))
      ensures r.Ok? && r.value.Some? ==>
                && event in outbox && r.value.value == outbox[event].payload
                && outbox[event].claim == Some(claim) && outbox[event].expires == Some(expires)
                && event in old(outbox) && outbox[event].attempts == old(outbox)[event].attempts + 1
      ensures r.Err? ==> !r.error.Storage?
    {
      ghost var before := Contents();
      assert event in outbox ==> Announces(delegations, event, outbox[event]);
      if expires <= now { return Err(Invalid); }
      var deadline :- ToI64(expires);
      if event !in outbox || !Claimable(outbox[event], now) { return Ok(None); }
      var row := outbox[event].(claim := Some(claim), expires := Some(deadline), attempts := outbox[event].attempts + 1);
      var tx := UpdateDelivery(outbox, event, row);
      if tx.Err? { return Err(Storage); }
      outbox := tx.value;
      NextKeepsValid(before, Op.ClaimCompletion(event, claim, now, expires), Contents());
      return Ok(Some(outbox[event].payload));
    }

    method AcknowledgeCompletion(event: string, claim: string, at: nat) returns (r: Result<bool, StoreError>)
      requires Valid(Contents())
      modifies this`outbox
      ensures Valid(Contents()) && Next(old(Contents()), Op.AcknowledgeCompletion(event, claim, at), Contents())
      ensures r.Err? <==> MAX_I64 < at
      ensures r.Ok? ==> r.value == Enabled(old(Contents()), Op.AcknowledgeCompletion(event, claim, at))
      ensures r == Ok(true) ==> event in outbox && outbox[event].delivered && outbox[event].deliveredAt == Some(at)
      ensures r.Err? ==> !r.error.Storage?
    {
      ghost var before := Contents();
      var deliveredAt :- ToI64(at);
      if event !in outbox || !HeldBy(outbox[event], claim) || at < outbox[event].created { return Ok(false); }
      var row := outbox[event].(delivered := true, deliveredAt := Some(deliveredAt), claim := None, expires := None);
      var tx := UpdateDelivery(outbox, event, row);
      if tx.Err? { return Err(Storage); }
      outbox := tx.value;
      NextKeepsValid(before, Op.AcknowledgeCompletion(event, claim, at), Contents());
      return Ok(true);
    }

    method ReleaseCompletion(event: string, claim: string) returns (r: Result<bool, StoreError>)
      requires Valid(Contents())
      modifies this`outbox
      ensures Valid(Contents()) && Next(old(Contents()), Op.ReleaseCompletion(event, claim), Contents())
      ensures r == Ok(Enabled(old(Contents()), Op.ReleaseCompletion(event, claim)))
    {
      ghost var before := Contents();
      if event !in outbox || !HeldBy(outbox[event], claim) { return Ok(false); }
      assert Announces(delegations, event, outbox[event]);
      var row := outbox[event].(claim := None, expires := None);
      var tx := UpdateDelivery(outbox, event, row);
      if tx.Err? { return Ok(false); }
      outbox := tx.value;
      NextKeepsValid(before, Op.ReleaseCompletion(event, claim), Contents());
      return Ok(true);
    }

    // ---- Foreground turns ------------------------------------------------------------

    /** `start_with_deliveries`: accepts the turn and delivers its completions, or neither. */
    method StartTurn(turn: string, session: string, prompt: string, providerPrompt: string, expected: nat,
                     claims: seq<DeliveryClaim>, at: nat)
      returns (r: Result<Turn, StoreError>)
      requires Valid(Contents())
      modifies this`turns, this`outbox
      ensures Valid(Contents())
      ensures Next(old(Contents()), Op.StartTurn(turn, session, prompt, providerPrompt, expected, claims, at), Contents())
      ensures r.Ok? <==> Enabled(old(Contents()), Op.StartTurn(turn, session, prompt, providerPrompt, expected, claims, at))
      ensures r.Ok? ==>
                && r.value == Turn(session, expected, prompt, providerPrompt, IsActive, None, at, at)
                && turn in turns && turns[turn] == r.value && turn !in old(turns)
      ensures r.Err? ==> !r.error.Storage?
    {
      ghost var before := Contents();
      if Blank(prompt) || Blank(providerPrompt) { return Err(Invalid); }
      var startedAt :- ToI64(at);
      var snapshot :- LoadSession(sessions, session);
      assert SessionOk(session, snapshot);
      if snapshot.generation != expected { return Err(GenerationConflict(expected, snapshot.generation)); }
      if turn in turns { return Err(AlreadyExists(turn)); }
      if Busy(turns, session) { return Err(SessionBusy(session)); }
      var row := Turn(session, expected, prompt, providerPrompt, IsActive, None, startedAt, startedAt);
      var inserted := InsertTurn(sessions, turns, turn, row);
      if inserted.Err? { return Err(Storage); }
      var delivered :- DeliverClaims(Db(sessions, delegations, outbox, turns), session, claims, at);
      turns, outbox := inserted.value, delivered;
      NextKeepsValid(before, Op.StartTurn(turn, session, prompt, providerPrompt, expected, claims, at), Contents());
      return Ok(row);
    }

    method LoadTurn(turn: string, expected: nat, at: nat) returns (r: Result<Turn, StoreError>)
      ensures r.Ok? <==> MayClose(Contents(), turn, expected, at)
      ensures r.Ok? ==> r.value == turns[turn]
      ensures r.Err? ==> !r.error.Storage?
      ensures turn !in turns ==> r == Err(NotFound(turn))
      ensures turn in turns && turns[turn].generation == expected && !turns[turn].status.IsActive? ==>
                r == Err(NotRunning(turn))
    {
      if turn !in turns { return Err(NotFound(turn)); }
      var raw := turns[turn];
      if raw.generation != expected { return Err(GenerationConflict(expected, raw.generation)); }
      if !raw.status.IsActive? { return Err(NotRunning(turn)); }
      if MAX_I64 < at || at < raw.updated { return Err(Invalid); }
      return Ok(raw);
    }

    /** Appends the finished turn and closes the attempt in one transaction. */
    method CompleteTurn(turn: string, expected: nat, chunk: seq<Conversations.Message>, at: nat)
      returns (r: Result<Session, StoreError>)
      requires Valid(Contents())
      modifies this`sessions, this`turns
      ensures Valid(Contents()) && Next(old(Contents()), Op.CompleteTurn(turn, expected, chunk, at), Contents())
      ensures r.Ok? <==> Enabled(old(Contents()), Op.CompleteTurn(turn, expected, chunk, at))
      ensures r.Ok? ==>
                && turn in turns && turns[turn].terminal == Some(TurnCompleted) && turns[turn].updated == at
                && var session := turns[turn].session;
                   && session in sessions && r.value == sessions[session]
                   && session in old(sessions) && r.value.messages == old(sessions)[session].messages + chunk
                   && r.value.generation == expected + 1
      ensures r.Err? ==> !r.error.Storage?
    {
      ghost var before := Contents();
      var raw :- LoadTurn(turn, expected, at);
      assert TurnOk(sessions, raw);
      var appended :- AppendTurn(sessions, raw.session, expected, chunk);
      var row := raw.(status := IsDone, terminal := Some(TurnCompleted), updated := at);
      var tx := UpdateTurn(turns, turn, row);
      if tx.Err? { return Err(Storage); }
      sessions, turns := appended, tx.value;
      NextKeepsValid(before, Op.CompleteTurn(turn, expected, chunk, at), Contents());
      return Ok(sessions[raw.session]);
    }

    method TerminateTurn(turn: string, expected: nat, outcome: TurnOutcome, at: nat)
      returns (r: Result<Turn, StoreError>)
      requires Valid(Contents())
      modifies this`turns
      ensures Valid(Contents()) && Next(old(Contents()), Op.TerminateTurn(turn, expected, outcome, at), Contents())
      ensures r.Ok? <==> Enabled(old(Contents()), Op.TerminateTurn(turn, expected, outcome, at))
      ensures r.Ok? ==>
                && turn in turns && r.value == turns[turn]
                && r.value.terminal == Some(outcome) && r.value.updated == at
      ensures r.Err? ==> !r.error.Storage?
    {
      ghost var before := Contents();
      if outcome.TurnCompleted? { return Err(Invalid); }
      if !ValidDetail(outcome.reason) { return Err(Invalid); }
      var raw :- LoadTurn(turn, expected, at);
      assert TurnOk(sessions, raw);
      var session := LoadSession(sessions, raw.session);
      if session.Err? { return Err(Invalid); }
      if session.value.generation != expected { return Err(GenerationConflict(expected, session.value.generation)); }
      var row := raw.(status := TurnStatusOf(outcome), terminal := Some(outcome), updated := at);
      var tx := UpdateTurn(turns, turn, row);
      if tx.Err? { return Err(Storage); }
      turns := tx.value;
      NextKeepsValid(before, Op.TerminateTurn(turn, expected, outcome, at), Contents());
      return Ok(row);
    }

    method ReconcileTurns(reason: string, at: nat) returns (r: Result<set<string>, StoreError>)
      requires Valid(Contents())
      modifies this`turns
      ensures Valid(Contents()) && Next(old(Contents()), Op.ReconcileTurns(reason, at), Contents())
      ensures r.Ok? <==> Enabled(old(Contents()), Op.ReconcileTurns(reason, at))
      ensures r.Ok? ==> r.value == set id | id in old(turns) && old(turns)[id].status.IsActive?
      ensures r.Ok? ==>
                (forall id | id in old(turns) ::
                   && id in turns
                   && (id in r.value ==> turns[id].terminal == Some(TurnUnknown(reason)) && turns[id].updated == at)
                   && (id !in r.value ==> turns[id] == old(turns)[id]))
      ensures r.Err? ==> !r.error.Storage?
    {
      ghost var before := Contents();
      if !ValidDetail(reason) { return Err(Invalid); }
      var closedAt :- ToI64(at);
      var closed :- CloseEach(sessions, turns, reason, at);
      turns := closed.0;
      NextKeepsValid(before, Op.ReconcileTurns(reason, at), Contents());
      return Ok(closed.1);
    }
  }

  /** The guard on a worker's outcome, for rows the protocol can produce. */
  lemma LegalTerminalMeaning(raw: Delegation, outcome: Outcome)
    requires Lawful(raw)
    ensures EnsureLegalTerminal(raw, outcome).Ok? <==> LegalOutcome(raw, outcome)
    ensures EnsureLegalTerminal(raw, outcome).Err? ==> !EnsureLegalTerminal(raw, outcome).error.Storage?
  {
    if raw.reason.Some? {
      assert IntentOf(raw) == Ok(Some(Cancellation(raw.reason.value, raw.requested.value)));
    }
  }
}
