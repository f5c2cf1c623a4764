/** Every step keeps the database invariant, so no reachable state violates a schema
    constraint and the outbox always mirrors the finished delegations. */
module Invariance {
  import opened Basics
  import opened Tables
  import opened Protocol
  import Conversations

  // ---- Rewriting one live delegation -------------------------------------------------

  lemma RewriteKeepsRows(sessions: set<string>, table: Delegations, id: string, row: Delegation)
    requires DelegationsOk(sessions, table) && KeysUnique(table) && id in table
    requires row.spec == table[id].spec && Lawful(row)
    ensures DelegationsOk(sessions, table[id := row]) && KeysUnique(table[id := row])
  {
    var next := table[id := row];
    forall other | other in next ensures DelegationOk(sessions, other, next[other]) {
      assert DelegationOk(sessions, other, table[other]);
    }
    forall a, b | a in next && b in next && a != b ensures KeysDiffer(next[a], next[b]) {
      assert KeysDiffer(table[a], table[b]);
    }
  }

  lemma RewriteKeepsOutbox(table: Delegations, outbox: Outbox, id: string, row: Delegation)
    requires OutboxSound(table, outbox) && OutboxComplete(table, outbox) && id in table
    requires !table[id].Over() && !row.Over()
    ensures OutboxSound(table[id := row], outbox) && OutboxComplete(table[id := row], outbox)
  {
    var next := table[id := row];
    forall event | event in outbox ensures Announces(next, event, outbox[event]) {
      assert Announces(table, event, outbox[event]);
    }
    forall other | other in next ensures IsAnnounced(next[other], outbox) {
      assert IsAnnounced(table[other], outbox);
    }
  }

  /** Rewriting a live delegation lawfully, without finishing it, disturbs nothing else. */
  lemma RewriteKeeps(db: Db, id: string, row: Delegation)
    requires Valid(db) && id in db.delegations
    requires !db.delegations[id].Over() && !row.Over()
    requires row.spec == db.delegations[id].spec && Lawful(row)
    ensures Valid(db.(delegations := db.delegations[id := row]))
  {
    RewriteKeepsRows(db.sessions.Keys, db.delegations, id, row);
    RewriteKeepsOutbox(db.delegations, db.outbox, id, row);
  }

  // ---- Ending delegations ------------------------------------------------------------

  lemma KeysDifferAt(table: Delegations, a: string, b: string)
    requires KeysUnique(table) && a in table && b in table && a != b
    ensures KeysDiffer(table[a], table[b])
  {
  }

  /** A live delegation has not been announced: `insert_completion` cannot collide. */
  lemma EventFree(table: Delegations, outbox: Outbox, id: string)
    requires KeysUnique(table) && OutboxSound(table, outbox)
    requires id in table && !table[id].Over()
    ensures table[id].spec.eventId !in outbox
  {
    var event := table[id].spec.eventId;
    if event in outbox {
      assert Announces(table, event, outbox[event]);
      var owner := outbox[event].delegationId;
      KeysDifferAt(table, owner, id);
    }
  }

  lemma EndOneEnds(db: Db, id: string, outcome: Outcome, at: nat)
    requires KeysUnique(db.delegations) && OutboxSound(db.delegations, db.outbox)
    requires id in db.delegations && !db.delegations[id].Over()
    ensures Ends(db, map[id := outcome], at, EndOne(db, id, outcome, at))
  {
    EventFree(db.delegations, db.outbox, id);
    var ended := map[id := outcome];
    assert ended.Keys == {id};
    var next := EndOne(db, id, outcome, at);
    assert EventsOf(db.delegations, ended.Keys) == {db.delegations[id].spec.eventId};
    forall other | other in db.delegations ensures IsEnded(db.delegations, other, ended, at, next.delegations) {
    }
    assert Announced(db.delegations[id], ended[id], at, next.outbox);
  }

  ghost predicate AllLive(table: Delegations, ids: set<string>) {
    forall id {:trigger id in ids} | id in ids :: id in table && !table[id].Over()
  }

  lemma EndedIsLawful(row: Delegation, outcome: Outcome, at: nat)
    requires Lawful(row) && !row.Over() && MaySettle(row, at) && at <= MAX_I64
    ensures Lawful(Ended(row, outcome, at)) && Ended(row, outcome, at).Over()
  {
  }

  lemma EndsKeepsRows(sessions: set<string>, table: Delegations, ended: map<string, Outcome>, at: nat, next: Delegations)
    requires DelegationsOk(sessions, table) && at <= MAX_I64
    requires AllLive(table, ended.Keys) && AllMaySettle(table, ended.Keys, at)
    requires RowsEnded(table, ended, at, next)
    ensures DelegationsOk(sessions, next)
  {
    forall id | id in next ensures DelegationOk(sessions, id, next[id]) {
      assert DelegationOk(sessions, id, table[id]);
      assert IsEnded(table, id, ended, at, next);
      if id in ended {
        assert MaySettle(table[id], at);
        EndedIsLawful(table[id], ended[id], at);
      }
    }
  }

  lemma EndsKeepsKeys(table: Delegations, ended: map<string, Outcome>, at: nat, next: Delegations)
    requires KeysUnique(table) && RowsEnded(table, ended, at, next)
    ensures KeysUnique(next)
  {
    forall a, b | a in next && b in next && a != b ensures KeysDiffer(next[a], next[b]) {
      assert KeysDiffer(table[a], table[b]);
      assert IsEnded(table, a, ended, at, next) && IsEnded(table, b, ended, at, next);
    }
  }

  lemma OldAnnouncementStands(db: Db, ended: map<string, Outcome>, at: nat, next: Db, event: string)
    requires OutboxSound(db.delegations, db.outbox) && AllLive(db.delegations, ended.Keys)
    requires Ends(db, ended, at, next) && event in db.outbox
    ensures event in next.outbox && Announces(next.delegations, event, next.outbox[event])
  {
    assert Announces(db.delegations, event, db.outbox[event]);
    assert Survives(db.outbox, event, next.outbox);
    var owner := db.outbox[event].delegationId;
    assert owner !in ended.Keys;
    assert IsEnded(db.delegations, owner, ended, at, next.delegations);
  }

  lemma NewAnnouncementMirrors(db: Db, ended: map<string, Outcome>, at: nat, next: Db, id: string)
    requires DelegationsOk(db.sessions.Keys, db.delegations)
    requires Ends(db, ended, at, next) && id in ended && id in db.delegations
    ensures var event := db.delegations[id].spec.eventId;
            event in next.outbox && Announces(next.delegations, event, next.outbox[event])
  {
    assert DelegationOk(db.sessions.Keys, id, db.delegations[id]);
    assert Announced(db.delegations[id], ended[id], at, next.outbox);
    assert IsEnded(db.delegations, id, ended, at, next.delegations);
  }

  lemma EndsKeepsSound(db: Db, ended: map<string, Outcome>, at: nat, next: Db)
    requires DelegationsOk(db.sessions.Keys, db.delegations)
    requires OutboxSound(db.delegations, db.outbox) && AllLive(db.delegations, ended.Keys)
    requires Ends(db, ended, at, next)
    ensures OutboxSound(next.delegations, next.outbox)
  {
    forall event | event in next.outbox ensures Announces(next.delegations, event, next.outbox[event]) {
      if event in db.outbox {
        OldAnnouncementStands(db, ended, at, next, event);
      } else {
        assert event in EventsOf(db.delegations, ended.Keys);
        var id :| id in ended.Keys && id in db.delegations && db.delegations[id].spec.eventId == event;
        NewAnnouncementMirrors(db, ended, at, next, id);
      }
    }
  }

  lemma EndsKeepsComplete(db: Db, ended: map<string, Outcome>, at: nat, next: Db)
    requires OutboxComplete(db.delegations, db.outbox)
    requires Ends(db, ended, at, next)
    ensures OutboxComplete(next.delegations, next.outbox)
  {
    forall id | id in next.delegations ensures IsAnnounced(next.delegations[id], next.outbox) {
      assert IsEnded(db.delegations, id, ended, at, next.delegations);
      assert IsAnnounced(db.delegations[id], db.outbox);
      assert Survives(db.outbox, db.delegations[id].spec.eventId, next.outbox);
      if id in ended { assert Announced(db.delegations[id], ended[id], at, next.outbox); }
    }
  }

  /** Ending any set of live delegations, and announcing exactly those, keeps the invariant. */
  lemma EndsKeeps(db: Db, ended: map<string, Outcome>, at: nat, next: Db)
    requires Valid(db) && at <= MAX_I64
    requires AllLive(db.delegations, ended.Keys) && AllMaySettle(db.delegations, ended.Keys, at)
    requires Ends(db, ended, at, next)
    ensures Valid(next)
  {
    EndsKeepsRows(db.sessions.Keys, db.delegations, ended, at, next.delegations);
    EndsKeepsKeys(db.delegations, ended, at, next.delegations);
    EndsKeepsSound(db, ended, at, next);
    EndsKeepsComplete(db, ended, at, next);
  }

  lemma EndOneKeeps(db: Db, id: string, outcome: Outcome, at: nat)
    requires Valid(db) && at <= MAX_I64 && id in db.delegations
    requires !db.delegations[id].Over() && MaySettle(db.delegations[id], at)
    ensures Valid(EndOne(db, id, outcome, at))
  {
    EndOneEnds(db, id, outcome, at);
    EndsKeeps(db, map[id := outcome], at, EndOne(db, id, outcome, at));
  }

  // ---- Creating delegations ----------------------------------------------------------

  lemma CreatedKeepsRows(sessions: set<string>, table: Delegations, spec: Spec, now: nat)
    requires DelegationsOk(sessions, table) && KeysUnique(table)
    requires ValidSpec(spec) && now <= MAX_I64 && spec.parent in sessions && spec.child in sessions
    requires !EventTaken(table, spec.eventId) && !ChildTaken(table, spec.child)
    ensures DelegationsOk(sessions, table[spec.delegationId := NewDelegation(spec, now)])
    ensures KeysUnique(table[spec.delegationId := NewDelegation(spec, now)])
  {
    var row := NewDelegation(spec, now);
    var next := table[spec.delegationId := row];
    forall id | id in next ensures DelegationOk(sessions, id, next[id]) {
      if id != spec.delegationId { assert DelegationOk(sessions, id, table[id]); }
    }
    forall a, b | a in next && b in next && a != b ensures KeysDiffer(next[a], next[b]) {
      if a != spec.delegationId && b != spec.delegationId { assert KeysDiffer(table[a], table[b]); }
    }
  }

  lemma CreatedKeepsOutbox(table: Delegations, outbox: Outbox, spec: Spec, now: nat)
    requires OutboxSound(table, outbox) && OutboxComplete(table, outbox) && spec.delegationId !in table
    ensures OutboxSound(table[spec.delegationId := NewDelegation(spec, now)], outbox)
    ensures OutboxComplete(table[spec.delegationId := NewDelegation(spec, now)], outbox)
  {
    var next := table[spec.delegationId := NewDelegation(spec, now)];
    forall event | event in outbox ensures Announces(next, event, outbox[event]) {
      assert Announces(table, event, outbox[event]);
    }
    forall id | id in next ensures IsAnnounced(next[id], outbox) {
      if id != spec.delegationId { assert IsAnnounced(table[id], outbox); }
    }
  }

  lemma CreatedKeeps(db: Db, spec: Spec, now: nat)
    requires Valid(db) && ValidSpec(spec) && now <= MAX_I64
    requires !Collides(db.delegations, spec) && !ChildTaken(db.delegations, spec.child)
    requires spec.parent in db.sessions && spec.child in db.sessions
    ensures Valid(Created(db, spec, now))
  {
    CreatedKeepsRows(db.sessions.Keys, db.delegations, spec, now);
    CreatedKeepsOutbox(db.delegations, db.outbox, spec, now);
  }

  /** A child session that does not exist yet cannot already serve another delegation, which
      is why `create_with_child` never meets the UNIQUE child column. */
  lemma FreshChildIsFree(sessions: set<string>, table: Delegations, child: string)
    requires DelegationsOk(sessions, table) && child !in sessions
    ensures !ChildTaken(table, child)
  {
    forall id | id in table ensures table[id].spec.child != child {
      assert DelegationOk(sessions, id, table[id]);
    }
  }

  // ---- Sessions ----------------------------------------------------------------------

  ghost predicate Grows(sessions: Sessions, next: Sessions) {
    forall id {:trigger id in sessions} {:trigger id in next} | id in sessions ::
      id in next && sessions[id].generation <= next[id].generation
  }

  /** Sessions may gain rows and generations without disturbing the other tables. */
  lemma SessionsGrow(db: Db, sessions: Sessions)
    requires Valid(db) && SessionsOk(sessions) && Grows(db.sessions, sessions)
    ensures Valid(db.(sessions := sessions))
  {
    forall id | id in db.delegations ensures DelegationOk(sessions.Keys, id, db.delegations[id]) {
      assert DelegationOk(db.sessions.Keys, id, db.delegations[id]);
    }
    forall id | id in db.turns ensures TurnOk(sessions, db.turns[id]) {
      assert TurnOk(db.sessions, db.turns[id]);
    }
  }

  lemma AppendKeeps(db: Db, session: string, generation: nat, chunk: seq<Conversations.Message>)
    requires Valid(db) && MayAppend(db.sessions, session, generation, chunk)
    ensures Valid(Appended(db, session, chunk))
  {
    var row := db.sessions[session];
    assert SessionOk(session, row);
    Conversations.RevalidateChunkOnly(row.messages, chunk);
    var next := Appended(db, session, chunk).sessions;
    forall id | id in next ensures SessionOk(id, next[id]) {
      if id != session { assert SessionOk(id, db.sessions[id]); }
    }
    SessionsGrow(db, next);
  }

  lemma WithSessionKeeps(db: Db, config: SessionConfig)
    requires Valid(db) && config.sessionId !in db.sessions
    ensures Valid(WithSession(db, config))
  {
    var next := WithSession(db, config).sessions;
    forall id | id in next ensures SessionOk(id, next[id]) {
      if id != config.sessionId { assert SessionOk(id, db.sessions[id]); }
    }
    SessionsGrow(db, next);
  }

  // ---- Deliveries --------------------------------------------------------------------

  /** Delivery bookkeeping may change freely as long as what is announced stays. */
  predicate SameAnnouncement(a: Delivery, b: Delivery) {
    a.delegationId == b.delegationId && a.payload == b.payload && a.created == b.created
  }

  ghost predicate Rebooks(outbox: Outbox, next: Outbox) {
    && next.Keys == outbox.Keys
    && forall event {:trigger outbox[event]} {:trigger next[event]} | event in outbox ::
         SameAnnouncement(outbox[event], next[event])
         && (DeliveryCheck(outbox[event]) ==> DeliveryCheck(next[event]))
  }

  lemma DeliveriesKeep(db: Db, outbox: Outbox)
    requires Valid(db) && Rebooks(db.outbox, outbox)
    ensures Valid(db.(outbox := outbox))
  {
    forall event | event in outbox ensures Announces(db.delegations, event, outbox[event]) {
      assert Announces(db.delegations, event, db.outbox[event]);
    }
    forall id | id in db.delegations ensures IsAnnounced(db.delegations[id], outbox) {
      assert IsAnnounced(db.delegations[id], db.outbox);
    }
  }

  // ---- Foreground turns --------------------------------------------------------------

  lemma NewTurnKeeps(sessions: Sessions, turns: Turns, id: string, turn: Turn)
    requires TurnsOk(sessions, turns) && TurnsExclusive(turns) && id !in turns
    requires TurnOk(sessions, turn) && turn.status.IsActive?
    requires forall other | other in turns :: turns[other].session == turn.session ==> !turns[other].status.IsActive?
    ensures TurnsOk(sessions, turns[id := turn]) && TurnsExclusive(turns[id := turn])
  {
    var next := turns[id := turn];
    forall a, b | a in next && b in next && a != b ensures TurnsDiffer(next[a], next[b]) {
      if a != id && b != id { assert TurnsDiffer(turns[a], turns[b]); }
    }
    forall other | other in next ensures TurnOk(sessions, next[other]) {
      if other != id { assert TurnOk(sessions, turns[other]); }
    }
  }

  predicate ClosedWithoutCompleting(row: Turn, next: Turn) {
    && next.terminal.Some? && !next.terminal.value.TurnCompleted?
    && row.updated <= next.updated <= MAX_I64
    && next == Closed(row, next.terminal.value, next.updated)
  }

  ghost predicate Closes(turns: Turns, next: Turns) {
    && next.Keys == turns.Keys
    && forall id {:trigger turns[id]} {:trigger next[id]} | id in turns ::
         next[id] == turns[id] || ClosedWithoutCompleting(turns[id], next[id])
  }

  /** Closing attempts, each without completing it, keeps the turn table lawful. */
  lemma CloseKeeps(sessions: Sessions, turns: Turns, next: Turns)
    requires TurnsOk(sessions, turns) && TurnsExclusive(turns) && Closes(turns, next)
    ensures TurnsOk(sessions, next) && TurnsExclusive(next)
  {
    forall a, b | a in next && b in next && a != b ensures TurnsDiffer(next[a], next[b]) {
      assert TurnsDiffer(turns[a], turns[b]);
    }
    forall id | id in next ensures TurnOk(sessions, next[id]) {
      assert TurnOk(sessions, turns[id]);
    }
  }

  /** The appended generation step makes room for exactly one completed attempt. */
  lemma CompletedKeepsTurns(sessions: Sessions, grown: Sessions, turns: Turns, id: string, at: nat)
    requires TurnsOk(sessions, turns) && TurnsExclusive(turns) && Grows(sessions, grown)
    requires id in turns && turns[id].status.IsActive? && turns[id].updated <= at <= MAX_I64
    requires turns[id].session in sessions
    requires turns[id].generation == sessions[turns[id].session].generation < grown[turns[id].session].generation
    ensures TurnsOk(grown, turns[id := Closed(turns[id], TurnCompleted, at)])
    ensures TurnsExclusive(turns[id := Closed(turns[id], TurnCompleted, at)])
  {
    var next := turns[id := Closed(turns[id], TurnCompleted, at)];
    forall a, b | a in next && b in next && a != b ensures TurnsDiffer(next[a], next[b]) {
      assert TurnsDiffer(turns[a], turns[b]);
      assert TurnOk(sessions, turns[a]) && TurnOk(sessions, turns[b]);
    }
    forall other | other in next ensures TurnOk(grown, next[other]) {
      assert TurnOk(sessions, turns[other]);
    }
  }

  lemma CompletedKeeps(db: Db, id: string, generation: nat, chunk: seq<Conversations.Message>, at: nat)
    requires Valid(db) && MayCompleteTurn(db, id, generation, chunk, at)
    ensures Valid(CloseOne(Appended(db, db.turns[id].session, chunk), id, TurnCompleted, at))
  {
    var session := db.turns[id].session;
    AppendKeeps(db, session, generation, chunk);
    var grown := Appended(db, session, chunk);
    CompletedKeepsTurns(db.sessions, grown.sessions, db.turns, id, at);
  }

  // ---- All steps ---------------------------------------------------------------------

  lemma ClaimedIsLawful(row: Delegation, generation: nat, worker: string, now: nat, deadline: nat)
    requires Lawful(row) && MayClaim(row, generation, now, deadline)
    ensures Lawful(Claimed(row, worker, now, deadline))
  {
  }

  lemma RenewedIsLawful(row: Delegation, generation: nat, fence: nat, now: nat, deadline: nat)
    requires Lawful(row) && MayRenew(row, generation, fence, now, deadline)
    ensures Lawful(Renewed(row, now, deadline))
  {
  }

  lemma IntendedIsLawful(row: Delegation, generation: nat, reason: string, at: nat)
    requires Lawful(row) && MayCancel(row, generation, reason, at) && row.status.IsRunning?
    ensures Lawful(Intended(row, reason, at))
  {
  }

  lemma OwnerStepKeeps(db: Db, op: Op, next: Db)
    requires Valid(db) && Enabled(db, op) && Takes(db, op, next)
    requires op.Claim? || op.Heartbeat?
    ensures Valid(next)
  {
    var row := db.delegations[op.id];
    assert DelegationOk(db.sessions.Keys, op.id, row);
    if op.Claim? {
      ClaimedIsLawful(row, op.generation, op.worker, op.now, op.deadline);
    } else {
      RenewedIsLawful(row, op.generation, op.fence, op.now, op.deadline);
    }
    RewriteKeeps(db, op.id, next.delegations[op.id]);
  }

  lemma CancelKeeps(db: Db, id: string, generation: nat, reason: string, at: nat)
    requires Valid(db) && id in db.delegations && MayCancel(db.delegations[id], generation, reason, at)
    ensures Valid(Cancelling(db, id, reason, at))
  {
    var row := db.delegations[id];
    assert DelegationOk(db.sessions.Keys, id, row);
    if row.status.IsPending? {
      EndOneKeeps(db, id, Outcome.Cancelled(reason), at);
    } else {
      IntendedIsLawful(row, generation, reason, at);
      RewriteKeeps(db, id, Intended(row, reason, at));
    }
  }

  lemma FinishKeeps(db: Db, id: string, generation: nat, fence: nat, outcome: Outcome, at: nat)
    requires Valid(db) && id in db.delegations && MayFinish(db.delegations[id], generation, fence, outcome, at)
    ensures Valid(EndOne(db, id, outcome, at))
  {
    assert DelegationOk(db.sessions.Keys, id, db.delegations[id]);
    EndOneKeeps(db, id, outcome, at);
  }

  lemma CompleteChildKeeps(db: Db, op: Op, next: Db)
    requires Valid(db) && op.CompleteChild? && Enabled(db, op) && Takes(db, op, next)
    ensures Valid(next)
  {
    var child := db.delegations[op.id].spec.child;
    AppendKeeps(db, child, op.childGeneration, op.chunk);
    FinishKeeps(Appended(db, child, op.chunk), op.id, op.generation, op.fence, Completed(op.summary), op.at);
  }

  lemma ReconcileKeeps(db: Db, op: Op, next: Db)
    requires Valid(db) && Enabled(db, op) && Takes(db, op, next)
    requires op.ReconcileExpired? || op.ReconcileRunning?
    ensures Valid(next)
  {
    match op
    case ReconcileExpired(now) => EndsKeeps(db, ExpiredOutcomes(db, now), now, next);
    case ReconcileRunning(reason, now) => EndsKeeps(db, RunningOutcomes(db, reason), now, next);
  }

  lemma DeliveryStepKeeps(db: Db, op: Op, next: Db)
    requires Valid(db) && Enabled(db, op) && Takes(db, op, next)
    requires op.ClaimCompletion? || op.AcknowledgeCompletion? || op.ReleaseCompletion?
    ensures Valid(next)
  {
    DeliveriesKeep(db, next.outbox);
  }

  lemma StartKeeps(db: Db, op: Op, next: Db)
    requires Valid(db) && op.StartTurn? && Enabled(db, op) && Takes(db, op, next)
    ensures Valid(next)
  {
    var turn := NewTurn(op.session, op.prompt, op.providerPrompt, op.generation, op.at);
    assert SessionOk(op.session, db.sessions[op.session]);
    NewTurnKeeps(db.sessions, db.turns, op.turn, turn);
    DeliveriesKeep(db, next.outbox);
  }

  lemma TurnStepKeeps(db: Db, op: Op, next: Db)
    requires Valid(db) && Enabled(db, op) && Takes(db, op, next)
    requires op.TerminateTurn? || op.ReconcileTurns?
    ensures Valid(next)
  {
    CloseKeeps(db.sessions, db.turns, next.turns);
  }

  lemma CreationKeeps(db: Db, op: Op, next: Db)
    requires Valid(db) && Enabled(db, op) && Takes(db, op, next)
    requires op.CreateSession? || op.Append? || op.Create? || op.CreateWithChild?
    ensures Valid(next)
  {
    match op
    case CreateSession(config) => WithSessionKeeps(db, config);
    case Append(session, generation, chunk) => AppendKeeps(db, session, generation, chunk);
    case Create(spec, now) => CreatedKeeps(db, spec, now);
    case CreateWithChild(config, spec, now) =>
      WithSessionKeeps(db, config);
      FreshChildIsFree(db.sessions.Keys, db.delegations, spec.child);
      CreatedKeeps(WithSession(db, config), spec, now);
  }

  predicate OnDelegations(op: Op) {
    || op.Claim? || op.Heartbeat? || op.Cancel? || op.Finish? || op.CompleteChild? || op.ReconcileExpired? || op.ReconcileRunning?
  }

  lemma DelegationStepKeeps(db: Db, op: Op, next: Db)
    requires Valid(db) && Enabled(db, op) && Takes(db, op, next) && OnDelegations(op)
    ensures Valid(next)
  {
    if op.Claim? || op.Heartbeat? {
      OwnerStepKeeps(db, op, next);
    } else if op.Cancel? {
      CancelKeeps(db, op.id, op.generation, op.reason, op.at);
    } else if op.Finish? {
      FinishKeeps(db, op.id, op.generation, op.fence, op.outcome, op.at);
    } else if op.CompleteChild? {
      CompleteChildKeeps(db, op, next);
    } else {
      ReconcileKeeps(db, op, next);
    }
  }

  lemma OtherStepKeeps(db: Db, op: Op, next: Db)
    requires Valid(db) && Enabled(db, op) && Takes(db, op, next) && !OnDelegations(op)
    ensures Valid(next)
  {
    if op.ClaimCompletion? || op.AcknowledgeCompletion? || op.ReleaseCompletion? {
      DeliveryStepKeeps(db, op, next);
    } else if op.StartTurn? {
      StartKeeps(db, op, next);
    } else if op.CompleteTurn? {
      CompletedKeeps(db, op.turn, op.generation, op.chunk, op.at);
    } else if op.TerminateTurn? || op.ReconcileTurns? {
      TurnStepKeeps(db, op, next);
    } else {
      CreationKeeps(db, op, next);
    }
  }

  /** The inductive step: any operation, accepted or refused, keeps the invariant. */
  lemma NextKeepsValid(db: Db, op: Op, next: Db)
    requires Valid(db) && Next(db, op, next)
    ensures Valid(next)
  {
    if Enabled(db, op) {
      if OnDelegations(op) {
        DelegationStepKeeps(db, op, next);
      } else {
        OtherStepKeeps(db, op, next);
      }
    }
  }

  lemma EmptyIsValid()
    ensures Valid(EMPTY)
  {
  }
}
