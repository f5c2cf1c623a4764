/** Properties of whole runs: any number of gateways, workers, operators and restarted hosts
    attempt operations one transaction at a time. A crash is a run that simply stops. */
module History {
  import opened Basics
  import opened Tables
  import opened Protocol
  import opened Invariance
  import Conversations

  ghost predicate StepAt(states: seq<Db>, ops: seq<Op>, i: int) {
    0 <= i < |ops| && i + 1 < |states| && Next(states[i], ops[i], states[i + 1])
  }

  ghost predicate Behavior(states: seq<Db>, ops: seq<Op>) {
    && |states| == |ops| + 1
    && Valid(states[0])
    && forall i {:trigger StepAt(states, ops, i)} :: 0 <= i < |ops| ==> StepAt(states, ops, i)
  }

  /** Did step `i` carry out its operation? */
  ghost predicate Accepted(states: seq<Db>, ops: seq<Op>, i: int) {
    0 <= i < |ops| && i < |states| && Enabled(states[i], ops[i])
  }

  lemma {:induction false} AlwaysValid(states: seq<Db>, ops: seq<Op>, i: nat)
    requires Behavior(states, ops) && i < |states|
    ensures Valid(states[i])
  {
    if i > 0 {
      AlwaysValid(states, ops, i - 1);
      assert StepAt(states, ops, i - 1);
      NextKeepsValid(states[i - 1], ops[i - 1], states[i]);
    }
  }

  lemma Extend(states: seq<Db>, ops: seq<Op>, op: Op, next: Db)
    requires Behavior(states, ops) && Next(states[|states| - 1], op, next)
    ensures Behavior(states + [next], ops + [op])
  {
    var states', ops' := states + [next], ops + [op];
    forall i {:trigger StepAt(states', ops', i)} | 0 <= i < |ops'| ensures StepAt(states', ops', i) {
      if i < |ops| { assert StepAt(states, ops, i); }
    }
  }

  // ---- The life of a delegation ------------------------------------------------------

  /** What may have become of a row that once read `a`. */
  ghost predicate Evolves(a: Delegation, b: Delegation) {
    && b.spec == a.spec && b.created == a.created
    && a.generation <= b.generation && a.updated <= b.updated
    && (a.Over() ==> b == a)
    && (!a.status.IsPending? ==> !b.status.IsPending? && b.worker == a.worker && b.fence == a.fence)
    && (a.status.IsRunning? && b.status.IsRunning? ==> LeaseGrows(a, b))
    && (a.status.IsRunning? && a.reason.Some? ==> IntentSticks(a, b))
    && (a.status.IsPending? && b.Over() && b.worker.None? ==> b.terminal.Some? && b.terminal.value.Cancelled?)
  }

  /** A later generation of a running row holds a strictly later deadline. */
  predicate LeaseGrows(a: Delegation, b: Delegation) {
    && a.lease.Some? && b.lease.Some?
    && a.lease.value <= b.lease.value
    && (a.generation < b.generation ==> a.lease.value < b.lease.value)
  }

  /** Stored intent stays as written until the row ends, and decides how it ends. */
  predicate IntentSticks(a: Delegation, b: Delegation) {
    if b.status.IsRunning? then b.reason == a.reason && b.requested == a.requested
    else a.reason.Some? && b.terminal == Some(Outcome.Cancelled(a.reason.value))
  }

  lemma EvolvesTransitively(a: Delegation, b: Delegation, c: Delegation)
    requires Evolves(a, b) && Evolves(b, c)
    requires Lawful(a) && Lawful(b) && Lawful(c)
    ensures Evolves(a, c)
  {
  }

  lemma OwnerStepEvolves(db: Db, op: Op, next: Db)
    requires Valid(db) && Enabled(db, op) && Takes(db, op, next)
    requires op.Claim? || op.Heartbeat? || op.Cancel? || op.Finish? || op.CompleteChild?
    ensures op.id in db.delegations && op.id in next.delegations
    ensures Evolves(db.delegations[op.id], next.delegations[op.id])
    ensures forall id | id in db.delegations && id != op.id ::
              id in next.delegations && next.delegations[id] == db.delegations[id]
  {
    assert DelegationOk(db.sessions.Keys, op.id, db.delegations[op.id]);
  }

  lemma ReconcileEvolves(db: Db, ended: map<string, Outcome>, at: nat, next: Db, id: string)
    requires Valid(db) && Ends(db, ended, at, next) && id in db.delegations
    requires AllMaySettle(db.delegations, ended.Keys, at)
    requires id in ended ==> exists unknown ::
               db.delegations[id].status.IsRunning? && ended[id] == Reconciled(db.delegations[id], unknown)
    ensures id in next.delegations && Evolves(db.delegations[id], next.delegations[id])
  {
    assert DelegationOk(db.sessions.Keys, id, db.delegations[id]);
    assert IsEnded(db.delegations, id, ended, at, next.delegations);
    if id in ended { assert MaySettle(db.delegations[id], at); }
  }

  /** The steps that touch no existing delegation row. */
  predicate LeavesRows(op: Op) {
    || op.CreateSession? || op.Append? || op.Create? || op.CreateWithChild?
    || op.ClaimCompletion? || op.AcknowledgeCompletion? || op.ReleaseCompletion?
    || op.StartTurn? || op.CompleteTurn? || op.TerminateTurn? || op.ReconcileTurns?
  }

  lemma LeftAlone(db: Db, op: Op, next: Db, id: string)
    requires Enabled(db, op) && Takes(db, op, next) && LeavesRows(op) && id in db.delegations
    ensures id in next.delegations && next.delegations[id] == db.delegations[id]
  {
  }

  /** One step moves a delegation only along its life cycle. */
  lemma StepEvolves(db: Db, op: Op, next: Db, id: string)
    requires Valid(db) && Next(db, op, next) && id in db.delegations
    ensures id in next.delegations && Evolves(db.delegations[id], next.delegations[id])
  {
    assert DelegationOk(db.sessions.Keys, id, db.delegations[id]);
    if Enabled(db, op) {
      if LeavesRows(op) {
        LeftAlone(db, op, next, id);
      } else if op.ReconcileExpired? {
        ReconcileEvolves(db, ExpiredOutcomes(db, op.now), op.now, next, id);
      } else if op.ReconcileRunning? {
        ReconcileEvolves(db, RunningOutcomes(db, op.reason), op.now, next, id);
      } else {
        OwnerStepEvolves(db, op, next);
      }
    }
  }

  lemma {:induction false} EvolvesOverRun(states: seq<Db>, ops: seq<Op>, i: nat, j: nat, id: string)
    requires Behavior(states, ops) && i <= j < |states| && id in states[i].delegations
    ensures id in states[j].delegations && Evolves(states[i].delegations[id], states[j].delegations[id])
    decreases j
  {
    AlwaysValid(states, ops, i);
    assert DelegationOk(states[i].sessions.Keys, id, states[i].delegations[id]);
    if i < j {
      EvolvesOverRun(states, ops, i, j - 1, id);
      AlwaysValid(states, ops, j - 1);
      AlwaysValid(states, ops, j);
      assert StepAt(states, ops, j - 1);
      StepEvolves(states[j - 1], ops[j - 1], states[j], id);
      LawfulAt(states[j - 1], id);
      LawfulAt(states[j], id);
      EvolvesTransitively(states[i].delegations[id], states[j - 1].delegations[id], states[j].delegations[id]);
    }
  }

  lemma LawfulAt(db: Db, id: string)
    requires Valid(db) && id in db.delegations
    ensures Lawful(db.delegations[id]) && db.delegations[id].spec.delegationId == id
  {
    assert DelegationOk(db.sessions.Keys, id, db.delegations[id]);
  }

  ghost predicate ClaimsAt(states: seq<Db>, ops: seq<Op>, i: int, id: string) {
    Accepted(states, ops, i) && ops[i].Claim? && ops[i].id == id
  }

  /** However many supervisors race, a delegation is claimed at most once ever. */
  lemma ClaimedAtMostOnce(states: seq<Db>, ops: seq<Op>, i: nat, j: nat, id: string)
    requires Behavior(states, ops)
    requires ClaimsAt(states, ops, i, id) && ClaimsAt(states, ops, j, id)
    ensures i == j
  {
    if i != j {
      var a, b := if i < j then i else j, if i < j then j else i;
      assert StepAt(states, ops, a);
      EvolvesOverRun(states, ops, a + 1, b, id);
    }
  }

  ghost predicate FinishesAt(states: seq<Db>, i: int, id: string) {
    && 0 <= i && i + 1 < |states|
    && id in states[i].delegations && !states[i].delegations[id].Over()
    && id in states[i + 1].delegations && states[i + 1].delegations[id].Over()
  }

  /** A delegation reaches a terminal at most once. */
  lemma FinishedAtMostOnce(states: seq<Db>, ops: seq<Op>, i: nat, j: nat, id: string)
    requires Behavior(states, ops)
    requires FinishesAt(states, i, id) && FinishesAt(states, j, id)
    ensures i == j
  {
    if i != j {
      var a, b := if i < j then i else j, if i < j then j else i;
      EvolvesOverRun(states, ops, a + 1, b, id);
    }
  }

  /** Once finished, the row never changes again, and its announcement stands. */
  lemma FinishedForever(states: seq<Db>, ops: seq<Op>, i: nat, j: nat, id: string)
    requires Behavior(states, ops) && i <= j < |states|
    requires id in states[i].delegations && states[i].delegations[id].Over()
    ensures id in states[j].delegations && states[j].delegations[id] == states[i].delegations[id]
    ensures var row := states[i].delegations[id];
            && row.spec.eventId in states[j].outbox
            && row.terminal.Some?
            && states[j].outbox[row.spec.eventId].payload == Announcement(row, row.terminal.value, row.updated)
  {
    EvolvesOverRun(states, ops, i, j, id);
    AlwaysValid(states, ops, j);
    AnnouncementOf(states[j], id);
  }

  /** The outbox row of a finished delegation: the one row, found under its event. */
  lemma AnnouncementOf(db: Db, id: string)
    requires Valid(db) && id in db.delegations && db.delegations[id].Over()
    ensures var row := db.delegations[id];
            && row.spec.eventId in db.outbox
            && row.terminal.Some?
            && db.outbox[row.spec.eventId].payload == Announcement(row, row.terminal.value, row.updated)
            && forall event :: event in db.outbox && db.outbox[event].delegationId == id ==> event == row.spec.eventId
  {
    var row := db.delegations[id];
    LawfulAt(db, id);
    assert IsAnnounced(row, db.outbox);
    var event := row.spec.eventId;
    assert Announces(db.delegations, event, db.outbox[event]);
    var owner := db.outbox[event].delegationId;
    if owner != id {
      KeysDifferAt(db.delegations, owner, id);
    }
    forall other | other in db.outbox && db.outbox[other].delegationId == id ensures other == event {
      assert Announces(db.delegations, other, db.outbox[other]);
    }
  }

  /** The outbox and the life cycle agree: an event has a row if and only if its delegation
      is over. */
  lemma OutboxMirrorsLifecycle(db: Db, id: string)
    requires Valid(db) && id in db.delegations
    ensures db.delegations[id].spec.eventId in db.outbox <==> db.delegations[id].Over()
  {
    if db.delegations[id].Over() {
      AnnouncementOf(db, id);
    } else {
      EventFree(db.delegations, db.outbox, id);
    }
  }

  // ---- Cancellation ------------------------------------------------------------------

  /** Intent stored on a running delegation survives every continuation: heartbeats keep it,
      a second reason cannot replace it, and the only terminal left is `Cancelled` for it. */
  lemma CancellationIsSticky(states: seq<Db>, ops: seq<Op>, i: nat, j: nat, id: string)
    requires Behavior(states, ops) && i <= j < |states|
    requires id in states[i].delegations
    requires states[i].delegations[id].status.IsRunning? && states[i].delegations[id].reason.Some?
    ensures id in states[j].delegations
    ensures var a, b := states[i].delegations[id], states[j].delegations[id];
            || (b.status.IsRunning? && b.reason == a.reason && b.requested == a.requested && b.fence == a.fence)
            || (b.Over() && b.terminal == Some(Outcome.Cancelled(a.reason.value)))
  {
    EvolvesOverRun(states, ops, i, j, id);
  }

  /** The row ended `Cancelled`, for the intent that was stored on it. */
  predicate CancelledAsAsked(row: Delegation, next: Delegation) {
    next.terminal.Some? && next.terminal.value.Cancelled? && row.reason == Some(next.terminal.value.reason)
  }

  lemma OwnerToCancelled(db: Db, op: Op, next: Db)
    requires Valid(db) && Enabled(db, op) && Takes(db, op, next)
    requires op.Claim? || op.Heartbeat? || op.Cancel? || op.Finish? || op.CompleteChild?
    requires op.id in db.delegations && db.delegations[op.id].status.IsRunning?
    requires op.id in next.delegations && next.delegations[op.id].status.IsCancelled?
    ensures CancelledAsAsked(db.delegations[op.id], next.delegations[op.id])
  {
  }

  lemma ReconcileToCancelled(table: Delegations, ended: map<string, Outcome>, at: nat, next: Delegations, id: string, unknown: string)
    requires RowsEnded(table, ended, at, next)
    requires id in table && table[id].status.IsRunning? && id in next && next[id].status.IsCancelled?
    requires id in ended ==> ended[id] == Reconciled(table[id], unknown)
    ensures CancelledAsAsked(table[id], next[id])
  {
    assert IsEnded(table, id, ended, at, next);
  }

  lemma StepToCancelled(db: Db, op: Op, next: Db, id: string)
    requires Valid(db) && Next(db, op, next)
    requires id in db.delegations && db.delegations[id].status.IsRunning?
    requires id in next.delegations && next.delegations[id].status.IsCancelled?
    ensures CancelledAsAsked(db.delegations[id], next.delegations[id])
  {
    if Enabled(db, op) {
      if LeavesRows(op) {
        LeftAlone(db, op, next, id);
      } else if op.ReconcileExpired? {
        var unknown := if db.delegations[id].lease.Some? then ExpiryReason(db.delegations[id].lease.value) else "";
        ReconcileToCancelled(db.delegations, ExpiredOutcomes(db, op.now), op.now, next.delegations, id, unknown);
      } else if op.ReconcileRunning? {
        ReconcileToCancelled(db.delegations, RunningOutcomes(db, op.reason), op.now, next.delegations, id, op.reason);
      } else {
        OwnerStepEvolves(db, op, next);
        if op.id == id { OwnerToCancelled(db, op, next); }
      }
    }
  }

  /** A claimed run ends `Cancelled` only if an operator's intent was durable before. */
  lemma {:induction false} CancelledNeedsIntent(states: seq<Db>, ops: seq<Op>, i: nat, j: nat, id: string)
    returns (k: nat)
    requires Behavior(states, ops) && i < j < |states|
    requires id in states[i].delegations && states[i].delegations[id].status.IsRunning?
    requires id in states[j].delegations && states[j].delegations[id].status.IsCancelled?
    ensures i <= k < j && id in states[k].delegations && states[k].delegations[id].status.IsRunning?
    ensures states[j].delegations[id].terminal.Some? && states[j].delegations[id].terminal.value.Cancelled?
    ensures states[k].delegations[id].reason == Some(states[j].delegations[id].terminal.value.reason)
    decreases j
  {
    EvolvesOverRun(states, ops, i, j - 1, id);
    AlwaysValid(states, ops, j - 1);
    assert StepAt(states, ops, j - 1);
    StepEvolves(states[j - 1], ops[j - 1], states[j], id);
    if states[j - 1].delegations[id].status.IsRunning? {
      k := j - 1;
      StepToCancelled(states[j - 1], ops[j - 1], states[j], id);
    } else {
      k := CancelledNeedsIntent(states, ops, i, j - 1, id);
    }
  }

  /** Storing intent leaves the worker's authority in force: same generation, same fence. */
  lemma IntentKeepsAuthority(db: Db, op: Op, next: Db)
    requires Valid(db) && op.Cancel? && Next(db, op, next)
    requires op.id in db.delegations && db.delegations[op.id].status.IsRunning?
    ensures op.id in next.delegations
    ensures var a, b := db.delegations[op.id], next.delegations[op.id];
            b.generation == a.generation && b.fence == a.fence && b.worker == a.worker && b.lease == a.lease
  {
  }

  // ---- Leases ------------------------------------------------------------------------

  /** At any instant the row is either the owner's to finish or the reconciler's to take. */
  lemma OwnerOrReconciler(db: Db, id: string, outcome: Outcome, at: nat)
    requires Valid(db) && id in db.delegations && db.delegations[id].status.IsRunning?
    requires db.delegations[id].generation < MAX_I64 && db.delegations[id].updated <= at
    requires ValidOutcome(outcome) && LegalOutcome(db.delegations[id], outcome)
    ensures var row := db.delegations[id];
            MayFinish(row, row.generation, row.fence, outcome, at) <==> !Expired(row, at)
  {
    LawfulAt(db, id);
  }

  /** The timestamp check of `reconcile_expired` never refuses: an expired row was last
      written strictly before its deadline. Only an exhausted generation counter can. */
  lemma ExpiryIsNeverSkewed(db: Db, now: nat)
    requires Valid(db) && now <= MAX_I64
    ensures Enabled(db, Op.ReconcileExpired(now)) <==>
              forall id | id in db.delegations && Expired(db.delegations[id], now) :: db.delegations[id].generation < MAX_I64
  {
    var ended := ExpiredOutcomes(db, now);
    forall id | id in ended.Keys && id in db.delegations
      ensures MaySettle(db.delegations[id], now) <==> db.delegations[id].generation < MAX_I64
    {
      LawfulAt(db, id);
    }
    if Enabled(db, Op.ReconcileExpired(now)) {
      forall id | id in db.delegations && Expired(db.delegations[id], now)
        ensures db.delegations[id].generation < MAX_I64
      {
        assert id in ended.Keys;
        assert MaySettle(db.delegations[id], now);
      }
    }
  }

  /** Afterwards no lease that had passed is still running, and no open lease was touched. */
  lemma ExpiryIsComplete(db: Db, now: nat, next: Db, id: string)
    requires Valid(db) && Enabled(db, Op.ReconcileExpired(now)) && Next(db, Op.ReconcileExpired(now), next)
    requires id in db.delegations
    ensures id in next.delegations && !Expired(next.delegations[id], now)
    ensures !Expired(db.delegations[id], now) ==> next.delegations[id] == db.delegations[id]
    ensures Expired(db.delegations[id], now) ==>
              next.delegations[id].updated == now
              && next.delegations[id].terminal == Some(
                   match db.delegations[id].reason
                   case Some(reason) => Outcome.Cancelled(reason)
                   case None => OutcomeUnknown(ExpiryReason(db.delegations[id].lease.value)))
  {
    assert IsEnded(db.delegations, id, ExpiredOutcomes(db, now), now, next.delegations);
  }

  /** Every running row was last written no later than `now`, and has room for a generation. */
  ghost predicate AllSettleable(db: Db, now: nat) {
    forall id | id in db.delegations && db.delegations[id].status.IsRunning? :: MaySettle(db.delegations[id], now)
  }

  /** `reconcile_running` ends every running row when all of them can be settled, and does nothing
      at all when one of them was last written in the future. */
  lemma SkewBlocksRestart(db: Db, reason: string, now: nat, next: Db)
    requires Valid(db) && ValidDetail(reason) && now <= MAX_I64
    requires Next(db, Op.ReconcileRunning(reason, now), next)
    ensures if AllSettleable(db, now) then forall id | id in next.delegations :: !next.delegations[id].status.IsRunning?
            else next == db
  {
    var ended := RunningOutcomes(db, reason);
    if AllSettleable(db, now) {
      assert Enabled(db, Op.ReconcileRunning(reason, now));
      forall id | id in next.delegations ensures !next.delegations[id].status.IsRunning? {
        assert IsEnded(db.delegations, id, ended, now, next.delegations);
      }
    } else {
      var id :| id in db.delegations && db.delegations[id].status.IsRunning? && !MaySettle(db.delegations[id], now);
      assert id in ended.Keys;
    }
  }
}
