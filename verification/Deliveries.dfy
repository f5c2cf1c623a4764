/** Exactly-once delivery over whole runs: consumers race to claim, acknowledge, release and
    accept completions, and claims expire, yet no completion is delivered twice or astray. */
module Deliveries {
  import opened Basics
  import opened Tables
  import opened Protocol
  import opened Invariance
  import opened History

  /** What may have become of an outbox row that once read `a`. */
  predicate Progresses(a: Delivery, b: Delivery) {
    && b.delegationId == a.delegationId && b.payload == a.payload && b.created == a.created
    && a.attempts <= b.attempts
    && (a.delivered ==> b == a)
  }

  lemma ReconcileKeepsOutbox(db: Db, ended: map<string, Outcome>, at: nat, next: Db, event: string)
    requires Ends(db, ended, at, next) && event in db.outbox
    ensures event in next.outbox && next.outbox[event] == db.outbox[event]
  {
    assert Survives(db.outbox, event, next.outbox);
  }

  lemma FinishKeepsOutbox(db: Db, id: string, outcome: Outcome, at: nat, event: string)
    requires Valid(db) && id in db.delegations && !db.delegations[id].Over() && event in db.outbox
    ensures event in EndOne(db, id, outcome, at).outbox && EndOne(db, id, outcome, at).outbox[event] == db.outbox[event]
  {
    EventFree(db.delegations, db.outbox, id);
  }

  /** The operations of the consumers of completions. */
  predicate Consumes(op: Op) {
    op.ClaimCompletion? || op.AcknowledgeCompletion? || op.ReleaseCompletion? || op.StartTurn?
  }

  /** No other operation touches a row of the outbox. */
  lemma OthersKeepOutbox(db: Db, op: Op, next: Db, event: string)
    requires Valid(db) && Next(db, op, next) && !Consumes(op) && event in db.outbox
    ensures event in next.outbox && next.outbox[event] == db.outbox[event]
  {
    if Enabled(db, op) {
      match op
      case Cancel(id, _, reason, at) =>
        if db.delegations[id].status.IsPending? { FinishKeepsOutbox(db, id, Outcome.Cancelled(reason), at, event); }
      case Finish(id, _, _, outcome, at) => FinishKeepsOutbox(db, id, outcome, at, event);
      case CompleteChild(id, _, _, _, _, summary, at) => FinishKeepsOutbox(db, id, Completed(summary), at, event);
      case ReconcileExpired(now) => ReconcileKeepsOutbox(db, ExpiredOutcomes(db, now), now, next, event);
      case ReconcileRunning(reason, now) => ReconcileKeepsOutbox(db, RunningOutcomes(db, reason), now, next, event);
      case _ =>
    }
  }

  /** One step never rewrites an announcement and never reopens a delivered one. */
  lemma StepProgresses(db: Db, op: Op, next: Db, event: string)
    requires Valid(db) && Next(db, op, next) && event in db.outbox
    ensures event in next.outbox && Progresses(db.outbox[event], next.outbox[event])
  {
    if !Consumes(op) { OthersKeepOutbox(db, op, next, event); }
  }

  lemma {:induction false} ProgressesOverRun(states: seq<Db>, ops: seq<Op>, i: nat, j: nat, event: string)
    requires Behavior(states, ops) && i <= j < |states| && event in states[i].outbox
    ensures event in states[j].outbox && Progresses(states[i].outbox[event], states[j].outbox[event])
    decreases j
  {
    if i < j {
      ProgressesOverRun(states, ops, i, j - 1, event);
      AlwaysValid(states, ops, j - 1);
      assert StepAt(states, ops, j - 1);
      StepProgresses(states[j - 1], ops[j - 1], states[j], event);
    }
  }

  ghost predicate DeliversAt(states: seq<Db>, i: int, event: string) {
    && 0 <= i && i + 1 < |states|
    && event in states[i].outbox && !states[i].outbox[event].delivered
    && event in states[i + 1].outbox && states[i + 1].outbox[event].delivered
  }

  /** No completion is delivered twice, whoever the consumers are. */
  lemma DeliveredAtMostOnce(states: seq<Db>, ops: seq<Op>, i: nat, j: nat, event: string)
    requires Behavior(states, ops)
    requires DeliversAt(states, i, event) && DeliversAt(states, j, event)
    ensures i == j
  {
    if i != j {
      var a, b := if i < j then i else j, if i < j then j else i;
      ProgressesOverRun(states, ops, a + 1, b, event);
    }
  }

  /** Only an acknowledgement or an accepted turn delivers anything. */
  lemma OtherStepsDeliverNothing(db: Db, op: Op, next: Db, event: string)
    requires Valid(db) && Next(db, op, next) && event in db.outbox
    requires !op.AcknowledgeCompletion? && !op.StartTurn?
    ensures event in next.outbox && next.outbox[event].delivered == db.outbox[event].delivered
  {
    if !Consumes(op) { OthersKeepOutbox(db, op, next, event); }
  }

  /** A completion is delivered only to whoever holds its claim, and a turn that accepts it
      belongs to the parent session of the delegation. */
  lemma DeliveryNeedsTheClaim(db: Db, op: Op, next: Db, event: string)
    requires Valid(db) && Next(db, op, next)
    requires event in db.outbox && !db.outbox[event].delivered
    requires event in next.outbox && next.outbox[event].delivered
    ensures || (op.AcknowledgeCompletion? && op.event == event && db.outbox[event].claim == Some(op.claim))
            || (&& op.StartTurn?
                && event in Events(op.claims)
                && (forall k :: 0 <= k < |op.claims| && op.claims[k].event == event ==>
                      db.outbox[event].claim == Some(op.claims[k].claim))
                && Owns(db, op.session, db.outbox[event].delegationId))
  {
    if op.StartTurn? {
      AcceptedEvent(db, op.session, op.claims, op.at, event);
    } else if !op.AcknowledgeCompletion? {
      OtherStepsDeliverNothing(db, op, next, event);
    }
  }

  lemma AcceptedEvent(db: Db, session: string, claims: seq<DeliveryClaim>, at: nat, event: string)
    requires AllDeliverable(db, session, claims, at) && event in Events(claims)
    ensures event in db.outbox && Owns(db, session, db.outbox[event].delegationId)
    ensures forall k :: 0 <= k < |claims| && claims[k].event == event ==> db.outbox[event].claim == Some(claims[k].claim)
  {
    var k :| 0 <= k < |claims| && Events(claims)[k] == event;
    assert Deliverable(db, session, claims[k], at);
    forall i | 0 <= i < |claims| && claims[i].event == event
      ensures db.outbox[event].claim == Some(claims[i].claim)
    {
      assert Deliverable(db, session, claims[i], at);
    }
  }

  /** Accepting a turn delivers every completion it names, and touches no other. */
  lemma AcceptanceDelivers(db: Db, op: Op, next: Db, event: string)
    requires Valid(db) && op.StartTurn? && Enabled(db, op) && Next(db, op, next) && event in db.outbox
    ensures event in next.outbox
    ensures event in Events(op.claims) ==> next.outbox[event].delivered && !db.outbox[event].delivered
    ensures event !in Events(op.claims) ==> next.outbox[event] == db.outbox[event]
  {
    if event in Events(op.claims) {
      AcceptedEvent(db, op.session, op.claims, op.at, event);
    }
  }

  ghost predicate BadClaim(db: Db, session: string, claims: seq<DeliveryClaim>, i: nat)
    requires i < |claims|
  {
    var c := claims[i];
    || c.event !in db.outbox
    || db.outbox[c.event].delivered
    || db.outbox[c.event].claim != Some(c.claim)
    || !Owns(db, session, db.outbox[c.event].delegationId)
    || (exists k :: 0 <= k < i && claims[k].event == c.event)
  }

  lemma BadClaimIsUnacceptable(db: Db, session: string, claims: seq<DeliveryClaim>, at: nat, i: nat)
    requires i < |claims| && BadClaim(db, session, claims, i)
    ensures !Acceptable(db, session, claims, at)
  {
    if k :| 0 <= k < i && claims[k].event == claims[i].event {
      assert Events(claims)[k] == Events(claims)[i];
    } else {
      assert !Deliverable(db, session, claims[i], at);
    }
  }

  /** One claim that is stale, repeated or another session's rejects the whole acceptance:
      no turn row appears and nothing is delivered. */
  lemma OneBadClaimRejects(db: Db, op: Op, next: Db, i: nat)
    requires op.StartTurn? && Next(db, op, next)
    requires i < |op.claims| && BadClaim(db, op.session, op.claims, i)
    ensures next == db
  {
    BadClaimIsUnacceptable(db, op.session, op.claims, op.at, i);
  }

  /** Who may have displaced the holder of a claim: nobody before it lapsed, unless the
      holder's own claim id was used to let it go. */
  ghost predicate Displaces(op: Op, event: string, claim: string, expires: nat) {
    || (op.ClaimCompletion? && op.event == event && expires <= op.now)
    || (op.ReleaseCompletion? && op.event == event && op.claim == claim)
    || (op.AcknowledgeCompletion? && op.event == event && op.claim == claim)
    || (op.StartTurn? && event in Events(op.claims)
        && forall k :: 0 <= k < |op.claims| && op.claims[k].event == event ==> op.claims[k].claim == claim)
  }

  lemma StepKeepsClaim(db: Db, op: Op, next: Db, event: string, claim: string, expires: nat)
    requires Valid(db) && Next(db, op, next) && event in db.outbox
    requires HeldBy(db.outbox[event], claim) && db.outbox[event].expires == Some(expires)
    requires !Displaces(op, event, claim, expires)
    ensures event in next.outbox
    ensures HeldBy(next.outbox[event], claim) && next.outbox[event].expires == Some(expires)
  {
    StepProgresses(db, op, next, event);
    if next.outbox[event].delivered {
      DeliveryNeedsTheClaim(db, op, next, event);
    } else if op.StartTurn? {
      if Enabled(db, op) { AcceptanceDelivers(db, op, next, event); }
    } else if !Consumes(op) {
      OthersKeepOutbox(db, op, next, event);
    }
  }

  /** A consumer keeps its claim through any interleaving in which nobody claims the event at
      or after the deadline and nobody presents the consumer's own claim id. */
  lemma {:induction false} ClaimIsExclusive(states: seq<Db>, ops: seq<Op>, i: nat, j: nat, event: string, claim: string, expires: nat)
    requires Behavior(states, ops) && i <= j < |states| && event in states[i].outbox
    requires HeldBy(states[i].outbox[event], claim) && states[i].outbox[event].expires == Some(expires)
    requires forall k :: i <= k < j ==> !Displaces(ops[k], event, claim, expires)
    ensures event in states[j].outbox
    ensures HeldBy(states[j].outbox[event], claim) && states[j].outbox[event].expires == Some(expires)
    decreases j
  {
    if i < j {
      ClaimIsExclusive(states, ops, i, j - 1, event, claim, expires);
      AlwaysValid(states, ops, j - 1);
      assert StepAt(states, ops, j - 1);
      StepKeepsClaim(states[j - 1], ops[j - 1], states[j], event, claim, expires);
    }
  }
}
