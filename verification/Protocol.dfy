/** The port operations as atomic steps on the database: when each one is accepted, and what
    an accepted one does. A refused operation leaves every table as it was.

    Sources: `sqlite_delegation.rs`, `sqlite_foreground.rs` and `sqlite.rs:767-853`, all under
    `apps/hermesd/src/adapters/`. */
module Protocol {
  import opened Basics
  import opened Tables
  import Conversations

  // ---- One delegation row ------------------------------------------------------------

  predicate MayClaim(row: Delegation, generation: nat, now: nat, deadline: nat) {
    && now < deadline <= MAX_I64
    && row.generation == generation < MAX_I64
    && row.updated <= now
    && row.reason.None? && row.requested.None?
    && row.status.IsPending?
  }

  function Claimed(row: Delegation, worker: string, now: nat, deadline: nat): Delegation {
    row.(status := IsRunning, generation := row.generation + 1, worker := Some(worker),
         fence := row.fence + 1, lease := Some(deadline), updated := now)
  }

  /** The caller is the worker that holds this row, and its lease is still open at `at`. */
  predicate Holds(row: Delegation, generation: nat, fence: nat, at: nat) {
    && row.generation == generation
    && row.status.IsRunning? && row.fence == fence > 0
    && row.updated <= at
    && row.lease.Some? && at < row.lease.value
  }

  predicate MayRenew(row: Delegation, generation: nat, fence: nat, now: nat, deadline: nat) {
    && Holds(row, generation, fence, now)
    && generation < MAX_I64
    && now < deadline
    && row.lease.value < deadline <= MAX_I64
  }

  function Renewed(row: Delegation, now: nat, deadline: nat): Delegation {
    row.(generation := row.generation + 1, lease := Some(deadline), updated := now)
  }

  predicate MayCancel(row: Delegation, generation: nat, reason: string, at: nat) {
    && ValidDetail(reason)
    && row.generation == generation
    && row.updated <= at
    && (row.status.IsPending? ==> at <= MAX_I64 && generation < MAX_I64)
    && (row.status.IsRunning? ==>
          && row.lease.Some? && at < row.lease.value
          && (row.reason.None? || row.reason == Some(reason)))
    && !row.Over()
  }

  /** The cancellation intent stored on a running row; repeating it changes nothing. */
  function Intended(row: Delegation, reason: string, at: nat): Delegation {
    if row.reason.Some? then row else row.(reason := Some(reason), requested := Some(at), updated := at)
  }

  predicate ValidOutcome(outcome: Outcome) {
    match outcome
    case Completed(_) => true
    case Failed(error) => !Blank(error)
    case Cancelled(reason) => !Blank(reason)
    case OutcomeUnknown(reason) => !Blank(reason)
  }

  /** Without stored intent anything but `Cancelled`; with it, `Cancelled` for that reason only. */
  predicate LegalOutcome(row: Delegation, outcome: Outcome) {
    match row.reason
    case None => !outcome.Cancelled?
    case Some(reason) => outcome == Cancelled(reason)
  }

  predicate MayFinish(row: Delegation, generation: nat, fence: nat, outcome: Outcome, at: nat) {
    && ValidOutcome(outcome)
    && Holds(row, generation, fence, at)
    && generation < MAX_I64
    && LegalOutcome(row, outcome)
  }

  /** The row once it is over: the lease and any intent are cleared, a fence is always set. */
  function Ended(row: Delegation, outcome: Outcome, at: nat): Delegation {
    row.(status := StatusOf(outcome), generation := row.generation + 1,
         fence := if row.status.IsPending? then 1 else row.fence,
         lease := None, terminal := Some(outcome), reason := None, requested := None, updated := at)
  }

  predicate Expired(row: Delegation, now: nat) {
    row.status.IsRunning? && row.lease.Some? && row.lease.value <= now
  }

  function ExpiryReason(deadline: nat): string {
    "worker lease expired at " + Decimal(deadline) + "; no terminal outcome was durably recorded"
  }

  function Reconciled(row: Delegation, unknown: string): Outcome {
    match row.reason
    case Some(reason) => Cancelled(reason)
    case None => OutcomeUnknown(unknown)
  }

  predicate MaySettle(row: Delegation, at: nat) {
    row.updated <= at && row.generation < MAX_I64
  }

  // ---- Several delegations ending together -------------------------------------------

  function EventsOf(delegations: Delegations, ids: set<string>): set<string> {
    set id | id in ids && id in delegations :: delegations[id].spec.eventId
  }

  function After(row: Delegation, id: string, ended: map<string, Outcome>, at: nat): Delegation {
    if id in ended then Ended(row, ended[id], at) else row
  }

  predicate IsEnded(before: Delegations, id: string, ended: map<string, Outcome>, at: nat, after: Delegations) {
    id in before && id in after && after[id] == After(before[id], id, ended, at)
  }

  ghost predicate RowsEnded(before: Delegations, ended: map<string, Outcome>, at: nat, after: Delegations) {
    && after.Keys == before.Keys
    && forall id {:trigger IsEnded(before, id, ended, at, after)} | id in before :: IsEnded(before, id, ended, at, after)
  }

  predicate Survives(outbox: Outbox, event: string, after: Outbox) {
    event in outbox ==> event in after && after[event] == outbox[event]
  }

  /** The announcement of `row` stands undelivered in the outbox. */
  predicate Announced(row: Delegation, outcome: Outcome, at: nat, outbox: Outbox) {
    && row.spec.eventId in outbox
    && outbox[row.spec.eventId] == Undelivered(Announcement(row, outcome, at))
  }

  /** The outbox gains exactly the announcements of the ended delegations. */
  ghost predicate OutboxGains(before: Db, ended: map<string, Outcome>, at: nat, outbox: Outbox) {
    && outbox.Keys == before.outbox.Keys + EventsOf(before.delegations, ended.Keys)
    && (forall event {:trigger Survives(before.outbox, event, outbox)} :: Survives(before.outbox, event, outbox))
    && (forall id {:trigger Announced(before.delegations[id], ended[id], at, outbox)}
          | id in ended && id in before.delegations ::
          Announced(before.delegations[id], ended[id], at, outbox))
  }

  /** `next` is `db` with exactly the delegations of `ended` over and announced. */
  ghost predicate Ends(db: Db, ended: map<string, Outcome>, at: nat, next: Db) {
    && next.sessions == db.sessions
    && next.turns == db.turns
    && RowsEnded(db.delegations, ended, at, next.delegations)
    && OutboxGains(db, ended, at, next.outbox)
  }

  function EndOne(db: Db, id: string, outcome: Outcome, at: nat): Db
    requires id in db.delegations
  {
    var row := db.delegations[id];
    db.(delegations := db.delegations[id := Ended(row, outcome, at)],
        outbox := db.outbox[row.spec.eventId := Undelivered(Announcement(row, outcome, at))])
  }

  function ExpiredOutcomes(db: Db, now: nat): map<string, Outcome> {
    map id | id in db.delegations && Expired(db.delegations[id], now) ::
      Reconciled(db.delegations[id], ExpiryReason(db.delegations[id].lease.value))
  }

  function RunningOutcomes(db: Db, unknown: string): map<string, Outcome> {
    map id | id in db.delegations && db.delegations[id].status.IsRunning? ::
      Reconciled(db.delegations[id], unknown)
  }

  ghost predicate AllMaySettle(delegations: Delegations, ids: set<string>, at: nat) {
    forall id {:trigger MaySettle(delegations[id], at)} | id in ids && id in delegations ::
      MaySettle(delegations[id], at)
  }

  // ---- Sessions ----------------------------------------------------------------------

  ghost predicate MayAppend(sessions: Sessions, session: string, generation: nat,
                            chunk: seq<Conversations.Message>) {
    && Conversations.CompleteTurn(chunk)
    && session in sessions
    && var row := sessions[session];
    && row.generation == generation < MAX_I64
    && Conversations.WellFormed(row.messages + chunk)
    && |row.messages| + |chunk| <= MAX_I64
  }

  function Extended(row: Session, chunk: seq<Conversations.Message>): Session {
    row.(generation := row.generation + 1, messages := row.messages + chunk, count := |row.messages| + |chunk|)
  }

  function Appended(db: Db, session: string, chunk: seq<Conversations.Message>): Db
    requires session in db.sessions
  {
    db.(sessions := db.sessions[session := Extended(db.sessions[session], chunk)])
  }

  function NewSession(config: SessionConfig): Session {
    Session(config, 1, [], 0)
  }

  // ---- Creating delegations ----------------------------------------------------------

  function NewDelegation(spec: Spec, now: nat): Delegation {
    Delegation(spec, IsPending, 1, None, 0, None, None, None, None, now, now)
  }

  predicate EventTaken(delegations: Delegations, event: string) {
    exists id :: id in delegations && delegations[id].spec.eventId == event
  }

  predicate ChildTaken(delegations: Delegations, child: string) {
    exists id :: id in delegations && delegations[id].spec.child == child
  }

  /** The collision query of `create` covers the id and the event, but not the child. */
  predicate Collides(table: Delegations, spec: Spec) {
    spec.delegationId in table || EventTaken(table, spec.eventId)
  }

  ghost predicate MayCreate(db: Db, spec: Spec, now: nat) {
    && ValidSpec(spec)
    && !Collides(db.delegations, spec)
    && spec.parent in db.sessions && spec.child in db.sessions
    && now <= MAX_I64
    && !ChildTaken(db.delegations, spec.child)
  }

  ghost predicate MayCreateWithChild(db: Db, config: SessionConfig, spec: Spec, now: nat) {
    && ValidSpec(spec)
    && config.sessionId == spec.child
    && spec.parent in db.sessions && spec.child !in db.sessions
    && !Collides(db.delegations, spec)
    && now <= MAX_I64
  }

  function Created(db: Db, spec: Spec, now: nat): Db {
    db.(delegations := db.delegations[spec.delegationId := NewDelegation(spec, now)])
  }

  function WithSession(db: Db, config: SessionConfig): Db {
    db.(sessions := db.sessions[config.sessionId := NewSession(config)])
  }

  // ---- Completion delivery -----------------------------------------------------------

  predicate Claimable(row: Delivery, now: nat) {
    !row.delivered && (row.claim.None? || (row.expires.Some? && row.expires.value <= now))
  }

  predicate HeldBy(row: Delivery, claim: string) {
    !row.delivered && row.claim == Some(claim)
  }

  function Taken(row: Delivery, claim: string, expires: nat): Delivery {
    row.(claim := Some(claim), expires := Some(expires), attempts := row.attempts + 1)
  }

  function Delivered(row: Delivery, at: nat): Delivery {
    row.(delivered := true, deliveredAt := Some(at), claim := None, expires := None)
  }

  function Freed(row: Delivery): Delivery {
    row.(claim := None, expires := None)
  }

  predicate MayTake(db: Db, event: string, now: nat, expires: nat) {
    now < expires <= MAX_I64 && event in db.outbox && Claimable(db.outbox[event], now)
  }

  predicate MayAcknowledge(db: Db, event: string, claim: string, at: nat) {
    at <= MAX_I64 && event in db.outbox && HeldBy(db.outbox[event], claim) && db.outbox[event].created <= at
  }

  predicate MayFree(db: Db, event: string, claim: string) {
    event in db.outbox && HeldBy(db.outbox[event], claim)
  }

  // ---- Foreground turns --------------------------------------------------------------

  datatype DeliveryClaim = DeliveryClaim(event: string, claim: string)

  predicate Owns(db: Db, session: string, delegation: string) {
    delegation in db.delegations && db.delegations[delegation].spec.parent == session
  }

  /** The turn holds the claim on this completion, and the completion is its session's. */
  predicate Deliverable(db: Db, session: string, held: DeliveryClaim, at: nat) {
    MayAcknowledge(db, held.event, held.claim, at) && Owns(db, session, db.outbox[held.event].delegationId)
  }

  function Events(claims: seq<DeliveryClaim>): (events: seq<string>) {
    seq(|claims|, i requires 0 <= i < |claims| => claims[i].event)
  }

  ghost predicate AllDeliverable(db: Db, session: string, claims: seq<DeliveryClaim>, at: nat) {
    forall i :: 0 <= i < |claims| ==> Deliverable(db, session, claims[i], at)
  }

  /** Every claim is current and the session's own, and no event is named twice. */
  ghost predicate Acceptable(db: Db, session: string, claims: seq<DeliveryClaim>, at: nat) {
    AllDeliverable(db, session, claims, at) && Distinct(Events(claims))
  }

  function DeliverAll(outbox: Outbox, events: seq<string>, at: nat): Outbox {
    map event | event in outbox ::
      if event in events then Delivered(outbox[event], at) else outbox[event]
  }

  predicate Busy(turns: Turns, session: string) {
    exists id :: id in turns && turns[id].session == session && turns[id].status.IsActive?
  }

  ghost predicate MayStart(db: Db, id: string, session: string, prompt: string, providerPrompt: string,
                           generation: nat, claims: seq<DeliveryClaim>, at: nat) {
    && !Blank(prompt) && !Blank(providerPrompt)
    && at <= MAX_I64
    && session in db.sessions && db.sessions[session].generation == generation
    && id !in db.turns
    && !Busy(db.turns, session)
    && Acceptable(db, session, claims, at)
  }

  function NewTurn(session: string, prompt: string, providerPrompt: string, generation: nat, at: nat): Turn {
    Turn(session, generation, prompt, providerPrompt, IsActive, None, at, at)
  }

  function Started(db: Db, id: string, turn: Turn, claims: seq<DeliveryClaim>): Db {
    db.(turns := db.turns[id := turn], outbox := DeliverAll(db.outbox, Events(claims), turn.started))
  }

  /** The attempt is running at the caller's generation and `at` does not precede it. */
  predicate MayClose(db: Db, id: string, generation: nat, at: nat) {
    && id in db.turns
    && db.turns[id].generation == generation
    && db.turns[id].status.IsActive?
    && db.turns[id].updated <= at <= MAX_I64
  }

  function Closed(row: Turn, outcome: TurnOutcome, at: nat): Turn {
    row.(status := TurnStatusOf(outcome), terminal := Some(outcome), updated := at)
  }

  function CloseOne(db: Db, id: string, outcome: TurnOutcome, at: nat): Db
    requires id in db.turns
  {
    db.(turns := db.turns[id := Closed(db.turns[id], outcome, at)])
  }

  predicate ValidTurnOutcome(outcome: TurnOutcome) {
    outcome.TurnCompleted? || ValidDetail(outcome.reason)
  }

  predicate MayTerminate(db: Db, id: string, generation: nat, outcome: TurnOutcome, at: nat) {
    && !outcome.TurnCompleted? && ValidTurnOutcome(outcome)
    && MayClose(db, id, generation, at)
    && db.turns[id].session in db.sessions
    && db.sessions[db.turns[id].session].generation == generation
  }

  ghost predicate AllMayClose(turns: Turns, at: nat) {
    forall id | id in turns && turns[id].status.IsActive? :: turns[id].updated <= at
  }

  function CloseAll(turns: Turns, reason: string, at: nat): Turns {
    map id | id in turns ::
      if turns[id].status.IsActive? then Closed(turns[id], TurnUnknown(reason), at) else turns[id]
  }

  // ---- Steps -------------------------------------------------------------------------

  datatype Op =
    | CreateSession(config: SessionConfig)
    | Append(session: string, generation: nat, chunk: seq<Conversations.Message>)
    | Create(spec: Spec, now: nat)
    | CreateWithChild(config: SessionConfig, spec: Spec, now: nat)
    | Claim(id: string, generation: nat, worker: string, now: nat, deadline: nat)
    | Heartbeat(id: string, generation: nat, fence: nat, now: nat, deadline: nat)
    | Cancel(id: string, generation: nat, reason: string, at: nat)
    | Finish(id: string, generation: nat, fence: nat, outcome: Outcome, at: nat)
    | CompleteChild(id: string, generation: nat, fence: nat, childGeneration: nat, chunk: seq<Conversations.Message>,
                    summary: string, at: nat)
    | ReconcileExpired(now: nat)
    | ReconcileRunning(reason: string, now: nat)
    | ClaimCompletion(event: string, claim: string, now: nat, expires: nat)
    | AcknowledgeCompletion(event: string, claim: string, at: nat)
    | ReleaseCompletion(event: string, claim: string)
    | StartTurn(turn: string, session: string, prompt: string, providerPrompt: string, generation: nat,
                claims: seq<DeliveryClaim>, at: nat)
    | CompleteTurn(turn: string, generation: nat, chunk: seq<Conversations.Message>, at: nat)
    | TerminateTurn(turn: string, generation: nat, result: TurnOutcome, at: nat)
    | ReconcileTurns(reason: string, at: nat)

  ghost predicate MayCompleteChild(db: Db, id: string, generation: nat, fence: nat, childGeneration: nat,
                                   chunk: seq<Conversations.Message>, summary: string, at: nat) {
    && id in db.delegations
    && MayFinish(db.delegations[id], generation, fence, Completed(summary), at)
    && MayAppend(db.sessions, db.delegations[id].spec.child, childGeneration, chunk)
  }

  ghost predicate MayCompleteTurn(db: Db, turn: string, generation: nat, chunk: seq<Conversations.Message>, at: nat) {
    && MayClose(db, turn, generation, at)
    && MayAppend(db.sessions, db.turns[turn].session, generation, chunk)
  }

  ghost predicate Enabled(db: Db, op: Op) {
    match op
    case CreateSession(config) => config.sessionId !in db.sessions
    case Append(session, generation, chunk) => MayAppend(db.sessions, session, generation, chunk)
    case Create(spec, now) => MayCreate(db, spec, now)
    case CreateWithChild(config, spec, now) => MayCreateWithChild(db, config, spec, now)
    case Claim(id, generation, _, now, deadline) =>
      id in db.delegations && MayClaim(db.delegations[id], generation, now, deadline)
    case Heartbeat(id, generation, fence, now, deadline) =>
      id in db.delegations && MayRenew(db.delegations[id], generation, fence, now, deadline)
    case Cancel(id, generation, reason, at) =>
      id in db.delegations && MayCancel(db.delegations[id], generation, reason, at)
    case Finish(id, generation, fence, outcome, at) =>
      id in db.delegations && MayFinish(db.delegations[id], generation, fence, outcome, at)
    case CompleteChild(id, generation, fence, childGeneration, chunk, summary, at) =>
      MayCompleteChild(db, id, generation, fence, childGeneration, chunk, summary, at)
    case ReconcileExpired(now) =>
      now <= MAX_I64 && AllMaySettle(db.delegations, ExpiredOutcomes(db, now).Keys, now)
    case ReconcileRunning(reason, now) =>
      ValidDetail(reason) && now <= MAX_I64 && AllMaySettle(db.delegations, RunningOutcomes(db, reason).Keys, now)
    case ClaimCompletion(event, _, now, expires) => MayTake(db, event, now, expires)
    case AcknowledgeCompletion(event, claim, at) => MayAcknowledge(db, event, claim, at)
    case ReleaseCompletion(event, claim) => MayFree(db, event, claim)
    case StartTurn(turn, session, prompt, providerPrompt, generation, claims, at) =>
      MayStart(db, turn, session, prompt, providerPrompt, generation, claims, at)
    case CompleteTurn(turn, generation, chunk, at) => MayCompleteTurn(db, turn, generation, chunk, at)
    case TerminateTurn(turn, generation, outcome, at) => MayTerminate(db, turn, generation, outcome, at)
    case ReconcileTurns(reason, at) => ValidDetail(reason) && at <= MAX_I64 && AllMayClose(db.turns, at)
  }

  function Cancelling(db: Db, id: string, reason: string, at: nat): Db
    requires id in db.delegations
  {
    if db.delegations[id].status.IsPending? then EndOne(db, id, Cancelled(reason), at)
    else db.(delegations := db.delegations[id := Intended(db.delegations[id], reason, at)])
  }

  /** What an accepted operation does. */
  ghost predicate Takes(db: Db, op: Op, next: Db)
    requires Enabled(db, op)
  {
    match op
    case CreateSession(config) => next == WithSession(db, config)
    case Append(session, _, chunk) => next == Appended(db, session, chunk)
    case Create(spec, now) => next == Created(db, spec, now)
    case CreateWithChild(config, spec, now) => next == Created(WithSession(db, config), spec, now)
    case Claim(id, _, worker, now, deadline) =>
      next == db.(delegations := db.delegations[id := Claimed(db.delegations[id], worker, now, deadline)])
    case Heartbeat(id, _, _, now, deadline) =>
      next == db.(delegations := db.delegations[id := Renewed(db.delegations[id], now, deadline)])
    case Cancel(id, _, reason, at) => next == Cancelling(db, id, reason, at)
    case Finish(id, _, _, outcome, at) => next == EndOne(db, id, outcome, at)
    case CompleteChild(id, _, _, _, chunk, summary, at) =>
      next == EndOne(Appended(db, db.delegations[id].spec.child, chunk), id, Completed(summary), at)
    case ReconcileExpired(now) => Ends(db, ExpiredOutcomes(db, now), now, next)
    case ReconcileRunning(reason, now) => Ends(db, RunningOutcomes(db, reason), now, next)
    case ClaimCompletion(event, claim, _, expires) =>
      next == db.(outbox := db.outbox[event := Taken(db.outbox[event], claim, expires)])
    case AcknowledgeCompletion(event, _, at) =>
      next == db.(outbox := db.outbox[event := Delivered(db.outbox[event], at)])
    case ReleaseCompletion(event, _) =>
      next == db.(outbox := db.outbox[event := Freed(db.outbox[event])])
    case StartTurn(turn, session, prompt, providerPrompt, generation, claims, at) =>
      next == Started(db, turn, NewTurn(session, prompt, providerPrompt, generation, at), claims)
    case CompleteTurn(turn, _, chunk, at) =>
      next == CloseOne(Appended(db, db.turns[turn].session, chunk), turn, TurnCompleted, at)
    case TerminateTurn(turn, _, outcome, at) => next == CloseOne(db, turn, outcome, at)
    case ReconcileTurns(reason, at) => next == db.(turns := CloseAll(db.turns, reason, at))
  }

  /** One attempted operation: accepted and carried out, or refused without effect. */
  ghost predicate Next(db: Db, op: Op, next: Db) {
    if Enabled(db, op) then Takes(db, op, next) else next == db
  }
}
