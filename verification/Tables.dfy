/** The shared state database: the rows of `apps/hermesd/src/adapters/sqlite.rs:71-97` and
    `sqlite.rs:164-257`, the constraints the schema declares, and the invariant that the
    Rust guards maintain on top of them. */
module Tables {
  import opened Basics
  import Conversations

  // ---- Delegations -------------------------------------------------------------------

  datatype Outcome =
    | Completed(summary: string)
    | Failed(error: string)
    | Cancelled(reason: string)
    | OutcomeUnknown(reason: string)

  /** The `state` column. */
  datatype Status = IsPending | IsRunning | IsCompleted | IsFailed | IsCancelled | IsUnknown

  function StatusOf(outcome: Outcome): Status {
    match outcome
    case Completed(_) => IsCompleted
    case Failed(_) => IsFailed
    case Cancelled(_) => IsCancelled
    case OutcomeUnknown(_) => IsUnknown
  }

  datatype Spec = Spec(
    delegationId: string, eventId: string, parent: string, child: string, goal: string, context: Option<string>)

  predicate ValidSpec(spec: Spec) {
    spec.parent != spec.child && spec.goal != "" && Unpadded(spec.goal)
  }

  datatype Delegation = Delegation(
    spec: Spec, status: Status, generation: nat, worker: Option<string>, fence: nat,
    lease: Option<nat>, terminal: Option<Outcome>,
    reason: Option<string>, requested: Option<nat>, created: nat, updated: nat)
  {
    predicate Over() { !status.IsPending? && !status.IsRunning? }
  }

  /** The CHECK clauses of the `delegations` table. */
  predicate DelegationCheck(row: Delegation) {
    && row.generation > 0
    && row.created <= row.updated
    && match row.status
       case IsPending => row.worker.None? && row.fence == 0 && row.lease.None? && row.terminal.None?
       case IsRunning => row.worker.Some? && row.fence > 0 && row.lease.Some? && row.terminal.None?
       case _ => row.fence > 0 && row.lease.None? && row.terminal.Some?
  }

  /** What every reachable delegation row satisfies beyond its CHECK clauses. */
  predicate Lawful(row: Delegation) {
    && DelegationCheck(row)
    && ValidSpec(row.spec)
    && row.generation <= MAX_I64
    && row.updated <= MAX_I64
    && (row.status.IsPending? ==> row.generation == 1)
    && (!row.status.IsPending? ==> row.fence == 1)
    && (row.status.IsRunning? ==> row.updated < row.lease.value <= MAX_I64)
    && (row.Over() ==> row.status == StatusOf(row.terminal.value))
    && (row.reason.Some? <==> row.requested.Some?)
    && (row.reason.Some? ==>
          && row.status.IsRunning?
          && ValidDetail(row.reason.value)
          && row.created <= row.requested.value <= row.updated)
  }

  // ---- Completion outbox -------------------------------------------------------------

  datatype Completion = Completion(
    eventId: string, delegationId: string, spec: Spec, outcome: Outcome, completedAt: nat)

  datatype Delivery = Delivery(
    delegationId: string, payload: Completion, delivered: bool, claim: Option<string>, expires: Option<nat>,
    attempts: nat, created: nat, deliveredAt: Option<nat>)

  /** The CHECK clauses of the `delegation_completions` table. */
  predicate DeliveryCheck(row: Delivery) {
    && (row.claim.Some? <==> row.expires.Some?)
    && (row.delivered <==> row.deliveredAt.Some?)
    && (row.delivered ==> row.claim.None?)
  }

  /** The completion that announces a finished delegation. */
  function Announcement(row: Delegation, outcome: Outcome, at: nat): Completion {
    Completion(row.spec.eventId, row.spec.delegationId, row.spec, outcome, at)
  }

  function Undelivered(completion: Completion): Delivery {
    Delivery(completion.delegationId, completion, false, None, None, 0, completion.completedAt, None)
  }

  // ---- Foreground turns --------------------------------------------------------------

  datatype TurnOutcome =
    | TurnCompleted
    | TurnInterrupted(reason: string)
    | TurnFailed(reason: string)
    | TurnUnknown(reason: string)

  datatype TurnStatus = IsActive | IsDone | IsInterrupted | IsBroken | IsLost

  function TurnStatusOf(outcome: TurnOutcome): TurnStatus {
    match outcome
    case TurnCompleted => IsDone
    case TurnInterrupted(_) => IsInterrupted
    case TurnFailed(_) => IsBroken
    case TurnUnknown(_) => IsLost
  }

  datatype Turn = Turn(
    session: string, generation: nat, prompt: string, providerPrompt: string,
    status: TurnStatus, terminal: Option<TurnOutcome>, started: nat, updated: nat)

  /** The CHECK clauses of the `foreground_turns` table. */
  predicate TurnCheck(row: Turn) {
    && row.generation > 0
    && row.prompt != ""
    && row.started <= row.updated
    && (row.status.IsActive? <==> row.terminal.None?)
  }

  // ---- Sessions ----------------------------------------------------------------------

  datatype Engine = Direct | CodexAppServer

  datatype SessionConfig = SessionConfig(sessionId: string, engine: Engine, tools: seq<string>)

  datatype Session = Session(
    config: SessionConfig, generation: nat, messages: seq<Conversations.Message>, count: nat)

  ghost predicate SessionOk(id: string, row: Session) {
    && row.config.sessionId == id
    && 1 <= row.generation <= MAX_I64
    && Conversations.Settled(row.messages)
    && row.count == |row.messages| <= MAX_I64
  }

  // ---- The database ------------------------------------------------------------------

  datatype Db = Db(sessions: Sessions, delegations: Delegations, outbox: Outbox, turns: Turns)

  const EMPTY := Db(map[], map[], map[], map[])

  type Sessions = map<string, Session>
  type Delegations = map<string, Delegation>
  type Outbox = map<string, Delivery>
  type Turns = map<string, Turn>

  ghost predicate SessionsOk(sessions: Sessions) {
    forall id {:trigger SessionOk(id, sessions[id])} | id in sessions :: SessionOk(id, sessions[id])
  }

  /** Every delegation row is lawful and names two stored sessions. */
  ghost predicate DelegationsOk(sessions: set<string>, delegations: Delegations) {
    forall id {:trigger DelegationOk(sessions, id, delegations[id])} | id in delegations ::
      DelegationOk(sessions, id, delegations[id])
  }

  ghost predicate DelegationOk(sessions: set<string>, id: string, row: Delegation) {
    row.spec.delegationId == id && Lawful(row) && row.spec.parent in sessions && row.spec.child in sessions
  }

  /** The UNIQUE columns: no two delegations share a completion event or a child. */
  ghost predicate KeysUnique(delegations: Delegations) {
    forall a, b {:trigger KeysDiffer(delegations[a], delegations[b])}
      | a in delegations && b in delegations && a != b :: KeysDiffer(delegations[a], delegations[b])
  }

  predicate KeysDiffer(a: Delegation, b: Delegation) {
    a.spec.eventId != b.spec.eventId && a.spec.child != b.spec.child
  }

  /** Every outbox row announces one finished delegation, exactly as it finished. */
  ghost predicate OutboxSound(delegations: Delegations, outbox: Outbox) {
    forall event {:trigger Announces(delegations, event, outbox[event])} | event in outbox ::
      Announces(delegations, event, outbox[event])
  }

  ghost predicate Announces(delegations: Delegations, event: string, row: Delivery) {
    DeliveryCheck(row) && row.delegationId in delegations && Mirrors(event, row, delegations[row.delegationId])
  }

  ghost predicate Mirrors(event: string, row: Delivery, owner: Delegation) {
    && owner.Over()
    && owner.spec.eventId == event
    && owner.terminal.Some?
    && row.payload == Announcement(owner, owner.terminal.value, owner.updated)
    && row.created == owner.updated
  }

  /** Every finished delegation is announced. */
  ghost predicate OutboxComplete(delegations: Delegations, outbox: Outbox) {
    forall id {:trigger IsAnnounced(delegations[id], outbox)} | id in delegations :: IsAnnounced(delegations[id], outbox)
  }

  predicate IsAnnounced(row: Delegation, outbox: Outbox) {
    row.Over() ==> row.spec.eventId in outbox
  }

  ghost predicate TurnsOk(sessions: Sessions, turns: Turns) {
    forall id {:trigger TurnOk(sessions, turns[id])} | id in turns :: TurnOk(sessions, turns[id])
  }

  /** An attempt never runs ahead of its session, and a completed one lies behind it. */
  ghost predicate TurnOk(sessions: Sessions, row: Turn) {
    && TurnLawful(row)
    && row.session in sessions
    && row.generation <= sessions[row.session].generation
    && (row.status.IsDone? ==> row.generation < sessions[row.session].generation)
  }

  predicate TurnLawful(row: Turn) {
    && TurnCheck(row)
    && !Blank(row.prompt) && !Blank(row.providerPrompt)
    && row.updated <= MAX_I64
    && (row.terminal.Some? ==> row.status == TurnStatusOf(row.terminal.value))
  }

  /** At most one running attempt a session, at most one completed attempt a generation. */
  ghost predicate TurnsExclusive(turns: Turns) {
    forall a, b {:trigger TurnsDiffer(turns[a], turns[b])}
      | a in turns && b in turns && a != b :: TurnsDiffer(turns[a], turns[b])
  }

  predicate TurnsDiffer(a: Turn, b: Turn) {
    a.session == b.session ==>
      && !(a.status.IsActive? && b.status.IsActive?)
      && !(a.status.IsDone? && b.status.IsDone? && a.generation == b.generation)
  }

  /** The invariant of the whole database. */
  ghost predicate Valid(db: Db) {
    && SessionsOk(db.sessions)
    && DelegationsOk(db.sessions.Keys, db.delegations)
    && KeysUnique(db.delegations)
    && OutboxSound(db.delegations, db.outbox)
    && OutboxComplete(db.delegations, db.outbox)
    && TurnsOk(db.sessions, db.turns)
    && TurnsExclusive(db.turns)
  }
}
